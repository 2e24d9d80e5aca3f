/** What the bots' updates do to ledger files: the atomic effect of one commit on the text of a
    file, the effect of a whole log of commits, and what no commit ever changes. */
module Updates {
  import opened Wrappers
  import opened Ledger
  import AppId
  import Serial
  import Timestamp

  /** enroll/revoke loadLedger on the text of a file, if there is one: None when it does not
      parse, otherwise the ledger, or None inside when there is no file. */
  function Load(lc: Codec, text: Option<string>): Option<Option<Ledger>> {
    if text.None? then Some(None)
    else
      var l :- lc.parse(text.value);
      Some(Some(l))
  }

  /** The atomic update: load, revise, marshal. None when the file does not parse or there is
      nothing to flip. */
  function Written(lc: Codec, text: Option<string>, appID: string, u: Update): Option<string> {
    var existing :- Load(lc, text);
    var l :- Revise(existing, appID, u);
    Some(lc.marshal(l))
  }

  /** Ledger files by appId. */
  type Files = map<string, string>

  function TextOf(files: Files, appID: string): Option<string> {
    if appID in files then Some(files[appID]) else None
  }

  function LedgerOf(lc: Codec, files: Files, appID: string): Option<Ledger> {
    if appID in files then lc.parse(files[appID]) else None
  }

  datatype Commit = Commit(bot: nat, appID: string, update: Update)

  function Applied(lc: Codec, files: Files, c: Commit): Files {
    match Written(lc, TextOf(files, c.appID), c.appID, c.update)
    case Some(text) => files[c.appID := text]
    case None => files
  }

  /** One commit after the other, as if no two bots ever ran at the same time. */
  function Replay(lc: Codec, files: Files, log: seq<Commit>): Files {
    if log == [] then files
    else Applied(lc, Replay(lc, files, log[..|log| - 1]), log[|log| - 1])
  }

  // ---- ledgers that bots can live with ----

  /** A ledger as bots leave it: on disk in canonical values, every serial readable by the CRL,
      and no certificate revoked from before it was valid. */
  predicate Healthy(l: Ledger) {
    && Stored(l)
    && forall i :: 0 <= i < |l.Certs()| ==> HealthyCert(l.Certs()[i])
  }

  predicate HealthyCert(c: Certificate) {
    && Serial.ParseSerial(c.serial).Some?
    && (c.Revoked() ==> c.revokedFrom.Some? && c.notBefore <= c.revokedFrom.value)
  }

  predicate HealthyFiles(lc: Codec, files: Files) {
    forall a :: a in files ==> LedgerOf(lc, files, a).Some? && Healthy(LedgerOf(lc, files, a).value)
  }

  /** An update with printable instants, a fresh active entry, a readable serial. */
  predicate GoodUpdate(u: Update) {
    match u
    case Append(repo, now, entry) =>
      && Timestamp.InRange(now) && entry.InRange()
      && entry.status == STATUS_ACTIVE && entry.revokedFrom.None?
      && Serial.ParseSerial(entry.serial).Some?
    case Flip(target, revocation) => Timestamp.InRange(revocation.revokedFrom)
  }

  /** The update applies to this ledger, and flips nothing to a date before its notBefore. */
  predicate Sound(existing: Option<Ledger>, appID: string, u: Update) {
    && AppId.Valid(appID)
    && GoodUpdate(u)
    && (u.Flip? ==>
          existing.Some? &&
          var i := FindIn(existing.value.Certs(), u.target);
          i >= 0 && existing.value.Certs()[i].notBefore <= u.revocation.revokedFrom)
  }

  predicate SoundCommit(lc: Codec, files: Files, c: Commit) {
    Sound(LedgerOf(lc, files, c.appID), c.appID, c.update)
  }

  /** Every commit of the log is sound where it lands. */
  predicate SoundLog(lc: Codec, files: Files, log: seq<Commit>) {
    log == [] ||
    (SoundLog(lc, files, log[..|log| - 1]) && SoundCommit(lc, Replay(lc, files, log[..|log| - 1]), log[|log| - 1]))
  }

  // ---- the history a ledger keeps ----

  /** `later` keeps everything `earlier` recorded: ownership, claim and reservation; every
      certificate at its place with its identity; and every revocation. */
  predicate Extends(earlier: Ledger, later: Ledger) {
    && later.appID == earlier.appID
    && later.owner == earlier.owner
    && later.claimedAt == earlier.claimedAt
    && later.reserved == earlier.reserved
    && |earlier.Certs()| <= |later.Certs()|
    && forall i :: 0 <= i < |earlier.Certs()| ==>
         && later.Certs()[i].SameIdentity(earlier.Certs()[i])
         && (earlier.Certs()[i].Revoked() ==> later.Certs()[i].Revoked())
  }

  lemma ExtendsTransitive(a: Ledger, b: Ledger, c: Ledger)
    requires Extends(a, b) && Extends(b, c)
    ensures Extends(a, c)
  {}

  /** The first match stays the first match as the list grows: identities never change, so an
      index found once is the index found after any number of later commits. */
  lemma {:induction false} FirstMatchIsStable(earlier: seq<Certificate>, later: seq<Certificate>, t: Target)
    requires |earlier| <= |later|
    requires forall i :: 0 <= i < |earlier| ==> later[i].SameIdentity(earlier[i])
    requires FindIn(earlier, t) >= 0
    ensures FindIn(later, t) == FindIn(earlier, t)
  {
    if !t.Matches(earlier[0]) {
      FirstMatchIsStable(earlier[1..], later[1..], t);
    }
  }

  /** A file written by an update holds exactly the revised ledger, cut to seconds. */
  lemma WrittenReadsBack(lc: Codec, text: Option<string>, appID: string, u: Update)
    requires lc.Faithful()
    requires Load(lc, text).Some?
    requires var existing := Load(lc, text).value; existing.Some? ==> Healthy(existing.value)
    requires Sound(Load(lc, text).value, appID, u)
    ensures var existing := Load(lc, text).value;
            && Revise(existing, appID, u).Some?
            && Written(lc, text, appID, u).Some?
            && var l := Revise(existing, appID, u).value;
               lc.parse(Written(lc, text, appID, u).value) == Some(l.Normal()) && Healthy(l.Normal())
  {
    var existing := Load(lc, text).value;
    var l := Revise(existing, appID, u).value;
    RevisedIsHealthy(existing, appID, u);
    assert lc.RoundTrips(l);
  }

  /** What one update does to the certificate list, as read back. */
  function RevisedCerts(existing: Option<Ledger>, u: Update): seq<Certificate>
    requires u.Flip? ==> existing.Some? && FindIn(existing.value.Certs(), u.target) >= 0
  {
    match u
    case Append(_, _, entry) => (if existing.Some? then existing.value.Certs() else []) + [entry.Normal()]
    case Flip(target, r) =>
      var cs := existing.value.Certs();
      var i := FindIn(cs, target);
      cs[i := RevokedCert(cs[i], r.(revokedFrom := Timestamp.Truncated(r.revokedFrom)))]
  }

  lemma StoredCerts(l: Ledger, i: nat)
    requires Stored(l) && i < |l.Certs()|
    ensures l.Certs()[i].Normal() == l.Certs()[i] && l.Certs()[i].InRange()
    ensures l.Certs()[i].WellFormed()
  {
    assert l.Normal().Certs()[i] == l.Certs()[i].Normal();
  }

  lemma RevisedIsHealthy(existing: Option<Ledger>, appID: string, u: Update)
    requires existing.Some? ==> Healthy(existing.value)
    requires Sound(existing, appID, u)
    ensures Revise(existing, appID, u).Some?
    ensures var l := Revise(existing, appID, u).value;
            && l.WellFormed() && l.InRange()
            && Healthy(l.Normal())
            && l.Normal().Certs() == RevisedCerts(existing, u)
  {
    var l := Revise(existing, appID, u).value;
    RevisedParts(existing, appID, u);
    NormalFacts(l);
    var cs := l.Normal().Certs();
    forall i | 0 <= i < |cs|
      ensures cs[i] == RevisedCerts(existing, u)[i] && HealthyCert(cs[i])
    {
      assert cs[i] == l.Certs()[i].Normal();
      if existing.Some? && i < |existing.value.Certs()| {
        StoredCerts(existing.value, i);
        if u.Flip? {
          Timestamp.TruncatedFacts(existing.value.Certs()[i].notBefore, u.revocation.revokedFrom);
        }
      }
    }
    assert cs == RevisedCerts(existing, u);
  }

  /** The revised ledger before it is written is valid and printable. */
  lemma RevisedParts(existing: Option<Ledger>, appID: string, u: Update)
    requires existing.Some? ==> Healthy(existing.value)
    requires Sound(existing, appID, u)
    ensures Revise(existing, appID, u).Some?
    ensures Revise(existing, appID, u).value.WellFormed() && Revise(existing, appID, u).value.InRange()
    ensures |Revise(existing, appID, u).value.Certs()| == |RevisedCerts(existing, u)|
  {
    var l := Revise(existing, appID, u).value;
    forall i | 0 <= i < |l.Certs()|
      ensures l.Certs()[i].WellFormed() && l.Certs()[i].InRange()
    {
      if existing.Some? && i < |existing.value.Certs()| {
        StoredCerts(existing.value, i);
      }
    }
  }

  lemma RevisedExtends(l: Ledger, appID: string, u: Update)
    requires Healthy(l) && Sound(Some(l), appID, u)
    ensures Revise(Some(l), appID, u).Some? && Extends(l, Revise(Some(l), appID, u).value.Normal())
  {
    RevisedIsHealthy(Some(l), appID, u);
    assert l.Normal().claimedAt == l.claimedAt;
  }

  lemma LoadedText(lc: Codec, files: Files, appID: string)
    requires HealthyFiles(lc, files)
    ensures Load(lc, TextOf(files, appID)) == Some(LedgerOf(lc, files, appID))
    ensures LedgerOf(lc, files, appID).Some? <==> appID in files
    ensures LedgerOf(lc, files, appID).Some? ==> Healthy(LedgerOf(lc, files, appID).value)
  {}

  /** What a sound commit leaves in the file it touches. */
  lemma TouchedFile(lc: Codec, files: Files, c: Commit) returns (text: string)
    requires lc.Faithful()
    requires HealthyFiles(lc, files) && SoundCommit(lc, files, c)
    ensures Written(lc, TextOf(files, c.appID), c.appID, c.update) == Some(text)
    ensures Applied(lc, files, c) == files[c.appID := text]
    ensures Revise(LedgerOf(lc, files, c.appID), c.appID, c.update).Some?
    ensures var l := Revise(LedgerOf(lc, files, c.appID), c.appID, c.update).value.Normal();
            lc.parse(text) == Some(l) && Healthy(l)
  {
    LoadedText(lc, files, c.appID);
    WrittenReadsBack(lc, TextOf(files, c.appID), c.appID, c.update);
    text := Written(lc, TextOf(files, c.appID), c.appID, c.update).value;
  }

  lemma OtherFiles(lc: Codec, files: Files, after: Files, appID: string, text: string)
    requires HealthyFiles(lc, files) && after == files[appID := text]
    requires lc.parse(text).Some? && Healthy(lc.parse(text).value)
    ensures HealthyFiles(lc, after)
    ensures forall a :: a in files && a != appID ==>
              after[a] == files[a] && LedgerOf(lc, after, a) == LedgerOf(lc, files, a)
  {
    forall a | a in after
      ensures LedgerOf(lc, after, a).Some? && Healthy(LedgerOf(lc, after, a).value)
    {
      if a != appID {
        assert after[a] == files[a];
      }
    }
  }

  /** One sound commit on healthy files: they stay healthy, the touched ledger extends what it
      was and holds the revised certificates, and no other file changes. */
  lemma CommitKeepsHistory(lc: Codec, files: Files, c: Commit)
    requires lc.Faithful()
    requires HealthyFiles(lc, files) && SoundCommit(lc, files, c)
    ensures HealthyFiles(lc, Applied(lc, files, c))
    ensures c.appID in Applied(lc, files, c) && files.Keys <= Applied(lc, files, c).Keys
    ensures Revise(LedgerOf(lc, files, c.appID), c.appID, c.update).Some?
    ensures LedgerOf(lc, Applied(lc, files, c), c.appID) ==
              Some(Revise(LedgerOf(lc, files, c.appID), c.appID, c.update).value.Normal())
    ensures LedgerOf(lc, Applied(lc, files, c), c.appID).value.Certs() ==
              RevisedCerts(LedgerOf(lc, files, c.appID), c.update)
    ensures c.appID in files ==> Extends(LedgerOf(lc, files, c.appID).value,
                                         LedgerOf(lc, Applied(lc, files, c), c.appID).value)
    ensures forall a :: a in files && a != c.appID ==> Applied(lc, files, c)[a] == files[a]
  {
    var text := TouchedFile(lc, files, c);
    OtherFiles(lc, files, Applied(lc, files, c), c.appID, text);
    var existing := LedgerOf(lc, files, c.appID);
    if c.appID in files {
      RevisedExtends(existing.value, c.appID, c.update);
    }
    RevisedIsHealthy(existing, c.appID, c.update);
  }

  /** The same over a whole log. */
  lemma {:induction false} ReplayKeepsHistory(lc: Codec, files: Files, log: seq<Commit>)
    requires lc.Faithful()
    requires HealthyFiles(lc, files) && SoundLog(lc, files, log)
    ensures HealthyFiles(lc, Replay(lc, files, log)) && files.Keys <= Replay(lc, files, log).Keys
    ensures forall a :: a in files ==> Extends(LedgerOf(lc, files, a).value,
                                               LedgerOf(lc, Replay(lc, files, log), a).value)
  {
    if log != [] {
      var before := Replay(lc, files, log[..|log| - 1]);
      var c := log[|log| - 1];
      ReplayKeepsHistory(lc, files, log[..|log| - 1]);
      CommitKeepsHistory(lc, before, c);
      forall a | a in files
        ensures Extends(LedgerOf(lc, files, a).value, LedgerOf(lc, Replay(lc, files, log), a).value)
      {
        if a == c.appID {
          ExtendsTransitive(LedgerOf(lc, files, a).value, LedgerOf(lc, before, a).value,
                            LedgerOf(lc, Replay(lc, files, log), a).value);
        }
      }
    }
  }

  /** A log replays in two parts. */
  lemma {:induction false} ReplayAppend(lc: Codec, files: Files, a: seq<Commit>, b: seq<Commit>)
    ensures Replay(lc, files, a + b) == Replay(lc, Replay(lc, files, a), b)
    ensures SoundLog(lc, files, a + b) ==> SoundLog(lc, files, a) && SoundLog(lc, Replay(lc, files, a), b)
  {
    if b == [] {
      assert a + b == a;
    } else {
      var init := b[..|b| - 1];
      ReplayAppend(lc, files, a, init);
      assert (a + b)[..|a + b| - 1] == a + init;
      assert (a + b)[|a + b| - 1] == b[|b| - 1];
    }
  }
}
