/** The bounded load / modify / compare-and-swap / reload loops of internal/enroll/steps.go and
    internal/revoke/steps.go, on ledger objects that they change in place. */
module Steps {
  import opened Wrappers
  import opened Ledger
  import opened Updates
  import opened Blobs
  import opened Store
  import Protocol

  /** *ledger.Ledger: a ledger the bot holds in memory. */
  class LedgerObject {
    var appID: string
    var owner: Owner
    var claimedAt: int
    var reserved: bool
    var certificates: Option<seq<Certificate>>

    constructor (l: Ledger)
      ensures Value() == l
    {
      appID, owner, claimedAt, reserved, certificates := l.appID, l.owner, l.claimedAt, l.reserved, l.certificates;
    }

    function Value(): Ledger
      reads this
    {
      Ledger(appID, owner, claimedAt, reserved, certificates)
    }

    function Certs(): seq<Certificate>
      reads this
    {
      Value().Certs()
    }

    /** `l.Certificates = append(l.Certificates, entry)` */
    method Append(entry: Certificate)
      modifies this
      ensures Value() == old(Value()).(certificates := Some(old(Certs()) + [entry]))
    {
      certificates := Some(Certs() + [entry]);
    }

    /** The revocation fields of one certificate, written one by one through a pointer. */
    method Flip(idx: nat, rev: Revocation)
      requires idx < |Certs()|
      modifies this
      ensures Value() == old(Value()).(certificates := Some(old(Certs())[idx := RevokedCert(old(Certs())[idx], rev)]))
    {
      var cs := Certs();
      cs := cs[idx := cs[idx].(status := STATUS_REVOKED)];
      cs := cs[idx := cs[idx].(revokedFrom := Some(rev.revokedFrom))];
      cs := cs[idx := cs[idx].(reason := rev.reason)];
      cs := cs[idx := cs[idx].(actor := rev.actor)];
      assert cs == Certs()[idx := RevokedCert(Certs()[idx], rev)];
      certificates := Some(cs);
    }
  }

  ghost function Held(l: LedgerObject?): Option<Ledger>
    reads l
  {
    if l == null then None else Some(l.Value())
  }

  /** findByFingerprint and findBySerial: the scan for the first match. */
  method Find(l: LedgerObject?, target: Target) returns (idx: int)
    ensures l == null ==> idx == -1
    ensures l != null ==> idx == FindIn(l.Certs(), target)
  {
    if l == null {
      return -1;
    }
    var cs := l.Certs();
    for i := 0 to |cs|
      invariant forall k :: 0 <= k < i ==> !target.Matches(cs[k])
    {
      if target.Matches(cs[i]) {
        FirstMatch(cs, target, i);
        return i;
      }
    }
    return -1;
  }

  lemma FirstMatch(cs: seq<Certificate>, target: Target, i: nat)
    requires i < |cs| && target.Matches(cs[i]) && forall k :: 0 <= k < i ==> !target.Matches(cs[k])
    ensures FindIn(cs, target) == i
  {}

  /** loadLedger: a failed read or an unreadable file is an error; no file is no ledger. */
  method LoadLedger(lc: Codec, gh: Client, appID: string) returns (ok: bool, l: LedgerObject?, sha: string)
    requires gh.Valid()
    modifies gh`ledgers, gh`nextSHA, gh`files, gh`failNextPutWithConflict, gh`script, gh`faults,
             gh`writes
    ensures gh.Valid() && OthersOnly(old(gh.Snap()), gh.Snap())
    ensures ok ==> Holds(lc, gh.ledgers, gh.nextSHA, appID, Held(l), sha)
    ensures ok ==> Load(lc, TextOf(Texts(gh.ledgers), appID)) == Some(Held(l)) && sha == ShaOf(gh.ledgers, appID)
    ensures l != null ==> fresh(l)
    ensures gh.faults == old(gh.faults) ==> (ok <==> Load(lc, TextOf(Texts(gh.ledgers), appID)).Some?)
    ensures gh.faults >= old(gh.faults) && (gh.faults > old(gh.faults) ==> !ok)
    ensures old(gh.Quiet()) ==> gh.Look() == old(gh.Look())
  {
    var got := gh.GetLedger(appID);
    match got
    case GetFailed => return false, null, "";
    case NotFound => return true, null, "";
    case Found(content, current) =>
      var parsed := lc.parse(content);
      if parsed.None? {
        return false, null, "";
      }
      l := new LedgerObject(parsed.value);
      return true, l, current;
  }

  datatype CommitResult = Committed | Failed | Vanished | Conflicted

  /** What a commit loop promises: success is one atomic update of the file as it was at the write,
      after any number of other writes; anything else leaves no write of ours behind. */
  ghost predicate CommitSpec(lc: Codec, before: Snapshot, after: Snapshot, appID: string, u: Update, r: CommitResult) {
    if r == Committed then CommittedOnce(lc, before, after, appID, u) else OthersOnly(before, after)
  }

  predicate Finds(l: Option<Ledger>, t: Target) {
    l.Some? && FindIn(l.value.Certs(), t) >= 0
  }

  function FoundSerial(l: Option<Ledger>, t: Target): string {
    if Finds(l, t) then l.value.Certs()[FindIn(l.value.Certs(), t)].serial else ""
  }

  /** The write of a revised held ledger under its SHA is the atomic update of the current file. */
  lemma AcceptedIsAtomic(lc: Codec, before: Snapshot, after: Snapshot, appID: string, u: Update, held: Option<Ledger>,
                         sha: string)
    requires Holds(lc, before.blobs, before.minted, appID, held, sha) && Accepts(BlobOf(before.blobs, appID), sha)
    requires Revise(held, appID, u).Some?
    requires Wrote(before, after, appID, lc.marshal(Revise(held, appID, u).value))
    ensures CommittedOnce(lc, before, after, appID, u)
  {
    var text := lc.marshal(Revise(held, appID, u).value);
    var ws := after.writes[|before.writes|..];
    assert ws == [Write(true, appID, text)];
    assert ws[..|ws| - 1] == [];
    TextsUpdate(before.blobs, appID, Blob(text, MintedName(before.minted + 1)));
  }

  /** One write of a revised copy, and what it means. */
  method TryWrite(lc: Codec, gh: Client, appID: string, ghost held: Option<Ledger>, ghost u: Update, text: string,
                  sha: string, ghost start: Snapshot)
    returns (r: PutResult)
    requires gh.Valid() && Holds(lc, gh.ledgers, gh.nextSHA, appID, held, sha) && OthersOnly(start, gh.Snap())
    requires Revise(held, appID, u).Some? && text == lc.marshal(Revise(held, appID, u).value)
    modifies gh`ledgers, gh`nextSHA, gh`files, gh`failNextPutWithConflict, gh`script, gh`faults,
             gh`writes, gh`puts
    ensures gh.Valid() && Tried(lc, start, old(gh.Look()), gh.Look(), appID, u, sha, r)
  {
    ghost var now := gh.Snap();
    ghost var before;
    r, before := gh.PutLedger(appID, text, sha);
    HoldsStays(lc, now.blobs, now.minted, before.blobs, before.minted, appID, held, sha);
    OthersOnlyTransitive(start, now, before);
    if r == Stored {
      AcceptedIsAtomic(lc, before, gh.Snap(), appID, u, held, sha);
      OthersThenCommit(lc, start, before, gh.Snap(), appID, u);
    }
  }

  /** One attempt to write, by a caller who has watched since `start`. */
  ghost predicate Tried(lc: Codec, start: Snapshot, a: View, b: View, appID: string, u: Update, sha: string,
                        put: PutResult) {
    && (if put == Stored then CommittedOnce(lc, start, b.snap, appID, u) else OthersOnly(start, b.snap))
    && b.puts == a.puts + 1 && b.faults == a.faults + (if put == PutFailed then 1 else 0)
    && (a.quiet ==> PutAlone(a, b, appID, sha, put))
  }

  /** One attempt of the issuer: append in place, to a new ledger if there is none, and write. */
  method AppendAndWrite(lc: Codec, gh: Client, appID: string, repo: string, now: int, entry: Certificate,
                        existing: LedgerObject?, prevSHA: string, ghost start: Snapshot)
    returns (put: PutResult)
    requires gh.Valid() && Holds(lc, gh.ledgers, gh.nextSHA, appID, Held(existing), prevSHA)
    requires OthersOnly(start, gh.Snap())
    modifies gh`ledgers, gh`nextSHA, gh`files, gh`failNextPutWithConflict, gh`script, gh`faults,
             gh`writes, gh`puts, existing
    ensures gh.Valid() && Tried(lc, start, old(gh.Look()), gh.Look(), appID, Append(repo, now, entry), prevSHA, put)
  {
    var l: LedgerObject;
    if existing == null {
      l := new LedgerObject(Ledger(appID, Owner(ORIGIN_GITHUB, repo), now, false, None));
    } else {
      l := existing;
    }
    l.Append(entry);
    put := TryWrite(lc, gh, appID, old(Held(existing)), Append(repo, now, entry), lc.marshal(l.Value()), prevSHA,
                    start);
  }

  /** One attempt of a revoker: find the target, flip it in place, and write. */
  method FindFlipAndWrite(lc: Codec, gh: Client, appID: string, target: Target, rev: Revocation, l: LedgerObject?,
                          prevSHA: string, ghost start: Snapshot)
    returns (put: Option<PutResult>, serial: string)
    requires gh.Valid() && Holds(lc, gh.ledgers, gh.nextSHA, appID, Held(l), prevSHA)
    requires OthersOnly(start, gh.Snap())
    modifies gh`ledgers, gh`nextSHA, gh`files, gh`failNextPutWithConflict, gh`script, gh`faults,
             gh`writes, gh`puts, l
    ensures gh.Valid()
    ensures if put.None? then gh.Look() == old(gh.Look())
            else Tried(lc, start, old(gh.Look()), gh.Look(), appID, Update.Flip(target, rev), prevSHA, put.value)
    ensures put.None? <==> !Finds(old(Held(l)), target)
    ensures put.Some? ==> serial == FoundSerial(old(Held(l)), target)
  {
    var idx := Find(l, target);
    if idx < 0 {
      return None, "";
    }
    l.Flip(idx, rev);
    serial := l.Certs()[idx].serial;
    var r := TryWrite(lc, gh, appID, old(Held(l)), Update.Flip(target, rev), lc.marshal(l.Value()), prevSHA, start);
    put := Some(r);
  }

  /** The reload after a conflict. */
  method Reload(lc: Codec, gh: Client, appID: string, ghost start: Snapshot)
    returns (ok: bool, l: LedgerObject?, sha: string)
    requires gh.Valid() && OthersOnly(start, gh.Snap())
    modifies gh`ledgers, gh`nextSHA, gh`files, gh`failNextPutWithConflict, gh`script, gh`faults,
             gh`writes
    ensures gh.Valid() && Reloaded(lc, start, old(gh.Look()), gh.Look(), appID, ok, Held(l), sha)
    ensures ok ==> Holds(lc, gh.ledgers, gh.nextSHA, appID, Held(l), sha)
    ensures l != null ==> fresh(l)
  {
    ghost var before := gh.Snap();
    ok, l, sha := LoadLedger(lc, gh, appID);
    OthersOnlyTransitive(start, before, gh.Snap());
  }

  ghost predicate Reloaded(lc: Codec, start: Snapshot, a: View, b: View, appID: string, ok: bool, held: Option<Ledger>,
                           sha: string) {
    && OthersOnly(start, b.snap) && b.puts == a.puts
    && (ok ==> b.faults == a.faults && OnDisk(lc, b, appID) == Some(held) && sha == ShaOf(b.snap.blobs, appID))
    && b.faults >= a.faults && (!ok ==> b.faults > a.faults || OnDisk(lc, b, appID).None?)
    && (a.quiet ==> b == a)
  }

  // ---- what the commit loops promise ----

  /** What a load of the ledgers would give. */
  ghost function OnDisk(lc: Codec, v: View, appID: string): Option<Option<Ledger>> {
    Load(lc, TextOf(Texts(v.snap.blobs), appID))
  }

  /** There is something for the update to change. */
  predicate Applies(u: Update, l: Option<Ledger>) {
    u.Flip? ==> Finds(l, u.target)
  }

  /** How often a commit loop tries to write. */
  predicate PutsSpec(tried: int, r: CommitResult) {
    match r
    case Committed => 1 <= tried <= 5
    case Conflicted => tried == 5
    case _ => 0 <= tried <= 5
  }

  /** A commit loop fails when a call failed, or when what it loaded again cannot be read; its target
      has vanished when it is missing from the ledger given, or from the one it loaded last; and it
      gives up on conflicts only. */
  ghost predicate ForCause(lc: Codec, a: View, b: View, appID: string, u: Update, given: Option<Ledger>,
                           r: CommitResult) {
    && (r == Failed ==> b.faults > a.faults || (b.puts > a.puts && OnDisk(lc, b, appID).None?))
    && b.faults >= a.faults && (r != Failed ==> b.faults == a.faults)
    && (r == Vanished && b.puts == a.puts ==> !Applies(u, given))
    && (r == Vanished && b.puts > a.puts ==> OnDisk(lc, b, appID).Some? && !Applies(u, OnDisk(lc, b, appID).value))
    && (r == Conflicted ==> OnDisk(lc, b, appID).Some?)
  }

  /** What a commit loop does with nobody else about: the first try decides unless it meets a conflict;
      then the stored ledger decides, and the second try is the last. */
  ghost predicate Settles(lc: Codec, a: View, b: View, appID: string, u: Update, given: Option<Ledger>, sha: string,
                          r: CommitResult) {
    && b.quiet && b.faults == a.faults
    && (if r == Committed then |b.snap.writes| == |a.snap.writes| + 1 else b.snap == a.snap)
    && if !Applies(u, given) then r == Vanished && b.puts == a.puts
       else if !a.Conflicts(appID, sha) then r == Committed && b.puts == a.puts + 1
       else
         match OnDisk(lc, a, appID)
         case None => r == Failed && b.puts == a.puts + 1
         case Some(current) =>
           if Applies(u, current) then r == Committed && b.puts == a.puts + 2
           else r == Vanished && b.puts == a.puts + 1
  }

  /** Success is one atomic update of the file as it was at the write, after any number of other
      writes; anything else leaves no write of ours behind, and has a cause. */
  ghost predicate LoopSpec(lc: Codec, a: View, b: View, appID: string, u: Update, given: Option<Ledger>, sha: string,
                           r: CommitResult) {
    && CommitSpec(lc, a.snap, b.snap, appID, u, r)
    && PutsSpec(b.puts - a.puts, r)
    && ForCause(lc, a, b, appID, u, given, r)
    && (a.quiet ==> Settles(lc, a, b, appID, u, given, sha, r))
  }

  /** Where a loop stands before a try: what it holds is what it was given, or what it loaded last.
      With nobody else about there has been one conflict at most. */
  ghost predicate Trying(lc: Codec, a: View, b: View, appID: string, u: Update, given: Option<Ledger>, sha0: string,
                         held: Option<Ledger>, sha: string, tries: int) {
    && OthersOnly(a.snap, b.snap) && b.faults == a.faults && b.puts == a.puts + tries
    && (if tries == 0 then held == given && sha == sha0
        else Applies(u, given) && OnDisk(lc, b, appID) == Some(held) && sha == ShaOf(b.snap.blobs, appID))
    && (a.quiet ==> b.quiet && b.snap == a.snap)
    && (a.quiet && tries == 0 ==> b == a)
    && (a.quiet && tries > 0 ==> tries == 1 && a.Conflicts(appID, sha0) && !b.pending)
  }

  lemma StoredEnds(lc: Codec, a: View, b: View, c: View, appID: string, u: Update, given: Option<Ledger>, sha0: string,
                   held: Option<Ledger>, sha: string, tries: int)
    requires Trying(lc, a, b, appID, u, given, sha0, held, sha, tries) && 0 <= tries < Protocol.MAX_RETRIES
    requires Tried(lc, a.snap, b, c, appID, u, sha, Stored) && Applies(u, held)
    ensures LoopSpec(lc, a, c, appID, u, given, sha0, Committed)
    ensures a.quiet ==> (a.Conflicts(appID, sha0) <==> tries == 1)
  {}

  lemma FaultEnds(lc: Codec, a: View, b: View, c: View, appID: string, u: Update, given: Option<Ledger>, sha0: string,
                  held: Option<Ledger>, sha: string, tries: int)
    requires Trying(lc, a, b, appID, u, given, sha0, held, sha, tries) && 0 <= tries < Protocol.MAX_RETRIES
    requires Tried(lc, a.snap, b, c, appID, u, sha, PutFailed)
    ensures LoopSpec(lc, a, c, appID, u, given, sha0, Failed)
  {}

  lemma VanishedEnds(lc: Codec, a: View, b: View, appID: string, u: Update, given: Option<Ledger>, sha0: string,
                     held: Option<Ledger>, sha: string, tries: int)
    requires Trying(lc, a, b, appID, u, given, sha0, held, sha, tries) && 0 <= tries < Protocol.MAX_RETRIES
    requires !Applies(u, held)
    ensures LoopSpec(lc, a, b, appID, u, given, sha0, Vanished)
  {}

  /** A conflict and the load after it: the loop goes on with what is stored now, or fails. */
  lemma GoesOn(lc: Codec, a: View, b: View, c: View, d: View, appID: string, u: Update, given: Option<Ledger>,
               sha0: string, held: Option<Ledger>, sha: string, tries: int, ok: bool, now: Option<Ledger>,
                   nowSHA: string)
    requires Trying(lc, a, b, appID, u, given, sha0, held, sha, tries) && 0 <= tries < Protocol.MAX_RETRIES
    requires Tried(lc, a.snap, b, c, appID, u, sha, Conflict) && Applies(u, held)
    requires Reloaded(lc, a.snap, c, d, appID, ok, now, nowSHA)
    ensures if ok then Trying(lc, a, d, appID, u, given, sha0, now, nowSHA, tries + 1)
            else LoopSpec(lc, a, d, appID, u, given, sha0, Failed)
  {
    CurrentIsAccepted(b.snap.blobs, appID);
  }

  lemma GivesUp(lc: Codec, a: View, b: View, appID: string, u: Update, given: Option<Ledger>, sha0: string,
                held: Option<Ledger>, sha: string)
    requires Trying(lc, a, b, appID, u, given, sha0, held, sha, Protocol.MAX_RETRIES)
    ensures LoopSpec(lc, a, b, appID, u, given, sha0, Conflicted)
  {}

  /** enroll.commitLedger: appends the entry to the ledger it was given, or to a new one claimed for
      the repo, and writes it; after a conflict it loads again and appends again, five times at
      most, without asking again who owns the appId. With nobody else about it commits, though a
      conflict is pending or the SHA it was given is not current. */
  method CommitLedger(lc: Codec, gh: Client, appID: string, repo: string, entry: Certificate,
                      existing0: LedgerObject?, prevSHA0: string)
    returns (r: CommitResult)
    requires gh.Valid() && Holds(lc, gh.ledgers, gh.nextSHA, appID, Held(existing0), prevSHA0)
    modifies gh`ledgers, gh`nextSHA, gh`files, gh`failNextPutWithConflict, gh`script, gh`faults,
             gh`writes, gh`puts, existing0
    ensures gh.Valid() && r != Vanished
    ensures LoopSpec(lc, old(gh.Look()), gh.Look(), appID, Append(repo, gh.clock, entry), old(Held(existing0)),
                     prevSHA0, r)
  {
    ghost var start, given, u := gh.Look(), Held(existing0), Append(repo, gh.clock, entry);
    OthersOnlySelf(start.snap);
    var now := gh.clock;
    var existing, prevSHA := existing0, prevSHA0;
    var attempt := 0;
    while attempt < Protocol.MAX_RETRIES
      invariant gh.Valid() && 0 <= attempt <= Protocol.MAX_RETRIES
      invariant Trying(lc, start, gh.Look(), appID, u, given, prevSHA0, Held(existing), prevSHA, attempt)
      invariant existing == null || existing == existing0 || fresh(existing)
      invariant Holds(lc, gh.ledgers, gh.nextSHA, appID, Held(existing), prevSHA)
    {
      ghost var before, held, sha := gh.Look(), Held(existing), prevSHA;
      var put := AppendAndWrite(lc, gh, appID, repo, now, entry, existing, prevSHA, start.snap);
      if put == Stored {
        StoredEnds(lc, start, before, gh.Look(), appID, u, given, prevSHA0, held, sha, attempt);
        return Committed;
      }
      if put == PutFailed {
        FaultEnds(lc, start, before, gh.Look(), appID, u, given, prevSHA0, held, sha, attempt);
        return Failed;
      }
      ghost var middle := gh.Look();
      var ok;
      ok, existing, prevSHA := Reload(lc, gh, appID, start.snap);
      GoesOn(lc, start, before, middle, gh.Look(), appID, u, given, prevSHA0, held, sha, attempt, ok, Held(existing),
             prevSHA);
      if !ok {
        return Failed;
      }
      attempt := attempt + 1;
    }
    GivesUp(lc, start, gh.Look(), appID, u, given, prevSHA0, Held(existing), prevSHA);
    return Conflicted;
  }

  /** revoke.applyRevocation: finds the target again in every copy it loads and flips it there,
      whatever its status is by then. The serial is that of the certificate flipped. */
  method ApplyRevocation(lc: Codec, gh: Client, appID: string, target: Target, rev: Revocation, l0: LedgerObject?,
                         prevSHA0: string)
    returns (r: CommitResult, serial: string)
    requires gh.Valid() && Holds(lc, gh.ledgers, gh.nextSHA, appID, Held(l0), prevSHA0)
    modifies gh`ledgers, gh`nextSHA, gh`files, gh`failNextPutWithConflict, gh`script, gh`faults,
             gh`writes, gh`puts, l0
    ensures gh.Valid()
    ensures LoopSpec(lc, old(gh.Look()), gh.Look(), appID, Update.Flip(target, rev), old(Held(l0)), prevSHA0, r)
    ensures old(gh.Quiet()) && r == Committed ==>
              serial == FoundSerial(if !old(gh.Look()).Conflicts(appID, prevSHA0) then old(Held(l0))
                                    else OnDisk(lc, old(gh.Look()), appID).value, target)
  {
    ghost var start, given, u := gh.Look(), Held(l0), Update.Flip(target, rev);
    OthersOnlySelf(start.snap);
    var l, prevSHA := l0, prevSHA0;
    var attempt := 0;
    while attempt < Protocol.MAX_RETRIES
      invariant gh.Valid() && 0 <= attempt <= Protocol.MAX_RETRIES
      invariant Trying(lc, start, gh.Look(), appID, u, given, prevSHA0, Held(l), prevSHA, attempt)
      invariant l == null || l == l0 || fresh(l)
      invariant Holds(lc, gh.ledgers, gh.nextSHA, appID, Held(l), prevSHA)
    {
      ghost var before, held, sha := gh.Look(), Held(l), prevSHA;
      var put;
      put, serial := FindFlipAndWrite(lc, gh, appID, target, rev, l, prevSHA, start.snap);
      if put.None? {
        VanishedEnds(lc, start, before, appID, u, given, prevSHA0, held, sha, attempt);
        return Vanished, "";
      }
      if put == Some(Stored) {
        StoredEnds(lc, start, before, gh.Look(), appID, u, given, prevSHA0, held, sha, attempt);
        return Committed, serial;
      }
      if put == Some(PutFailed) {
        FaultEnds(lc, start, before, gh.Look(), appID, u, given, prevSHA0, held, sha, attempt);
        return Failed, "";
      }
      ghost var middle := gh.Look();
      var ok;
      ok, l, prevSHA := Reload(lc, gh, appID, start.snap);
      GoesOn(lc, start, before, middle, gh.Look(), appID, u, given, prevSHA0, held, sha, attempt, ok, Held(l), prevSHA);
      if !ok {
        return Failed, "";
      }
      attempt := attempt + 1;
    }
    GivesUp(lc, start, gh.Look(), appID, u, given, prevSHA0, Held(l), prevSHA);
    return Conflicted, "";
  }

  /** In the terms of the serial log: between `a` and `b` lie other writes and then one commit, on
      the files as they were at that moment. */
  lemma CommitIsApplied(lc: Codec, a: Snapshot, b: Snapshot, appID: string, u: Update, bot: nat) returns (files: Files)
    requires CommittedOnce(lc, a, b, appID, u)
    ensures var ws := b.writes[|a.writes|..];
            && NoOwn(ws[..|ws| - 1]) && files == FilesAfter(Texts(a.blobs), ws[..|ws| - 1])
            && Texts(b.blobs) == Applied(lc, files, Commit(bot, appID, u))
  {
    var ws := b.writes[|a.writes|..];
    files := FilesAfter(Texts(a.blobs), ws[..|ws| - 1]);
    Protocol.AppliedWrites(lc, files, Commit(bot, appID, u), ws[|ws| - 1].text);
  }
}
