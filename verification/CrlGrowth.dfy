/** The revocation list over runs of the ledger protocol. */
module CrlGrowth {
  import opened Wrappers
  import opened Ledger
  import opened Updates
  import opened Protocol
  import opened History
  import opened FarDates
  import opened FarHistory
  import Crl
  import Timestamp

  /** `ledgers` is what a pass over the ledger directory yields, in any order. */
  ghost predicate ReadFrom(lc: Codec, files: Files, ledgers: seq<Ledger>) {
    && (forall a :: a in files ==> LedgerOf(lc, files, a).Some? && LedgerOf(lc, files, a).value in ledgers)
    && (forall l :: l in ledgers ==> exists a :: a in files && LedgerOf(lc, files, a) == Some(l))
  }

  lemma HealthyIsListable(c: Certificate)
    requires HealthyCert(c)
    ensures c.Revoked() ==> Crl.OnList(c) && c.notBefore <= c.revokedFrom.value
  {}

  lemma HealthyLedgerIsListable(l: Ledger)
    requires Healthy(l)
    ensures Crl.AllListable(l.Certs())
  {
    forall i | 0 <= i < |l.Certs()| && l.Certs()[i].Revoked()
      ensures Crl.Listable(l.Certs()[i])
    {
      HealthyIsListable(l.Certs()[i]);
    }
  }

  /** A pass over the directory yields healthy ledgers, whatever dates were written. */
  lemma ReadIsHealthy(lc: Codec, s: State, acts: seq<Action>, ledgers: seq<Ledger>)
    requires AnyStart(lc, s) && ReadFrom(lc, Run(lc, s, acts).Files(), ledgers)
    ensures forall l :: l in ledgers ==> Healthy(l)
  {
    var t := Run(lc, s, acts);
    forall l | l in ledgers
      ensures Healthy(l)
    {
      var a :| a in t.Files() && LedgerOf(lc, t.Files(), a) == Some(l);
      ReadableIffNear(lc, s, acts, a);
    }
  }

  /** After any interleaving, once the ledgers are read, building the list cannot fail. */
  lemma BuildNeverFails(lc: Codec, s: State, acts: seq<Action>, ledgers: seq<Ledger>)
    requires AnyStart(lc, s) && ReadFrom(lc, Run(lc, s, acts).Files(), ledgers)
    ensures Crl.Buildable(ledgers)
  {
    ReadIsHealthy(lc, s, acts, ledgers);
    forall p | 0 <= p < |ledgers|
      ensures Crl.AllListable(ledgers[p].Certs())
    {
      assert ledgers[p] in ledgers;
      HealthyLedgerIsListable(ledgers[p]);
    }
  }

  ghost predicate NothingSpoilt(log: seq<Commit>) {
    forall a :: !Spoilt(log, a)
  }

  lemma ReadAll(lc: Codec, files: Files) returns (ledgers: seq<Ledger>)
    requires forall a :: a in files ==> LedgerOf(lc, files, a).Some?
    ensures ReadFrom(lc, files, ledgers)
    decreases |files|
  {
    if files == map[] {
      ledgers := [];
    } else {
      var a :| a in files;
      var rest := files - {a};
      assert forall x :: x in rest ==> x in files && LedgerOf(lc, rest, x) == LedgerOf(lc, files, x);
      assert rest.Keys == files.Keys - {a};
      var some := ReadAll(lc, rest);
      ledgers := some + [LedgerOf(lc, files, a).value];
      forall l | l in ledgers
        ensures exists x :: x in files && LedgerOf(lc, files, x) == Some(l)
      {
        if l in some {
          var x :| x in rest && LedgerOf(lc, rest, x) == Some(l);
          assert x in files && LedgerOf(lc, files, x) == Some(l);
        }
      }
    }
  }

  /** There is a list to build after a run if and only if no ledger has been spoilt: one unreadable
      file stops the pass over the directory. */
  lemma ListIffNothingSpoilt(lc: Codec, s: State, acts: seq<Action>)
    requires AnyStart(lc, s)
    ensures (exists ledgers :: ReadFrom(lc, Run(lc, s, acts).Files(), ledgers) && Crl.Buildable(ledgers))
            <==> NothingSpoilt(Run(lc, s, acts).log)
  {
    var t := Run(lc, s, acts);
    forall a
      ensures a in t.Files() && LedgerOf(lc, t.Files(), a).None? <==> Spoilt(t.log, a)
    {
      ReadableIffNear(lc, s, acts, a);
    }
    if NothingSpoilt(t.log) {
      var ledgers := ReadAll(lc, t.Files());
      BuildNeverFails(lc, s, acts, ledgers);
    } else {
      var a :| Spoilt(t.log, a);
      forall ledgers
        ensures !ReadFrom(lc, t.Files(), ledgers)
      {
        UnreadableStops(lc, t.Files(), a, ledgers);
      }
    }
  }

  lemma UnreadableStops(lc: Codec, files: Files, a: string, ledgers: seq<Ledger>)
    requires a in files && LedgerOf(lc, files, a).None?
    ensures !ReadFrom(lc, files, ledgers)
  {}

  lemma ListedLater(earlier: Ledger, later: Ledger, e: Crl.Entry) returns (e': Crl.Entry)
    requires Healthy(later) && Extends(earlier, later) && Crl.InLedger(earlier, e)
    ensures Crl.InLedger(later, e') && e'.serial == e.serial
  {
    var i :| 0 <= i < |earlier.Certs()| && Crl.ShowsAs(earlier.Certs()[i], e);
    assert later.Certs()[i].SameIdentity(earlier.Certs()[i]);
    HealthyIsListable(later.Certs()[i]);
    e' := Crl.EntryOf(later.Certs()[i]);
    assert Crl.ShowsAs(later.Certs()[i], e');
  }

  /** A serial that is once on the list is on every list built at any later point of any
      interleaving. */
  lemma SerialsOnlyGrow(lc: Codec, s: State, acts: seq<Action>, n: nat,
                        earlier: seq<Ledger>, later: seq<Ledger>,
                        list: seq<Crl.Entry>, laterList: seq<Crl.Entry>, e: Crl.Entry)
    requires AnyStart(lc, s) && n <= |acts|
    requires ReadFrom(lc, Run(lc, s, acts[..n]).Files(), earlier) && ReadFrom(lc, Run(lc, s, acts).Files(), later)
    requires Crl.Arranged(list, Crl.AllListed(earlier)) && Crl.Arranged(laterList, Crl.AllListed(later))
    requires e in list
    ensures exists e' | e' in laterList :: e'.serial == e.serial
  {
    Crl.OnListIffRevoked(earlier, list, e);
    var l :| l in earlier && Crl.InLedger(l, e);
    var a :| a in Run(lc, s, acts[..n]).Files() && LedgerOf(lc, Run(lc, s, acts[..n]).Files(), a) == Some(l);
    HistoryUnlessSpoilt(lc, s, acts, n, a);
    ReadableIffNear(lc, s, acts, a);
    var l' := LedgerOf(lc, Run(lc, s, acts).Files(), a).value;
    assert a in Run(lc, s, acts).Files();
    var e' := ListedLater(l, l', e);
    assert Crl.OnLedgers(later, e');
    Crl.OnListIffRevoked(later, laterList, e');
  }

  lemma LedgerInFiles(lc: Codec, files: Files, a: string)
    requires HealthyFiles(lc, files) && LedgerOf(lc, files, a).Some?
    ensures a in files && Healthy(LedgerOf(lc, files, a).value)
  {}

  /** Every date on the list is that of a revoked certificate with this serial, and no earlier
      than its notBefore. */
  lemma DatesFromNotBefore(lc: Codec, s: State, acts: seq<Action>, ledgers: seq<Ledger>, list: seq<Crl.Entry>,
                           e: Crl.Entry)
    requires AnyStart(lc, s) && ReadFrom(lc, Run(lc, s, acts).Files(), ledgers)
    requires Crl.Arranged(list, Crl.AllListed(ledgers)) && e in list
    ensures exists l, i :: l in ledgers && 0 <= i < |l.Certs()|
              && Crl.ShowsAs(l.Certs()[i], e) && l.Certs()[i].notBefore <= e.revocationTime
  {
    ReadIsHealthy(lc, s, acts, ledgers);
    Crl.OnListIffRevoked(ledgers, list, e);
    var l :| l in ledgers && Crl.InLedger(l, e);
    var i :| 0 <= i < |l.Certs()| && Crl.ShowsAs(l.Certs()[i], e);
    HealthyIsListable(l.Certs()[i]);
  }

  // ---- when a date changes ----

  lemma CertificateAfterCommit(before: Option<Ledger>, after: Ledger, u: Update, i: nat)
    requires OneEntryChanged(before, after, u) && before.Some? && i < |before.value.Certs()|
    ensures i < |after.Certs()|
    ensures after.Certs()[i] != before.value.Certs()[i] ==>
              u.Flip? && u.target.Matches(after.Certs()[i]) &&
                  after.Certs()[i].revokedFrom == Some(Timestamp.Truncated(u.revocation.revokedFrom))
  {
    if u.Flip? {
      var k :| FlippedAt(before.value.Certs(), after.Certs(), k, u.target, u.revocation);
    }
  }

  /** The step a revoking bot takes when it flips this certificate. */
  ghost predicate RevocationOf(t: State, t': State, appID: string, c: Certificate) {
    exists b: nat, target, r ::
      && t'.log == t.log + [Commit(b, appID, Flip(target, r))]
      && target.Matches(c) && c.revokedFrom == Some(Timestamp.Truncated(r.revokedFrom))
      && b in t'.bots && !t'.bots[b].job.Issue?
  }

  lemma FlipsAreRevocations(lc: Codec, files: Files, t: State, k: nat)
    requires Inv(lc, files, t) && k < |t.log| && t.log[k].update.Flip?
    ensures t.log[k].bot in t.bots && !t.bots[t.log[k].bot].job.Issue?
  {
    var first := JobOfCommit(lc, files, t, k);
  }

  /** The step commits a far date to this ledger. */
  ghost predicate SpoiltBy(t: State, t': State, appID: string) {
    exists c :: t'.log == t.log + [c] && c.appID == appID && FarUpdate(c.update)
  }

  /** A recorded certificate, and so its date on the list, changes only in the step in which a
      revoking bot commits a revocation of it; with a far date, the ledger is lost in that step. */
  lemma ChangesOnlyByRevocation(lc: Codec, s: State, acts: seq<Action>, a: Action, appID: string, i: nat)
    requires AnyStart(lc, s)
    requires var l := LedgerOf(lc, Run(lc, s, acts).Files(), appID); l.Some? && i < |l.value.Certs()|
    ensures var t := Run(lc, s, acts);
            var t' := Step(lc, t, a);
            var l, l' := LedgerOf(lc, t.Files(), appID), LedgerOf(lc, t'.Files(), appID);
            if SpoiltBy(t, t', appID) then l'.None?
            else
              && l'.Some? && i < |l'.value.Certs()|
              && (l'.value.Certs()[i] == l.value.Certs()[i] || RevocationOf(t, t', appID, l'.value.Certs()[i]))
  {
    var t := Run(lc, s, acts);
    var t' := Step(lc, t, a);
    StepUnlessSpoilt(lc, s, acts, a);
    RunOneMore(lc, s, acts, a);
    RunInv(lc, s, acts + [a]);
    if t'.log == t.log && t'.Files() == t.Files() {
      assert forall c :: t.log + [c] != t.log;
    } else {
      var c :| CommitLeft(lc, t, t', c);
      assert t'.log[|t.log|] == c;
      StepChange(lc, s.Files(), t, t', c, appID, i);
    }
  }

  lemma StepChange(lc: Codec, files: Files, t: State, t': State, c: Commit, appID: string, i: nat)
    requires CommitLeft(lc, t, t', c) && Inv(lc, files, t')
    requires var l := LedgerOf(lc, t.Files(), appID); l.Some? && i < |l.value.Certs()|
    ensures var l, l' := LedgerOf(lc, t.Files(), appID), LedgerOf(lc, t'.Files(), appID);
            if SpoiltBy(t, t', appID) then l'.None?
            else
              && l'.Some? && i < |l'.value.Certs()|
              && (l'.value.Certs()[i] == l.value.Certs()[i] || RevocationOf(t, t', appID, l'.value.Certs()[i]))
  {
    assert t'.log[|t.log|] == c;
    if c.appID == appID && !FarUpdate(c.update) {
      CertificateAfterCommit(LedgerOf(lc, t.Files(), appID), LedgerOf(lc, t'.Files(), appID).value, c.update, i);
      if c.update.Flip? {
        FlipsAreRevocations(lc, files, t', |t.log|);
        assert c == Commit(c.bot, appID, Flip(c.update.target, c.update.revocation));
      }
    }
  }
}
