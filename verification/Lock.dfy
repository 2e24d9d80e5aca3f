/** Runs under the single-concurrency lock: a bot starts only when no other is under way. Bots may
    still be cut off, and writes may still be refused for no reason. */
module Lock {
  import opened Wrappers
  import opened Ledger
  import opened Updates
  import opened Blobs
  import opened Protocol
  import opened History
  import Ownership

  predicate Idle(s: State) {
    forall b :: b in s.bots ==> !UnderWay(s.bots[b].phase)
  }

  predicate StartsBot(s: State, a: Action) {
    a.Get? && a.bot in s.bots && s.bots[a.bot].phase.Start?
  }

  /** Every bot of the run starts with no other under way. */
  predicate Serial(lc: Codec, s: State, acts: seq<Action>) {
    acts == [] ||
    (var init := acts[..|acts| - 1];
     Serial(lc, s, init) &&
     (StartsBot(Run(lc, s, init), acts[|acts| - 1]) ==> Idle(Run(lc, s, init))))
  }

  /** At most one bot is under way, nothing has been committed since its first load, and the same
      held for every commit when it was made. */
  ghost predicate OneAtATime(s: State) {
    && (forall x, y :: x in s.bots && y in s.bots && UnderWay(s.bots[x].phase) && UnderWay(s.bots[y].phase) ==> x == y)
    && (forall x :: x in s.bots && UnderWay(s.bots[x].phase) ==> s.bots[x].first == |s.log|)
    && (forall k :: 0 <= k < |s.log| ==> AtFirst(s, k))
  }

  predicate AtFirst(s: State, k: nat)
    requires k < |s.log|
  {
    s.log[k].bot in s.bots && s.bots[s.log[k].bot].phase == Done(Committed) && s.bots[s.log[k].bot].first == k
  }

  lemma MoveOneAtATime(s: State, b: nat, moved: Bot)
    requires OneAtATime(s) && b in s.bots && s.bots[b].phase != Done(Committed)
    requires UnderWay(moved.phase) ==> moved.first == |s.log| && (UnderWay(s.bots[b].phase) || Idle(s))
    ensures OneAtATime(WithPhase(s, b, moved))
  {
    var t := WithPhase(s, b, moved);
    forall k | 0 <= k < |t.log|
      ensures AtFirst(t, k)
    {
      assert AtFirst(s, k);
    }
  }

  lemma CommitOneAtATime(s: State, b: nat, text: string)
    requires OneAtATime(s) && b in s.bots && s.bots[b].phase.Holding?
    ensures OneAtATime(AfterCommit(s, b, text))
  {
    var t := AfterCommit(s, b, text);
    forall k | 0 <= k < |t.log|
      ensures AtFirst(t, k)
    {
      assert k < |s.log| ==> AtFirst(s, k);
    }
  }

  lemma LoadOneAtATime(lc: Codec, s: State, b: nat)
    requires OneAtATime(s) && b in s.bots && (s.bots[b].phase.Start? ==> Idle(s))
    ensures s.bots[b].phase.Start? ==> OneAtATime(WithPhase(s, b, FirstLoad(lc, s, s.bots[b])))
    ensures s.bots[b].phase.Reloading? ==> OneAtATime(WithPhase(s, b, Reload(lc, s, s.bots[b])))
  {
    if s.bots[b].phase.Start? {
      MoveOneAtATime(s, b, FirstLoad(lc, s, s.bots[b]));
    } else if s.bots[b].phase.Reloading? {
      MoveOneAtATime(s, b, Reload(lc, s, s.bots[b]));
    }
  }

  lemma AttemptOneAtATime(s: State, b: nat, refused: bool, text: Option<string>)
    requires OneAtATime(s) && b in s.bots && s.bots[b].phase.Holding?
    ensures OneAtATime(Attempt(s, b, refused, text))
  {
    var bot := s.bots[b];
    if text.None? {
      MoveOneAtATime(s, b, bot.(phase := Done(Vanished)));
    } else if refused || !Accepts(BlobOf(s.blobs, bot.job.appID), bot.phase.sha) {
      MoveOneAtATime(s, b, bot.(phase := Reloading(bot.phase.update, bot.phase.conflicts + 1), tried := |s.log|));
    } else {
      CommitOneAtATime(s, b, text.value);
    }
  }

  lemma StepOneAtATime(lc: Codec, s: State, a: Action)
    requires OneAtATime(s) && (StartsBot(s, a) ==> Idle(s))
    ensures OneAtATime(Step(lc, s, a))
  {
    if a.bot in s.bots {
      match a
      case Get(b) => LoadOneAtATime(lc, s, b);
      case Put(b, refused) =>
        if s.bots[b].phase.Holding? {
          AttemptOneAtATime(s, b, refused, Revised(lc, s.bots[b]));
        }
      case Fault(b) =>
        if !s.bots[b].phase.Done? {
          MoveOneAtATime(s, b, s.bots[b].(phase := Done(Faulted)));
        }
    }
  }

  lemma {:induction false} SerialRun(lc: Codec, s: State, acts: seq<Action>)
    requires Initial(s) && Serial(lc, s, acts)
    ensures OneAtATime(Run(lc, s, acts))
  {
    if acts != [] {
      SerialRun(lc, s, acts[..|acts| - 1]);
      StepOneAtATime(lc, Run(lc, s, acts[..|acts| - 1]), acts[|acts| - 1]);
    }
  }

  // ---- what the lock buys ----

  /** Under the lock a commit lands on the ledger its bot decided on. */
  lemma SerialCommit(lc: Codec, s: State, acts: seq<Action>, k: nat)
    requires Initial(s) && Serial(lc, s, acts) && k < |Run(lc, s, acts).log|
    ensures var t := Run(lc, s, acts);
            && t.log[k].bot in t.bots
            && t.bots[t.log[k].bot].first == k
            && t.bots[t.log[k].bot].job.appID == t.log[k].appID
            && Begin(t.bots[t.log[k].bot].job, LedgerAt(lc, s.Files(), t.log, k, t.log[k].appID)) == Go(t.log[k].update)
  {
    SerialRun(lc, s, acts);
    var t := Run(lc, s, acts);
    assert AtFirst(t, k);
    RunInv(lc, s, acts);
    var first := JobOfCommit(lc, s.Files(), t, k);
  }

  /** First come, first served: in every serialised run, each certificate that a bot has recorded
      was requested for the repo that owns the ledger, and its bot committed exactly once. */
  lemma OwnerOnlyUnderLock(lc: Codec, s: State, acts: seq<Action>, b: nat)
    requires GoodStart(lc, s) && Serial(lc, s, acts)
    requires b in s.bots && s.bots[b].job.Issue?
    requires b in Run(lc, s, acts).bots && Run(lc, s, acts).bots[b].phase == Done(Committed)
    ensures var end := LedgerOf(lc, Run(lc, s, acts).Files(), s.bots[b].job.appID);
            && end.Some? && end.value.owner.repo == s.bots[b].job.repo && HasEntry(end.value, s.bots[b].job.entry)
    ensures CommitsBy(Run(lc, s, acts).log, b) == 1
  {
    var t := Run(lc, s, acts);
    RefinesSerialLog(lc, s, acts);
    RunKeepsJobs(lc, s, acts);
    assert acts[..|acts|] == acts;
    SuccessIsPermanent(lc, s, acts, |acts|, b);
    var k := CommitOf(t.log, b);
    SerialCommit(lc, s, acts, k);
    RunIsSound(lc, s, acts);
    assert t.bots[b].first == k;
    assert !Ownership.ClaimedMeanwhile(lc, s.Files(), t, k);
    Ownership.OwnedIffNotClaimedMeanwhile(lc, s.Files(), t, k);
    Ownership.LogHistory(lc, s.Files(), t.log, k + 1, |t.log|);
    LedgerNow(lc, s.Files(), t, t.log[k].appID);
  }

  /** A self-service revocation never overwrites an earlier revocation under the lock. */
  lemma SelfServiceFlipsActive(lc: Codec, s: State, acts: seq<Action>, k: nat)
    requires Initial(s) && Serial(lc, s, acts) && k < |Run(lc, s, acts).log|
    requires Run(lc, s, acts).log[k].bot in Run(lc, s, acts).bots
    requires Run(lc, s, acts).bots[Run(lc, s, acts).log[k].bot].job.SelfRevoke?
    ensures var c := Run(lc, s, acts).log[k];
            var l := LedgerAt(lc, s.Files(), Run(lc, s, acts).log, k, c.appID);
            && c.update.Flip? && l.Some?
            && FindIn(l.value.Certs(), c.update.target) >= 0
            && !l.value.Certs()[FindIn(l.value.Certs(), c.update.target)].Revoked()
  {
    SerialCommit(lc, s, acts, k);
  }

  lemma SelfServiceCommitOf(lc: Codec, s: State, acts: seq<Action>, b: nat) returns (i: nat)
    requires GoodStart(lc, s) && Serial(lc, s, acts)
    requires b in s.bots && s.bots[b].job.SelfRevoke? && CommitsBy(Run(lc, s, acts).log, b) > 0
    ensures i < |Run(lc, s, acts).log| && Run(lc, s, acts).log[i].bot == b
    ensures b in Run(lc, s, acts).bots && Run(lc, s, acts).bots[b].job == s.bots[b].job
    ensures Run(lc, s, acts).log[i].appID == s.bots[b].job.appID
    ensures Run(lc, s, acts).log[i].update.Flip?
    ensures Run(lc, s, acts).log[i].update.target == ByFingerprint(s.bots[b].job.fingerprint)
  {
    RunKeepsJobs(lc, s, acts);
    i := CommitOf(Run(lc, s, acts).log, b);
    SerialCommit(lc, s, acts, i);
  }

  /** However often a self-service revocation is polled under the lock, it changes the ledger at
      most once. */
  lemma OneSelfServiceCommit(lc: Codec, s: State, acts: seq<Action>, b: nat, c: nat)
    requires GoodStart(lc, s) && Serial(lc, s, acts)
    requires b in s.bots && c in s.bots && b != c && s.bots[b].job == s.bots[c].job && s.bots[b].job.SelfRevoke?
    ensures var log := Run(lc, s, acts).log; CommitsBy(log, b) + CommitsBy(log, c) <= 1
  {
    var t := Run(lc, s, acts);
    RefinesSerialLog(lc, s, acts);
    RunKeepsJobs(lc, s, acts);
    RunIsSound(lc, s, acts);
    if CommitsBy(t.log, b) > 0 && CommitsBy(t.log, c) > 0 {
      var i := SelfServiceCommitOf(lc, s, acts, b);
      var j := SelfServiceCommitOf(lc, s, acts, c);
      NotBoth(lc, s, acts, i, j);
      assert false;
    }
  }

  lemma NotBoth(lc: Codec, s: State, acts: seq<Action>, i: nat, j: nat)
    requires GoodStart(lc, s) && Serial(lc, s, acts) && SoundLog(lc, s.Files(), Run(lc, s, acts).log)
    requires i < |Run(lc, s, acts).log| && j < |Run(lc, s, acts).log| && i != j
    requires var t := Run(lc, s, acts);
             forall k :: k == i || k == j ==>
               t.log[k].bot in t.bots && t.bots[t.log[k].bot].job.SelfRevoke? && t.log[k].update.Flip?
    ensures var log := Run(lc, s, acts).log;
            log[i].appID != log[j].appID || log[i].update.target != log[j].update.target
  {
    if Run(lc, s, acts).log[i].appID == Run(lc, s, acts).log[j].appID {
      if i < j {
        NoSecondFlip(lc, s, acts, i, j);
      } else {
        NoSecondFlip(lc, s, acts, j, i);
      }
    }
  }

  lemma NoSecondFlip(lc: Codec, s: State, acts: seq<Action>, i: nat, j: nat)
    requires GoodStart(lc, s) && Serial(lc, s, acts)
    requires i < j < |Run(lc, s, acts).log|
    requires SoundLog(lc, s.Files(), Run(lc, s, acts).log)
    requires var t := Run(lc, s, acts);
             && t.log[j].bot in t.bots && t.bots[t.log[j].bot].job.SelfRevoke?
             && t.log[i].appID == t.log[j].appID && t.log[i].update.Flip?
    ensures Run(lc, s, acts).log[j].update.Flip?
    ensures Run(lc, s, acts).log[i].update.target != Run(lc, s, acts).log[j].update.target
  {
    var log := Run(lc, s, acts).log;
    SelfServiceFlipsActive(lc, s, acts, j);
    RecordedBetween(lc, s.Files(), log, i, j);
  }

  lemma RecordedBetween(lc: Codec, files: Files, log: seq<Commit>, k: nat, n: nat)
    requires lc.Faithful() && HealthyFiles(lc, files) && SoundLog(lc, files, log) && k < n <= |log|
    ensures LedgerAt(lc, files, log, n, log[k].appID).Some?
    ensures Recorded(LedgerAt(lc, files, log, n, log[k].appID).value, log[k].update)
  {
    PrefixSound(lc, files, log, n);
    RecordedAt(lc, files, log[..n], k);
    assert log[..n][..n] == log[..n];
  }
}
