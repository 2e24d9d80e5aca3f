/** What every interleaving of bots keeps, as long as no date is far: the history of each ledger only
    extends, each commit changes one entry of one file, and an entry found once is found again after
    every reload. */
module History {
  import opened Wrappers
  import opened Ledger
  import opened Updates
  import opened Protocol
  import AppId
  import Serial
  import Timestamp

  /** What the program around a bot guarantees: a valid appId; a printable and freshly issued entry. */
  predicate ValidJob(job: Job) {
    && AppId.Valid(job.appID)
    && (job.Issue? ==> GoodUpdate(Append(job.repo, job.now, job.entry)))
  }

  /** A privileged revocation from the year 10000 on, in UTC: nothing refuses it, and no ledger with
      that date can be read back. One from before the year 0 is refused, like any before notBefore. */
  predicate FarJob(job: Job) {
    job.Privileged? && job.from.Some? && job.from.value >= Timestamp.MAX_INSTANT
  }

  predicate GoodJob(job: Job) {
    ValidJob(job) && !FarJob(job)
  }

  predicate GoodJobs(s: State) {
    forall b :: b in s.bots ==> GoodJob(s.bots[b].job)
  }

  /** A starting state with nothing committed and ledgers the bots can live with. */
  ghost predicate AnyStart(lc: Codec, s: State) {
    lc.Faithful() && Initial(s) && HealthyFiles(lc, s.Files()) && forall b :: b in s.bots ==> ValidJob(s.bots[b].job)
  }

  /** One in which no bot was given a far date. What such dates do is the subject of FarDates. */
  ghost predicate GoodStart(lc: Codec, s: State) {
    AnyStart(lc, s) && GoodJobs(s)
  }

  // ---- runs ----

  lemma StepKeepsJobs(lc: Codec, s: State, a: Action)
    ensures Step(lc, s, a).bots.Keys == s.bots.Keys
    ensures forall b :: b in s.bots ==> Step(lc, s, a).bots[b].job == s.bots[b].job
  {}

  lemma {:induction false} RunKeepsJobs(lc: Codec, s: State, acts: seq<Action>)
    ensures Run(lc, s, acts).bots.Keys == s.bots.Keys
    ensures forall b :: b in s.bots ==> Run(lc, s, acts).bots[b].job == s.bots[b].job
  {
    if acts != [] {
      RunKeepsJobs(lc, s, acts[..|acts| - 1]);
      StepKeepsJobs(lc, Run(lc, s, acts[..|acts| - 1]), acts[|acts| - 1]);
    }
  }

  /** One step adds at most one commit to the log. */
  lemma StepLog(lc: Codec, s: State, a: Action)
    ensures var t := Step(lc, s, a);
            || t.log == s.log
            || (exists c :: t.log == s.log + [c])
  {}

  /** The log of a run extends the log of every prefix of it. */
  lemma {:induction false} RunLogGrows(lc: Codec, s: State, acts: seq<Action>, n: nat)
    requires n <= |acts|
    ensures Run(lc, s, acts[..n]).log <= Run(lc, s, acts).log
  {
    if n == |acts| {
      assert acts[..n] == acts;
    } else {
      var init := acts[..|acts| - 1];
      RunLogGrows(lc, s, init, n);
      assert init[..n] == acts[..n];
      StepLog(lc, Run(lc, s, init), acts[|acts| - 1]);
    }
  }

  // ---- one log ----

  /** Between two positions of a sound log every ledger extends. */
  lemma HistoryBetween(lc: Codec, files: Files, log: seq<Commit>, i: nat, j: nat)
    requires lc.Faithful() && HealthyFiles(lc, files)
    requires i <= j <= |log| && SoundLog(lc, files, log[..j])
    ensures SoundLog(lc, files, log[..i])
    ensures HealthyFiles(lc, Replay(lc, files, log[..i])) && HealthyFiles(lc, Replay(lc, files, log[..j]))
    ensures forall a :: LedgerAt(lc, files, log, i, a).Some? ==>
              LedgerAt(lc, files, log, j, a).Some? &&
              Extends(LedgerAt(lc, files, log, i, a).value, LedgerAt(lc, files, log, j, a).value)
  {
    assert log[..j] == log[..i] + log[i..j];
    ReplayAppend(lc, files, log[..i], log[i..j]);
    ReplayKeepsHistory(lc, files, log[..i]);
    ReplayKeepsHistory(lc, Replay(lc, files, log[..i]), log[i..j]);
  }

  /** An update chosen on an earlier ledger is still sound on the one it lands on, with the index
      and the notBefore it was chosen from. */
  lemma ChoiceStaysSound(job: Job, earlier: Option<Ledger>, later: Option<Ledger>, u: Update)
    requires GoodJob(job) && Begin(job, earlier) == Go(u)
    requires earlier.Some? ==> Healthy(earlier.value) && later.Some? && Extends(earlier.value, later.value)
    ensures Sound(later, job.appID, u)
    ensures u.Flip? ==> FindIn(later.value.Certs(), u.target) == FindIn(earlier.value.Certs(), u.target)
  {
    if u.Flip? {
      var i := FindIn(earlier.value.Certs(), u.target);
      FirstMatchIsStable(earlier.value.Certs(), later.value.Certs(), u.target);
      StoredCerts(earlier.value, i);
      assert later.value.Certs()[i].SameIdentity(earlier.value.Certs()[i]);
    }
  }

  lemma JustifiedCommit(lc: Codec, files: Files, s: State, k: nat)
    requires lc.Faithful() && HealthyFiles(lc, files) && GoodJobs(s)
    requires Inv(lc, files, s) && k < |s.log|
    requires SoundLog(lc, files, s.log[..k])
    ensures SoundCommit(lc, Replay(lc, files, s.log[..k]), s.log[k])
  {
    assert Holds(lc, LogJustified, files, s);
    assert LogInv(lc, files, s, k);
    var c := s.log[k];
    var bot := s.bots[c.bot];
    HistoryBetween(lc, files, s.log, bot.first, k);
    ChoiceStaysSound(bot.job, LedgerAt(lc, files, s.log, bot.first, c.appID), LedgerAt(lc, files, s.log, k, c.appID),
                     c.update);
  }

  lemma {:induction false} JustifiedLog(lc: Codec, files: Files, s: State, n: nat)
    requires lc.Faithful() && HealthyFiles(lc, files) && GoodJobs(s)
    requires Inv(lc, files, s) && n <= |s.log|
    ensures SoundLog(lc, files, s.log[..n])
  {
    if n > 0 {
      JustifiedLog(lc, files, s, n - 1);
      JustifiedCommit(lc, files, s, n - 1);
      assert s.log[..n][..|s.log[..n]| - 1] == s.log[..n - 1];
    }
  }

  /** Every commit of every interleaving is sound where it lands. */
  lemma RunIsSound(lc: Codec, s: State, acts: seq<Action>)
    requires GoodStart(lc, s)
    ensures Inv(lc, s.Files(), Run(lc, s, acts)) && GoodJobs(Run(lc, s, acts))
    ensures SoundLog(lc, s.Files(), Run(lc, s, acts).log)
    ensures HealthyFiles(lc, Run(lc, s, acts).Files())
  {
    var t := Run(lc, s, acts);
    RunInv(lc, s, acts);
    RunKeepsJobs(lc, s, acts);
    JustifiedLog(lc, s.Files(), t, |t.log|);
    assert t.log[..|t.log|] == t.log;
    assert Holds(lc, FilesReplay, s.Files(), t);
    ReplayKeepsHistory(lc, s.Files(), t.log);
  }

  // ---- append-only history and frame ----

  lemma LedgerNow(lc: Codec, files: Files, t: State, appID: string)
    requires Inv(lc, files, t)
    ensures LedgerOf(lc, t.Files(), appID) == LedgerAt(lc, files, t.log, |t.log|, appID)
  {
    assert Holds(lc, FilesReplay, files, t);
    assert t.log[..|t.log|] == t.log;
  }

  lemma HistoryOfStates(lc: Codec, files: Files, m: State, t: State, appID: string)
    requires lc.Faithful() && HealthyFiles(lc, files)
    requires Inv(lc, files, m) && Inv(lc, files, t)
    requires m.log <= t.log && SoundLog(lc, files, t.log)
    ensures var earlier, later := LedgerOf(lc, m.Files(), appID), LedgerOf(lc, t.Files(), appID);
            earlier.Some? ==> later.Some? && Extends(earlier.value, later.value)
  {
    assert t.log[..|m.log|] == m.log && t.log[..|t.log|] == t.log;
    HistoryBetween(lc, files, t.log, |m.log|, |t.log|);
    LedgerNow(lc, files, m, appID);
    LedgerNow(lc, files, t, appID);
    assert m.log[..|m.log|] == m.log;
  }

  /** From any point of any interleaving to any later point, no ledger disappears, its owner, claim
      and reservation stay, every certificate keeps its place and identity, and what was revoked
      stays revoked. Every ledger stays readable, with each revokedFrom no earlier than its
      certificate's notBefore. */
  lemma AppendOnlyHistory(lc: Codec, s: State, acts: seq<Action>, n: nat, appID: string)
    requires GoodStart(lc, s) && n <= |acts|
    ensures HealthyFiles(lc, Run(lc, s, acts).Files())
    ensures var earlier := LedgerOf(lc, Run(lc, s, acts[..n]).Files(), appID);
            var later := LedgerOf(lc, Run(lc, s, acts).Files(), appID);
            earlier.Some? ==> later.Some? && Extends(earlier.value, later.value)
  {
    RunIsSound(lc, s, acts);
    RunIsSound(lc, s, acts[..n]);
    RunLogGrows(lc, s, acts, n);
    HistoryOfStates(lc, s.Files(), Run(lc, s, acts[..n]), Run(lc, s, acts), appID);
  }

  /** What one step does to the ledgers: nothing, or one new active certificate at the end of one
      list, or new revocation fields on one certificate of one list. */
  ghost predicate OneEntryChanged(before: Option<Ledger>, after: Ledger, u: Update) {
    match u
    case Append(repo, now, entry) =>
      && after.Certs() == (if before.Some? then before.value.Certs() else []) + [entry.Normal()]
      && (before.None? ==>
            && after.owner == Owner(ORIGIN_GITHUB, repo)
            && after.claimedAt == Timestamp.Truncated(now) && !after.reserved)
    case Flip(target, r) =>
      && before.Some?
      && exists i :: FlippedAt(before.value.Certs(), after.Certs(), i, target, r)
  }

  /** `after` is `before` with the matching certificate at `i` revoked as asked. */
  predicate FlippedAt(before: seq<Certificate>, after: seq<Certificate>, i: int, target: Target, r: Revocation) {
    && 0 <= i < |before| == |after|
    && target.Matches(after[i])
    && after[i].SameIdentity(before[i])
    && after[i].Revoked()
    && after[i].revokedFrom == Some(Timestamp.Truncated(r.revokedFrom))
    && after[i].reason == r.reason
    && after[i].actor == r.actor
    && forall j :: 0 <= j < |before| && j != i ==> after[j] == before[j]
  }

  lemma CommitChangesOneEntry(lc: Codec, files: Files, c: Commit)
    requires lc.Faithful() && HealthyFiles(lc, files) && SoundCommit(lc, files, c)
    ensures LedgerOf(lc, Applied(lc, files, c), c.appID).Some?
    ensures OneEntryChanged(LedgerOf(lc, files, c.appID), LedgerOf(lc, Applied(lc, files, c), c.appID).value, c.update)
  {
    CommitKeepsHistory(lc, files, c);
    var before := LedgerOf(lc, files, c.appID);
    var after := LedgerOf(lc, Applied(lc, files, c), c.appID).value;
    assert after.Certs() == RevisedCerts(before, c.update);
    if c.update.Flip? {
      var i := FindIn(before.value.Certs(), c.update.target);
      assert FlippedAt(before.value.Certs(), after.Certs(), i, c.update.target, c.update.revocation);
    }
  }

  /** `t'` is `t` with the same files, or with one commit that changed one entry of one file. */
  ghost predicate OneUpdateApart(lc: Codec, t: State, t': State) {
    || (t'.log == t.log && t'.Files() == t.Files())
    || (exists c :: t'.log == t.log + [c] && CommitTook(lc, t.Files(), t'.Files(), c))
  }

  ghost predicate CommitTook(lc: Codec, files: Files, after: Files, c: Commit) {
    && LedgerOf(lc, after, c.appID).Some?
    && OneEntryChanged(LedgerOf(lc, files, c.appID), LedgerOf(lc, after, c.appID).value, c.update)
    && after.Keys == files.Keys + {c.appID}
    && forall x :: x in files && x != c.appID ==> after[x] == files[x]
  }

  lemma CommitTakes(lc: Codec, files: Files, c: Commit)
    requires lc.Faithful() && HealthyFiles(lc, files) && SoundCommit(lc, files, c)
    ensures CommitTook(lc, files, Applied(lc, files, c), c)
  {
    CommitKeepsHistory(lc, files, c);
    CommitChangesOneEntry(lc, files, c);
    AppliedKeys(lc, files, c);
  }

  lemma StatesOneUpdateApart(lc: Codec, files: Files, t: State, t': State)
    requires lc.Faithful() && HealthyFiles(lc, files)
    requires Inv(lc, files, t) && Inv(lc, files, t') && SoundLog(lc, files, t'.log) && HealthyFiles(lc, t.Files())
    requires t'.log == t.log || (exists c :: t'.log == t.log + [c])
    ensures OneUpdateApart(lc, t, t')
  {
    assert Holds(lc, FilesReplay, files, t) && Holds(lc, FilesReplay, files, t');
    if t'.log != t.log {
      var c :| t'.log == t.log + [c];
      ReplayOneMore(lc, files, t.log, c);
      assert t'.log[..|t'.log| - 1] == t.log && t'.log[|t'.log| - 1] == c;
      CommitTakes(lc, t.Files(), c);
    }
  }

  /** Every step of every interleaving leaves all files alone, or is one commit that changes one
      entry of one file. */
  lemma EachStepIsOneUpdate(lc: Codec, s: State, acts: seq<Action>, a: Action)
    requires GoodStart(lc, s)
    ensures OneUpdateApart(lc, Run(lc, s, acts), Step(lc, Run(lc, s, acts), a))
  {
    var t := Run(lc, s, acts);
    RunIsSound(lc, s, acts);
    RunIsSound(lc, s, acts + [a]);
    RunOneMore(lc, s, acts, a);
    StepLog(lc, t, a);
    StatesOneUpdateApart(lc, s.Files(), t, Run(lc, s, acts + [a]));
  }

  lemma AppliedKeys(lc: Codec, files: Files, c: Commit)
    requires c.appID in Applied(lc, files, c)
    ensures Applied(lc, files, c).Keys == files.Keys + {c.appID}
  {}

  // ---- index stability ----

  /** What a bot holds after any number of reloads still takes the update it chose on its first
      load: same index, and a date no earlier than the notBefore there. */
  lemma HeldStaysSound(lc: Codec, files: Files, s: State, b: nat)
    requires lc.Faithful() && HealthyFiles(lc, files) && GoodJobs(s)
    requires Inv(lc, files, s) && SoundLog(lc, files, s.log)
    requires b in s.bots && s.bots[b].phase.Holding?
    ensures var bot := s.bots[b];
            && bot.first <= |s.log|
            && Sound(bot.phase.held, bot.job.appID, bot.phase.update)
            && (bot.phase.update.Flip? ==>
                  && LedgerAt(lc, files, s.log, bot.first, bot.job.appID).Some?
                  && FindIn(bot.phase.held.value.Certs(), bot.phase.update.target)
                     == FindIn(LedgerAt(lc, files, s.log, bot.first, bot.job.appID).value.Certs(),
                               bot.phase.update.target))
  {
    var bot := s.bots[b];
    assert Holds(lc, BotsConsistent, files, s);
    assert BotInv(lc, files, s, bot);
    PrefixSound(lc, files, s.log, bot.latest);
    HistoryBetween(lc, files, s.log, bot.first, bot.latest);
    ChoiceStaysSound(bot.job, LedgerAt(lc, files, s.log, bot.first, bot.job.appID), bot.phase.held, bot.phase.update);
  }

  /** The same in every run: an index found before the retry loop is the index found after every
      reload in it. */
  lemma IndexIsStable(lc: Codec, s: State, acts: seq<Action>, b: nat)
    requires GoodStart(lc, s) && b in Run(lc, s, acts).bots && Run(lc, s, acts).bots[b].phase.Holding?
    ensures var t := Run(lc, s, acts);
            var bot := t.bots[b];
            && bot.first <= |t.log|
            && Sound(bot.phase.held, bot.job.appID, bot.phase.update)
            && (bot.phase.update.Flip? ==>
                  && LedgerAt(lc, s.Files(), t.log, bot.first, bot.job.appID).Some?
                  && FindIn(bot.phase.held.value.Certs(), bot.phase.update.target)
                     == FindIn(LedgerAt(lc, s.Files(), t.log, bot.first, bot.job.appID).value.Certs(),
                               bot.phase.update.target))
  {
    RunIsSound(lc, s, acts);
    HeldStaysSound(lc, s.Files(), Run(lc, s, acts), b);
  }

  lemma PrefixSound(lc: Codec, files: Files, log: seq<Commit>, n: nat)
    requires n <= |log| && SoundLog(lc, files, log)
    ensures SoundLog(lc, files, log[..n])
  {
    assert log == log[..n] + log[n..];
    ReplayAppend(lc, files, log[..n], log[n..]);
  }

  /** Neither error that only a damaged ledger can cause has been reported. */
  predicate NothingLost(s: State) {
    forall b :: b in s.bots ==> s.bots[b].phase != Done(Vanished) && s.bots[b].phase != Done(ParseFailed)
  }

  lemma ReadableLoad(lc: Codec, s: State, bot: Bot)
    requires HealthyFiles(lc, s.Files())
    ensures Loaded(lc, s, bot).Some?
  {
    LoadedText(lc, s.Files(), bot.job.appID);
  }

  lemma AttemptLosesNothing(s: State, b: nat, refused: bool, text: Option<string>)
    requires NothingLost(s) && b in s.bots && s.bots[b].phase.Holding? && text.Some?
    ensures NothingLost(Attempt(s, b, refused, text))
  {}

  lemma LoadLosesNothing(lc: Codec, s: State, b: nat)
    requires NothingLost(s) && b in s.bots && Loaded(lc, s, s.bots[b]).Some?
    ensures s.bots[b].phase.Start? ==> NothingLost(WithPhase(s, b, FirstLoad(lc, s, s.bots[b])))
    ensures s.bots[b].phase.Reloading? ==> NothingLost(WithPhase(s, b, Reload(lc, s, s.bots[b])))
  {}

  lemma StepLosesNothing(lc: Codec, files: Files, s: State, a: Action)
    requires lc.Faithful() && HealthyFiles(lc, files) && HealthyFiles(lc, s.Files()) && GoodJobs(s)
    requires Inv(lc, files, s) && SoundLog(lc, files, s.log) && NothingLost(s)
    ensures NothingLost(Step(lc, s, a))
  {
    if a.bot in s.bots {
      match a
      case Get(b) =>
        ReadableLoad(lc, s, s.bots[b]);
        LoadLosesNothing(lc, s, b);
      case Put(b, refused) =>
        if s.bots[b].phase.Holding? {
          HeldStaysSound(lc, files, s, b);
          AttemptLosesNothing(s, b, refused, Revised(lc, s.bots[b]));
        }
      case Fault(b) =>
    }
  }

  /** The "vanished during retry" and parse errors are unreachable when only bots write and no date is
      far. */
  lemma {:induction false} NeverVanished(lc: Codec, s: State, acts: seq<Action>)
    requires GoodStart(lc, s)
    ensures NothingLost(Run(lc, s, acts))
  {
    if acts != [] {
      var init := acts[..|acts| - 1];
      NeverVanished(lc, s, init);
      RunIsSound(lc, s, init);
      StepLosesNothing(lc, s.Files(), Run(lc, s, init), acts[|acts| - 1]);
    }
  }

  // ---- what success means ----

  /** The trace an update leaves in a ledger for good: the entry itself, active or not by now, or
      its target found at a revoked certificate. */
  ghost predicate Recorded(l: Ledger, u: Update) {
    match u
    case Append(_, _, entry) => HasEntry(l, entry)
    case Flip(target, _) => RevokedAt(l, target)
  }

  predicate HasEntry(l: Ledger, entry: Certificate) {
    exists i :: 0 <= i < |l.Certs()| && l.Certs()[i].SameIdentity(entry.Normal())
  }

  predicate RevokedAt(l: Ledger, t: Target) {
    var i := FindIn(l.Certs(), t);
    i >= 0 && l.Certs()[i].Revoked()
  }

  lemma RecordedStays(earlier: Ledger, later: Ledger, u: Update)
    requires Recorded(earlier, u) && Extends(earlier, later)
    ensures Recorded(later, u)
  {
    match u
    case Append(_, _, entry) =>
      var i :| 0 <= i < |earlier.Certs()| && earlier.Certs()[i].SameIdentity(entry.Normal());
      assert later.Certs()[i].SameIdentity(earlier.Certs()[i]);
    case Flip(target, _) =>
      FirstMatchIsStable(earlier.Certs(), later.Certs(), target);
  }

  lemma CommitRecords(lc: Codec, files: Files, c: Commit)
    requires lc.Faithful() && HealthyFiles(lc, files) && SoundCommit(lc, files, c)
    ensures LedgerOf(lc, Applied(lc, files, c), c.appID).Some?
    ensures Recorded(LedgerOf(lc, Applied(lc, files, c), c.appID).value, c.update)
  {
    CommitKeepsHistory(lc, files, c);
    var before := LedgerOf(lc, files, c.appID);
    var after := LedgerOf(lc, Applied(lc, files, c), c.appID).value;
    if c.update.Flip? {
      FirstMatchIsStable(before.value.Certs(), after.Certs(), c.update.target);
    } else {
      assert after.Certs()[|after.Certs()| - 1] == c.update.entry.Normal();
    }
  }

  /** The commit of a bot that reported success. */
  lemma {:induction false} CommitOf(log: seq<Commit>, b: nat) returns (k: nat)
    requires CommitsBy(log, b) > 0
    ensures k < |log| && log[k].bot == b
  {
    if log[|log| - 1].bot == b {
      k := |log| - 1;
    } else {
      k := CommitOf(log[..|log| - 1], b);
    }
  }

  /** One commit in the middle of a sound log. */
  lemma CommitAt(lc: Codec, files: Files, log: seq<Commit>, k: nat)
    requires SoundLog(lc, files, log) && k < |log|
    ensures SoundLog(lc, files, log[..k]) && SoundCommit(lc, Replay(lc, files, log[..k]), log[k])
    ensures Replay(lc, files, log[..k + 1]) == Applied(lc, Replay(lc, files, log[..k]), log[k])
  {
    PrefixSound(lc, files, log, k + 1);
    var prefix := log[..k + 1];
    assert prefix[..|prefix| - 1] == log[..k] && prefix[|prefix| - 1] == log[k];
  }

  lemma RecordedAt(lc: Codec, files: Files, log: seq<Commit>, k: nat)
    requires lc.Faithful() && HealthyFiles(lc, files) && SoundLog(lc, files, log) && k < |log|
    ensures LedgerAt(lc, files, log, |log|, log[k].appID).Some?
    ensures Recorded(LedgerAt(lc, files, log, |log|, log[k].appID).value, log[k].update)
  {
    assert log[..|log|] == log;
    CommitAt(lc, files, log, k);
    ReplayKeepsHistory(lc, files, log[..k]);
    CommitRecords(lc, Replay(lc, files, log[..k]), log[k]);
    HistoryBetween(lc, files, log, k + 1, |log|);
    RecordedLater(LedgerAt(lc, files, log, k + 1, log[k].appID), LedgerAt(lc, files, log, |log|, log[k].appID),
                  log[k].update);
  }

  lemma RecordedLater(earlier: Option<Ledger>, later: Option<Ledger>, u: Update)
    requires earlier.Some? && Recorded(earlier.value, u)
    requires later.Some? && Extends(earlier.value, later.value)
    ensures Recorded(later.value, u)
  {
    RecordedStays(earlier.value, later.value, u);
  }

  /** What a bot set out to record. */
  ghost predicate Achieved(job: Job, l: Ledger) {
    match job
    case Issue(_, _, _, entry) => HasEntry(l, entry)
    case SelfRevoke(_, fp) => RevokedAt(l, ByFingerprint(fp))
    case Privileged(_, serial, _, _, _) => RevokedAt(l, BySerial(serial))
  }

  /** A bot that has reported success has achieved what it was started for, and nothing that any
      bot does afterwards undoes it. */
  lemma SuccessIsPermanent(lc: Codec, s: State, acts: seq<Action>, n: nat, b: nat)
    requires GoodStart(lc, s) && n <= |acts|
    requires b in s.bots && b in Run(lc, s, acts[..n]).bots && Run(lc, s, acts[..n]).bots[b].phase == Done(Committed)
    ensures LedgerOf(lc, Run(lc, s, acts).Files(), s.bots[b].job.appID).Some?
    ensures Achieved(s.bots[b].job, LedgerOf(lc, Run(lc, s, acts).Files(), s.bots[b].job.appID).value)
  {
    var m, t := Run(lc, s, acts[..n]), Run(lc, s, acts);
    RunKeepsJobs(lc, s, acts[..n]);
    RunKeepsJobs(lc, s, acts);
    RunIsSound(lc, s, acts[..n]);
    RunIsSound(lc, s, acts);
    RunLogGrows(lc, s, acts, n);
    SuccessInStates(lc, s.Files(), m, t, b);
  }

  lemma SuccessInStates(lc: Codec, files: Files, m: State, t: State, b: nat)
    requires lc.Faithful() && HealthyFiles(lc, files)
    requires Inv(lc, files, m) && Inv(lc, files, t) && m.log <= t.log && SoundLog(lc, files, t.log)
    requires b in m.bots && b in t.bots && m.bots[b].job == t.bots[b].job && m.bots[b].phase == Done(Committed)
    ensures LedgerOf(lc, t.Files(), t.bots[b].job.appID).Some?
    ensures Achieved(t.bots[b].job, LedgerOf(lc, t.Files(), t.bots[b].job.appID).value)
  {
    assert Holds(lc, OneCommitEach, files, m);
    assert CommitsBy(m.log, b) == 1;
    var k := CommitOf(m.log, b);
    assert t.log[k] == m.log[k];
    LedgerNow(lc, files, t, t.log[k].appID);
    RecordedAt(lc, files, t.log, k);
    var first := JobOfCommit(lc, files, t, k);
    AchievedIfRecorded(t.bots[b].job, first, t.log[k].update, LedgerOf(lc, t.Files(), t.log[k].appID).value);
  }

  /** The bot behind a commit, and what it had loaded first. */
  lemma JobOfCommit(lc: Codec, files: Files, t: State, k: nat) returns (first: Option<Ledger>)
    requires Inv(lc, files, t) && k < |t.log|
    ensures t.log[k].bot in t.bots
    ensures var bot := t.bots[t.log[k].bot];
            && bot.phase == Done(Committed) && bot.job.appID == t.log[k].appID && bot.first <= k
            && first == LedgerAt(lc, files, t.log, bot.first, t.log[k].appID)
            && Begin(bot.job, first) == Go(t.log[k].update)
  {
    assert Holds(lc, LogJustified, files, t);
    assert LogInv(lc, files, t, k);
    first := LedgerAt(lc, files, t.log, t.bots[t.log[k].bot].first, t.log[k].appID);
  }

  lemma AchievedIfRecorded(job: Job, existing: Option<Ledger>, u: Update, l: Ledger)
    requires Begin(job, existing) == Go(u) && Recorded(l, u)
    ensures Achieved(job, l)
  {}

  // ---- a revocation found in place ----

  /** Every bot that reported "already revoked" was right, and still is. */
  ghost predicate FoundRevoked(lc: Codec, s: State) {
    forall b :: b in s.bots && s.bots[b].phase == Done(AlreadyRevoked) ==> SeesRevoked(lc, s, s.bots[b].job)
  }

  ghost predicate SeesRevoked(lc: Codec, s: State, job: Job) {
    && job.SelfRevoke?
    && LedgerOf(lc, s.Files(), job.appID).Some?
    && RevokedAt(LedgerOf(lc, s.Files(), job.appID).value, ByFingerprint(job.fingerprint))
  }

  lemma RevokedAtStays(earlier: Ledger, later: Ledger, t: Target)
    requires RevokedAt(earlier, t) && Extends(earlier, later)
    ensures RevokedAt(later, t)
  {
    FirstMatchIsStable(earlier.Certs(), later.Certs(), t);
  }

  lemma StopsOnRevoked(job: Job, existing: Option<Ledger>)
    requires Begin(job, existing) == Stop(AlreadyRevoked)
    ensures job.SelfRevoke? && existing.Some? && RevokedAt(existing.value, ByFingerprint(job.fingerprint))
  {}

  /** A bot reports "already revoked" only on the ledger it has just loaded. */
  lemma NewlyFoundRevoked(lc: Codec, s: State, a: Action, b: nat)
    requires HealthyFiles(lc, s.Files()) && b in s.bots
    requires s.bots[b].phase != Done(AlreadyRevoked) && Step(lc, s, a).bots[b].phase == Done(AlreadyRevoked)
    ensures SeesRevoked(lc, s, s.bots[b].job) && Step(lc, s, a).Files() == s.Files()
  {
    LoadedText(lc, s.Files(), s.bots[b].job.appID);
    StopsOnRevoked(s.bots[b].job, LedgerOf(lc, s.Files(), s.bots[b].job.appID));
  }

  /** "Already revoked" stays true in every interleaving. */
  lemma {:induction false} AlreadyRevokedIsPermanent(lc: Codec, s: State, acts: seq<Action>)
    requires GoodStart(lc, s)
    ensures FoundRevoked(lc, Run(lc, s, acts))
  {
    if acts != [] {
      var init, a := acts[..|acts| - 1], acts[|acts| - 1];
      AlreadyRevokedIsPermanent(lc, s, init);
      var m, t := Run(lc, s, init), Run(lc, s, acts);
      StepKeepsJobs(lc, m, a);
      RunIsSound(lc, s, init);
      forall b | b in t.bots && t.bots[b].phase == Done(AlreadyRevoked)
        ensures SeesRevoked(lc, t, t.bots[b].job)
      {
        if m.bots[b].phase == Done(AlreadyRevoked) {
          AppendOnlyHistory(lc, s, acts, |acts| - 1, m.bots[b].job.appID);
          StillRevoked(lc, m, t, m.bots[b].job);
        } else {
          NewlyFoundRevoked(lc, m, a, b);
        }
      }
    }
  }

  lemma StillRevoked(lc: Codec, m: State, t: State, job: Job)
    requires SeesRevoked(lc, m, job)
    requires LedgerOf(lc, t.Files(), job.appID).Some?
    requires Extends(LedgerOf(lc, m.Files(), job.appID).value, LedgerOf(lc, t.Files(), job.appID).value)
    ensures SeesRevoked(lc, t, job)
  {
    RevokedAtStays(LedgerOf(lc, m.Files(), job.appID).value, LedgerOf(lc, t.Files(), job.appID).value,
                   ByFingerprint(job.fingerprint));
  }
}
