/** How far the bounded retry carries: a bot that gives up after five conflicts has been overtaken
    at least five times by other bots on its own ledger. */
module Progress {
  import opened Wrappers
  import opened Ledger
  import opened Updates
  import opened Blobs
  import opened Protocol
  import History

  /** Commits of a log to one ledger. */
  function CommitsTo(log: seq<Commit>, appID: string): nat {
    if log == [] then 0
    else CommitsTo(log[..|log| - 1], appID) + (if log[|log| - 1].appID == appID then 1 else 0)
  }

  lemma {:induction false} CommitsToAppend(a: seq<Commit>, b: seq<Commit>, appID: string)
    ensures CommitsTo(a + b, appID) == CommitsTo(a, appID) + CommitsTo(b, appID)
  {
    if b == [] {
      assert a + b == a;
    } else {
      assert (a + b)[..|a + b| - 1] == a + b[..|b| - 1];
      CommitsToAppend(a, b[..|b| - 1], appID);
    }
  }

  lemma CommitsToSlices(log: seq<Commit>, i: nat, j: nat, k: nat, appID: string)
    requires i <= j <= k <= |log|
    ensures CommitsTo(log[i..k], appID) == CommitsTo(log[i..j], appID) + CommitsTo(log[j..k], appID)
  {
    assert log[i..k] == log[i..j] + log[j..k];
    CommitsToAppend(log[i..j], log[j..k], appID);
  }

  /** No write is refused without a cause. */
  predicate NoRefusals(acts: seq<Action>) {
    forall i :: 0 <= i < |acts| && acts[i].Put? ==> !acts[i].refused
  }

  /** Every conflict a bot has met is a commit to its ledger since its first load; and a held SHA
      is refused only if a commit to its ledger landed since the latest load. */
  predicate Overtaken(s: State, bot: Bot) {
    var app := bot.job.appID;
    match bot.phase
    case Holding(_, _, sha, n) =>
      && bot.first <= bot.latest <= |s.log|
      && n <= CommitsTo(s.log[bot.first..bot.latest], app)
      && (Accepts(BlobOf(s.blobs, app), sha) || CommitsTo(s.log[bot.latest..], app) > 0)
    case Reloading(_, n) => OvertakenBy(s.log, bot, n)
    case Done(outcome) => outcome == Conflicted ==> OvertakenBy(s.log, bot, MAX_RETRIES)
    case Start => true
  }

  /** At least `n` commits to the bot's ledger between its first load and its last write. */
  predicate OvertakenBy(log: seq<Commit>, bot: Bot, n: nat) {
    bot.first <= bot.tried <= |log| && n <= CommitsTo(log[bot.first..bot.tried], bot.job.appID)
  }

  predicate AllOvertaken(s: State) {
    forall b :: b in s.bots ==> Overtaken(s, s.bots[b])
  }

  lemma LoadOvertaken(lc: Codec, s: State, bot: Bot)
    requires Overtaken(s, bot)
    ensures bot.phase.Start? ==> Overtaken(s, FirstLoad(lc, s, bot))
    ensures bot.phase.Reloading? ==> Overtaken(s, Reload(lc, s, bot))
  {
    if bot.phase.Reloading? {
      CommitsToSlices(s.log, bot.first, bot.tried, |s.log|, bot.job.appID);
    }
  }

  lemma HolderOvertaken(s: State, t: State, bot: Bot, c: Commit)
    requires bot.phase.Holding? && Overtaken(s, bot) && t.log == s.log + [c]
    requires c.appID != bot.job.appID ==> BlobOf(t.blobs, bot.job.appID) == BlobOf(s.blobs, bot.job.appID)
    ensures Overtaken(t, bot)
  {
    CommitsToAppend(s.log[bot.latest..], [c], bot.job.appID);
    assert t.log[bot.latest..] == s.log[bot.latest..] + [c];
    assert t.log[bot.first..bot.latest] == s.log[bot.first..bot.latest];
  }

  lemma OvertakenStays(log: seq<Commit>, c: Commit, bot: Bot, n: nat)
    requires OvertakenBy(log, bot, n)
    ensures OvertakenBy(log + [c], bot, n)
  {
    assert (log + [c])[bot.first..bot.tried] == log[bot.first..bot.tried];
  }

  lemma OthersOvertaken(s: State, b: nat, text: string, x: nat)
    requires b in s.bots && s.bots[b].phase.Holding? && x in s.bots && Overtaken(s, s.bots[x])
    ensures x != b ==> Overtaken(AfterCommit(s, b, text), s.bots[x])
  {
    var c := Commit(b, s.bots[b].job.appID, s.bots[b].phase.update);
    match s.bots[x].phase
    case Holding(_, _, _, _) => HolderOvertaken(s, AfterCommit(s, b, text), s.bots[x], c);
    case Reloading(_, n) => OvertakenStays(s.log, c, s.bots[x], n);
    case Done(outcome) =>
      if outcome == Conflicted {
        OvertakenStays(s.log, c, s.bots[x], MAX_RETRIES);
      }
    case Start =>
  }

  lemma RefusedOvertaken(s: State, bot: Bot)
    requires Overtaken(s, bot) && bot.phase.Holding?
    requires !Accepts(BlobOf(s.blobs, bot.job.appID), bot.phase.sha)
    ensures Overtaken(s, bot.(phase := Reloading(bot.phase.update, bot.phase.conflicts + 1), tried := |s.log|))
  {
    CommitsToSlices(s.log, bot.first, bot.latest, |s.log|, bot.job.appID);
    assert s.log[bot.latest..|s.log|] == s.log[bot.latest..];
  }

  lemma AttemptOvertaken(s: State, b: nat, text: Option<string>)
    requires AllOvertaken(s) && b in s.bots && s.bots[b].phase.Holding?
    ensures AllOvertaken(Attempt(s, b, false, text))
  {
    var bot := s.bots[b];
    var t := Attempt(s, b, false, text);
    forall x | x in t.bots
      ensures Overtaken(t, t.bots[x])
    {
      assert Overtaken(s, s.bots[x]);
      if text.Some? && Accepts(BlobOf(s.blobs, bot.job.appID), bot.phase.sha) {
        OthersOvertaken(s, b, text.value, x);
      } else if text.Some? && x == b {
        RefusedOvertaken(s, bot);
      }
    }
  }

  lemma MoveOvertaken(s: State, b: nat, moved: Bot)
    requires AllOvertaken(s) && Overtaken(s, moved) && b in s.bots
    ensures AllOvertaken(WithPhase(s, b, moved))
  {}

  lemma StepOvertaken(lc: Codec, s: State, a: Action)
    requires AllOvertaken(s) && (a.Put? ==> !a.refused)
    ensures AllOvertaken(Step(lc, s, a))
  {
    if a.bot in s.bots {
      var bot := s.bots[a.bot];
      match a
      case Get(b) =>
        LoadOvertaken(lc, s, bot);
        if bot.phase.Start? {
          MoveOvertaken(s, b, FirstLoad(lc, s, bot));
        } else if bot.phase.Reloading? {
          MoveOvertaken(s, b, Reload(lc, s, bot));
        }
      case Put(b, _) =>
        if bot.phase.Holding? {
          AttemptOvertaken(s, b, Revised(lc, bot));
        }
      case Fault(b) =>
    }
  }

  lemma {:induction false} RunOvertaken(lc: Codec, s: State, acts: seq<Action>)
    requires Initial(s) && NoRefusals(acts)
    ensures AllOvertaken(Run(lc, s, acts))
  {
    if acts != [] {
      RunOvertaken(lc, s, acts[..|acts| - 1]);
      StepOvertaken(lc, Run(lc, s, acts[..|acts| - 1]), acts[|acts| - 1]);
    }
  }

  // ---- contenders ----

  /** The bots that committed to a ledger. */
  function Committers(log: seq<Commit>, appID: string): set<nat> {
    set i | 0 <= i < |log| && log[i].appID == appID :: log[i].bot
  }

  lemma {:induction false} NoCommit(log: seq<Commit>, b: nat)
    requires CommitsBy(log, b) == 0
    ensures forall i :: 0 <= i < |log| ==> log[i].bot != b
  {
    if log != [] {
      NoCommit(log[..|log| - 1], b);
      assert forall i :: 0 <= i < |log| - 1 ==> log[i] == log[..|log| - 1][i];
    }
  }

  /** When nobody commits twice, the commits to a ledger are as many as their authors. */
  lemma {:induction false} CommitsAreCommitters(log: seq<Commit>, appID: string)
    requires forall b :: CommitsBy(log, b) <= 1
    ensures CommitsTo(log, appID) == |Committers(log, appID)|
  {
    if log != [] {
      var init, c := log[..|log| - 1], log[|log| - 1];
      assert forall b :: CommitsBy(init, b) <= CommitsBy(log, b);
      CommitsAreCommitters(init, appID);
      assert CommitsBy(log, c.bot) == 1 && CommitsBy(init, c.bot) == 0;
      NoCommit(init, c.bot);
      assert Committers(log, appID) == Committers(init, appID) + (if c.appID == appID then {c.bot} else {});
    } else {
      assert Committers(log, appID) == {};
    }
  }

  lemma {:induction false} CommitsByOutsider(log: seq<Commit>, b: nat)
    requires forall i :: 0 <= i < |log| ==> log[i].bot != b
    ensures CommitsBy(log, b) == 0
  {
    if log != [] {
      CommitsByOutsider(log[..|log| - 1], b);
    }
  }

  /** The bots started for a ledger. */
  function Contenders(s: State, appID: string): set<nat> {
    set b | b in s.bots && s.bots[b].job.appID == appID
  }

  lemma SubsetSize<T>(a: set<T>, b: set<T>)
    requires a <= b
    ensures |a| <= |b|
  {
    if a != b {
      assert b == a + (b - a);
    }
  }

  /** The commits to a ledger are made by its contenders, once each, and not by one that gave up. */
  lemma CommitsFewerThanContenders(lc: Codec, files: Files, t: State, b: nat)
    requires Inv(lc, files, t) && b in t.bots && t.bots[b].phase == Done(Conflicted)
    ensures CommitsTo(t.log, t.bots[b].job.appID) < |Contenders(t, t.bots[b].job.appID)|
  {
    var app := t.bots[b].job.appID;
    assert Holds(lc, OneCommitEach, files, t);
    assert Holds(lc, LogJustified, files, t);
    assert CommitsBy(t.log, b) == 0;
    NoCommit(t.log, b);
    forall i | 0 <= i < |t.log|
      ensures t.log[i].bot in t.bots && t.bots[t.log[i].bot].job.appID == t.log[i].appID
    {
      assert LogInv(lc, files, t, i);
    }
    forall x: nat
      ensures CommitsBy(t.log, x) <= 1
    {
      if x !in t.bots {
        CommitsByOutsider(t.log, x);
      }
    }
    CommitsAreCommitters(t.log, app);
    assert b !in Committers(t.log, app);
    SubsetSize(Committers(t.log, app) + {b}, Contenders(t, app));
  }

  /** A bot that gave up after its retries was overtaken: at least five other commits to its own
      ledger lie between its first load and its last write, none of them its own, when no write
      is refused without a cause. */
  lemma GivingUpMeansOvertaken(lc: Codec, s: State, acts: seq<Action>, b: nat)
    requires Initial(s) && NoRefusals(acts)
    requires b in Run(lc, s, acts).bots && Run(lc, s, acts).bots[b].phase == Done(Conflicted)
    ensures OvertakenBy(Run(lc, s, acts).log, Run(lc, s, acts).bots[b], 5)
    ensures forall i :: 0 <= i < |Run(lc, s, acts).log| ==> Run(lc, s, acts).log[i].bot != b
  {
    var t := Run(lc, s, acts);
    RunOvertaken(lc, s, acts);
    assert Overtaken(t, t.bots[b]);
    RunInv(lc, s, acts);
    assert Holds(lc, OneCommitEach, s.Files(), t);
    NoCommit(t.log, b);
  }

  /** Hence with at most five bots on a ledger none of them gives up. */
  lemma FiveContendersAllFinish(lc: Codec, s: State, acts: seq<Action>, b: nat)
    requires Initial(s) && NoRefusals(acts)
    requires b in s.bots && |Contenders(s, s.bots[b].job.appID)| <= 5
    ensures b in Run(lc, s, acts).bots && Run(lc, s, acts).bots[b].phase != Done(Conflicted)
  {
    var t := Run(lc, s, acts);
    History.RunKeepsJobs(lc, s, acts);
    var app := s.bots[b].job.appID;
    assert Contenders(t, app) == Contenders(s, app);
    if t.bots[b].phase == Done(Conflicted) {
      GivingUpMeansOvertaken(lc, s, acts, b);
      RunInv(lc, s, acts);
      CommitsFewerThanContenders(lc, s.Files(), t, b);
      EnoughCommits(t.log, t.bots[b]);
      assert false;
    }
  }

  lemma EnoughCommits(log: seq<Commit>, bot: Bot)
    requires OvertakenBy(log, bot, MAX_RETRIES)
    ensures CommitsTo(log, bot.job.appID) >= MAX_RETRIES
  {
    CommitsToSlices(log, 0, bot.first, |log|, bot.job.appID);
    CommitsToSlices(log, bot.first, bot.tried, |log|, bot.job.appID);
    assert log[0..|log|] == log;
  }
}
