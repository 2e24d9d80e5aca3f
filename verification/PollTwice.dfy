/** The run that a fault at the wrong moment allows: a poll is cut off after its write to the ledger,
    and the next poll of the same request issues a second certificate. */
module PollTwice {
  import opened Wrappers
  import opened Ledger
  import opened Updates
  import opened Blobs
  import opened Store
  import opened Polls
  import opened Polling
  import opened PollOnce
  import Challenge
  import Enroll
  import History
  import Protocol
  import Races

  /** Everything but the label is in place for this poll to issue. */
  ghost predicate OtherwiseReady(c: Config, w: World, p: nat) {
    && Runs(c, w, p) && w.pcs[p] == Ready
    && c.polls[p].EnrollPoll? && c.polls[p].resolved.Claims? && c.polls[p].resolved.n.Named?
    && ControlShown(c, w, p)
    && p in w.proto.bots && w.proto.bots[p].phase == Protocol.Start && Some(w.proto.bots[p].job) == JobOf(c.polls[p])
    && Decide(LedgerOf(c.lc, w.proto.Files(), c.polls[p].resolved.n.appID), c.polls[p].resolved.n.repo)
       in {NewClaim, Allowed}
  }

  /** And the request is not labelled. */
  ghost predicate ReadyToIssue(c: Config, w: World, p: nat) {
    OtherwiseReady(c, w, p) && !Labelled(c, w, p)
  }

  ghost predicate ControlShown(c: Config, w: World, p: nat)
    requires p in c.polls
  {
    var stage := StageOf(IssueAt(w, c.polls[p].issue).comments, w.clock);
    stage.Await? && FileMatches(w, RepoOf(c.polls[p]), stage.nonce)
  }

  /** A poll up to the ledger, its write, and the fault. */
  function ToLedger(p: nat): seq<Action> {
    [Start(p), ReadComments(p), FetchFile(p)]
  }

  function CutAfterWrite(p: nat): seq<Action> {
    [OnLedger(Protocol.Get(p)), OnLedger(Protocol.Put(p, false)), Cut(p)]
  }

  lemma {:induction false} RunAppend(c: Config, w: World, a: seq<Action>, b: seq<Action>)
    ensures Run(c, w, a + b) == Run(c, Run(c, w, a), b)
  {
    if b == [] {
      assert a + b == a;
    } else {
      var init := b[..|b| - 1];
      RunAppend(c, w, a, init);
      assert (a + b)[..|a + b| - 1] == a + init;
    }
  }

  lemma RunThree(c: Config, w: World, x: Action, y: Action, z: Action)
    ensures Run(c, w, [x, y, z]) == Step(c, Step(c, Step(c, w, x), y), z)
  {
    assert [x, y, z][..2] == [x, y] && [x, y][..1] == [x] && [x][..0] == [];
    assert Run(c, w, []) == w;
    assert Run(c, w, [x]) == Step(c, w, x);
    assert Run(c, w, [x, y]) == Step(c, Run(c, w, [x]), y);
  }

  lemma ReadsGood(c: Config, w: World, p: nat)
    requires Runs(c, w, p) && w.pcs[p] == Reading && c.polls[p].EnrollPoll?
    requires StageOf(IssueAt(w, c.polls[p].issue).comments, w.clock).Await?
    ensures var t := StepRead(c, w, p);
            && t.pcs[p].Checking? && t == Going(w, p, t.pcs[p])
            && t.pcs[p].prior.nonce == StageOf(IssueAt(w, c.polls[p].issue).comments, w.clock).nonce
  {}

  lemma FetchesGood(c: Config, w: World, p: nat)
    requires Runs(c, w, p) && w.pcs[p].Checking? && FileMatches(w, RepoOf(c.polls[p]), w.pcs[p].prior.nonce)
    ensures var t := StepFetch(c, w, p);
            && t == Going(w, p, AtLedger).(evidence := t.evidence)
            && p in t.evidence && t.evidence[p].prior == w.pcs[p].prior
  {}

  lemma ReachesLedger(c: Config, w: World, p: nat)
    requires ReadyToIssue(c, w, p)
    ensures var t := Run(c, w, ToLedger(p));
            && t.pcs == w.pcs[p := AtLedger] && t.proto == w.proto
            && t.issues == w.issues && t.files == w.files && t.hidden == w.hidden && t.clock == w.clock
            && p in t.evidence && t.evidence[p].prior.nonce ==
                 StageOf(IssueAt(w, c.polls[p].issue).comments, w.clock).nonce
  {
    RunThree(c, w, Start(p), ReadComments(p), FetchFile(p));
    var w1 := Step(c, w, Start(p));
    assert w1 == Going(w, p, Reading);
    assert IssueAt(w1, c.polls[p].issue) == IssueAt(w, c.polls[p].issue);
    var w2 := Step(c, w1, ReadComments(p));
    ReadsGood(c, w1, p);
    FetchesGood(c, w2, p);
  }

  /** The write lands, and then the poll is gone. */
  lemma WritesAndStops(c: Config, w: World, p: nat)
    requires Runs(c, w, p) && w.pcs[p] == AtLedger && c.lc.Faithful()
    requires p in w.proto.bots && w.proto.bots[p].phase == Protocol.Start && w.proto.bots[p].job.Issue?
    requires HealthyFiles(c.lc, w.proto.Files()) && History.GoodJob(w.proto.bots[p].job)
    requires Decide(LedgerOf(c.lc, w.proto.Files(), w.proto.bots[p].job.appID),
                    w.proto.bots[p].job.repo) in {NewClaim, Allowed}
    ensures var t := Run(c, w, CutAfterWrite(p));
            && t.pcs == w.pcs[p := Over(true)]
            && t.issues == w.issues && t.files == w.files && t.hidden == w.hidden && t.clock == w.clock &&
                 t.evidence == w.evidence
            && WroteOnce(c, w, t, p)
  {
    RunThree(c, w, OnLedger(Protocol.Get(p)), OnLedger(Protocol.Put(p, false)), Cut(p));
    var s := w.proto;
    var u := Append(s.bots[p].job.repo, s.bots[p].job.now, s.bots[p].job.entry);
    var s2 := Races.SoloCommit(c.lc, s, p, u);
    var w1 := Step(c, w, OnLedger(Protocol.Get(p)));
    assert w1 == w.(proto := Protocol.Step(c.lc, s, Protocol.Get(p)));
    var w2 := Step(c, w1, OnLedger(Protocol.Put(p, false)));
    assert w2 == w.(proto := s2);
  }

  ghost predicate WroteOnce(c: Config, w: World, t: World, p: nat)
    requires p in w.proto.bots && w.proto.bots[p].job.Issue?
  {
    var job := w.proto.bots[p].job;
    && p in t.proto.bots && t.proto.bots[p].phase == Protocol.Done(Protocol.Committed)
    && (forall b :: b in w.proto.bots && b != p ==> b in t.proto.bots && t.proto.bots[b] == w.proto.bots[b])
    && t.proto.Files() == Applied(c.lc, w.proto.Files(), Commit(p, job.appID, Append(job.repo, job.now, job.entry)))
  }

  /** A poll that is ready issues, and is cut off before it can say so. */
  function OneIssue(p: nat): seq<Action> {
    ToLedger(p) + CutAfterWrite(p)
  }

  ghost predicate Sane(c: Config, w: World) {
    c.lc.Faithful() && HealthyFiles(c.lc, w.proto.Files()) && forall b :: b in w.proto.bots ==>
        History.GoodJob(w.proto.bots[b].job)
  }

  lemma IssuesAndStops(c: Config, w: World, p: nat)
    requires ReadyToIssue(c, w, p) && Sane(c, w)
    ensures var t := Run(c, w, OneIssue(p));
            && t.pcs == w.pcs[p := Over(true)]
            && t.issues == w.issues && t.files == w.files && t.hidden == w.hidden && t.clock == w.clock
            && p in t.evidence && t.evidence[p].prior.nonce ==
                 StageOf(IssueAt(w, c.polls[p].issue).comments, w.clock).nonce
            && WroteOnce(c, w, t, p)
  {
    RunAppend(c, w, ToLedger(p), CutAfterWrite(p));
    ReachesLedger(c, w, p);
    WritesAndStops(c, Run(c, w, ToLedger(p)), p);
  }

  /** After the first poll's write the ledger still lets the same repo in. */
  lemma SameRepoAllowed(c: Config, w: World, t: World, p: nat)
    requires ReadyToIssue(c, w, p) && Sane(c, w) && WroteOnce(c, w, t, p)
    ensures HealthyFiles(c.lc, t.proto.Files())
    ensures Decide(LedgerOf(c.lc, t.proto.Files(), c.polls[p].resolved.n.appID), c.polls[p].resolved.n.repo) == Allowed
  {
    var job := w.proto.bots[p].job;
    CommitKeepsHistory(c.lc, w.proto.Files(), Commit(p, job.appID, Append(job.repo, job.now, job.entry)));
  }

  lemma SecondReady(c: Config, w: World, t: World, p: nat, q: nat)
    requires ReadyToIssue(c, w, p) && ReadyToIssue(c, w, q) && Sane(c, w) && SameIssue(c, p, q)
    requires c.polls[p].resolved == c.polls[q].resolved
    requires WroteOnce(c, w, t, p) && t.pcs == w.pcs[p := Over(true)]
    requires t.issues == w.issues && t.files == w.files && t.hidden == w.hidden && t.clock == w.clock
    ensures ReadyToIssue(c, t, q)
  {
    SameRepoAllowed(c, w, t, p);
  }

  lemma {:induction false} NoOverlapAppend(c: Config, w: World, a: seq<Action>, b: seq<Action>)
    requires NoOverlap(c, w, a) && NoOverlap(c, Run(c, w, a), b)
    ensures NoOverlap(c, w, a + b)
  {
    if b == [] {
      assert a + b == a;
    } else {
      var init := b[..|b| - 1];
      NoOverlapAppend(c, w, a, init);
      RunAppend(c, w, a, init);
      assert (a + b)[..|a + b| - 1] == a + init && (a + b)[|a + b| - 1] == b[|b| - 1];
    }
  }

  /** A stretch of a run that starts no poll, or starts one at its very beginning. */
  lemma {:induction false} StretchAlone(c: Config, w: World, acts: seq<Action>)
    requires acts != [] && (acts[0].Start? ==> Alone(c, w, acts[0].poll))
    requires forall i :: 1 <= i < |acts| ==> !acts[i].Start?
    ensures NoOverlap(c, w, acts)
  {
    var init := acts[..|acts| - 1];
    if init == [] {
      assert Run(c, w, init) == w;
    } else {
      StretchAlone(c, w, init);
    }
  }

  lemma OneIssueAlone(c: Config, w: World, p: nat)
    requires Alone(c, w, p)
    ensures NoOverlap(c, w, OneIssue(p))
  {
    StretchAlone(c, w, OneIssue(p));
  }

  lemma Reachable(c: Config, w: World, acts: seq<Action>)
    requires Initial(c, w) && History.GoodJobs(w.proto)
    ensures Sane(c, Run(c, w, acts))
  {
    PollsAreBots(c, w, acts);
    History.RunIsSound(c.lc, w.proto, LedgerMoves(c, w, acts));
  }

  lemma FirstIssue(c: Config, m: World, p: nat, q: nat)
    requires Sane(c, m) && SameIssue(c, p, q) && c.polls[p].resolved == c.polls[q].resolved
    requires ReadyToIssue(c, m, p) && ReadyToIssue(c, m, q)
    ensures var t := Run(c, m, OneIssue(p));
            && t.pcs == m.pcs[p := Over(true)]
            && ReadyToIssue(c, t, q) && Issued(c, t, p)
  {
    IssuesAndStops(c, m, p);
    SecondReady(c, m, Run(c, m, OneIssue(p)), p, q);
  }

  lemma SecondIssue(c: Config, t: World, p: nat, q: nat)
    requires Sane(c, t) && ReadyToIssue(c, t, q) && Issued(c, t, p) && p in t.proto.bots && p != q
    ensures var u := Run(c, t, OneIssue(q)); Issued(c, u, p) && Issued(c, u, q)
  {
    IssuesAndStops(c, t, q);
  }

  lemma StillAlone(c: Config, m: World, t: World, p: nat, q: nat)
    requires Alone(c, m, q) && t.pcs == m.pcs[p := Over(true)]
    ensures Alone(c, t, q)
  {}

  /** Whenever two polls of one request are ready to issue, one after the other, a fault after the
      first one's write makes both of them issue, though they never overlap. */
  lemma CutOffIssuesTwice(c: Config, w: World, acts: seq<Action>, p: nat, q: nat)
    requires Initial(c, w) && History.GoodJobs(w.proto) && NoOverlap(c, w, acts)
    requires SameIssue(c, p, q) && c.polls[p].resolved == c.polls[q].resolved
    requires ReadyToIssue(c, Run(c, w, acts), p) && ReadyToIssue(c, Run(c, w, acts), q)
    requires Alone(c, Run(c, w, acts), p) && Alone(c, Run(c, w, acts), q)
    ensures var all := acts + OneIssue(p) + OneIssue(q);
            && NoOverlap(c, w, all)
            && Issued(c, Run(c, w, all), p) && Issued(c, Run(c, w, all), q)
  {
    var m, first := Run(c, w, acts), acts + OneIssue(p);
    Reachable(c, w, acts);
    FirstIssue(c, m, p, q);
    RunAppend(c, w, acts, OneIssue(p));
    OneIssueAlone(c, m, p);
    NoOverlapAppend(c, w, acts, OneIssue(p));
    var t := Run(c, w, first);
    Reachable(c, w, first);
    SecondIssue(c, t, p, q);
    RunAppend(c, w, first, OneIssue(q));
    StillAlone(c, m, t, p, q);
    OneIssueAlone(c, t, q);
    NoOverlapAppend(c, w, first, OneIssue(q));
  }

  // ---- exactly when ----

  /** The request carries the label, and the poll has done nothing. */
  predicate ShutOut(c: Config, w: World, q: nat) {
    && q in c.polls && c.polls[q].EnrollPoll? && q in w.pcs && (w.pcs[q] == Ready || w.pcs[q].Over?)
    && Labelled(c, w, q) && Phase(w, q) == Protocol.Start
  }

  lemma LabelStays(c: Config, w: World, a: Action, q: nat)
    requires PollOnce.Inv(c, w) && Labelled(c, w, q)
    ensures Labelled(c, Step(c, w, a), q)
  {
    match a
    case Act(p) =>
      assert Single(c, w, p);
      if Runs(c, w, p) && w.pcs[p].Doing? {
        ActedPc(c, w, p);
      }
    case _ =>
      assert Step(c, w, a).issues == w.issues;
  }

  lemma ReadyStays(c: Config, w: World, a: Action, q: nat)
    requires ShutOut(c, w, q) && w.pcs[q] == Ready
    ensures var t := Step(c, w, a); q in t.pcs && (t.pcs[q] == Ready || t.pcs[q].Over?) && Phase(t, q) == Protocol.Start
  {
    match a
    case OnLedger(action) =>
      if MayMove(c, w, action.bot) {
        OnlyOneBot(c, w, action);
      }
    case Start(p) => OtherStepsKeepProto(c, w, a);
    case _ => OtherStepsKeepProto(c, w, a);
  }

  lemma StaysShutOut(c: Config, w: World, a: Action, q: nat)
    requires PollOnce.Inv(c, w) && ShutOut(c, w, q)
    ensures ShutOut(c, Step(c, w, a), q)
  {
    LabelStays(c, w, a, q);
    if w.pcs[q] == Ready {
      ReadyStays(c, w, a, q);
    } else {
      OverStep(c, w, a, q);
    }
  }

  lemma {:induction false} ShutOutForGood(c: Config, w: World, acts: seq<Action>, k: nat, q: nat)
    requires Initial(c, w) && NoOverlap(c, w, acts) && k <= |acts| && ShutOut(c, Run(c, w, acts[..k]), q)
    ensures ShutOut(c, Run(c, w, acts), q)
  {
    assert acts[..|acts|] == acts;
    if k < |acts| {
      var init := acts[..|acts| - 1];
      assert init[..k] == acts[..k];
      ShutOutForGood(c, w, init, k, q);
      RunOnce(c, w, init);
      StaysShutOut(c, Run(c, w, init), acts[|acts| - 1], q);
    }
  }

  /** Some way of going on, without overlaps, in which the poll issues. */
  ghost predicate CanIssue(c: Config, w: World, acts: seq<Action>, q: nat) {
    exists more :: NoOverlap(c, w, acts + more) && Issued(c, Run(c, w, acts + more), q)
  }

  /** Whatever other polls of the request have committed, one that is otherwise ready can issue if and
      only if the label is missing. */
  lemma CanIssueIffUnlabelled(c: Config, w: World, acts: seq<Action>, q: nat)
    requires Initial(c, w) && History.GoodJobs(w.proto) && NoOverlap(c, w, acts)
    requires OtherwiseReady(c, Run(c, w, acts), q) && Alone(c, Run(c, w, acts), q)
    ensures CanIssue(c, w, acts, q) <==> !Labelled(c, Run(c, w, acts), q)
  {
    var m := Run(c, w, acts);
    if Labelled(c, m, q) {
      forall more | NoOverlap(c, w, acts + more)
        ensures !Issued(c, Run(c, w, acts + more), q)
      {
        assert (acts + more)[..|acts|] == acts;
        ShutOutForGood(c, w, acts + more, |acts|, q);
      }
    } else {
      IssuesNow(c, w, acts, q);
    }
  }

  lemma IssuesNow(c: Config, w: World, acts: seq<Action>, q: nat)
    requires Initial(c, w) && History.GoodJobs(w.proto) && NoOverlap(c, w, acts)
    requires ReadyToIssue(c, Run(c, w, acts), q) && Alone(c, Run(c, w, acts), q)
    ensures NoOverlap(c, w, acts + OneIssue(q)) && Issued(c, Run(c, w, acts + OneIssue(q)), q)
  {
    Reachable(c, w, acts);
    IssuesAndStops(c, Run(c, w, acts), q);
    RunAppend(c, w, acts, OneIssue(q));
    OneIssueAlone(c, Run(c, w, acts), q);
    NoOverlapAppend(c, w, acts, OneIssue(q));
  }
}
