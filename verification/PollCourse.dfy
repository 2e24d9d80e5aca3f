/** The polls of the polling model are the pipelines: left alone, a poll does to its issue and to the
    ledgers exactly what enroll.Process or revoke.Process does when nobody interferes. */
module PollCourse {
  import opened Wrappers
  import opened Ledger
  import opened Updates
  import opened Store
  import opened Polls
  import opened PollRun
  import opened Polling
  import opened PollTwice
  import Challenge
  import Enroll
  import Form
  import History
  import Protocol
  import Races
  import Random
  import Revoke

  // ---- a poll left alone ----

  /** The poll's own next step. */
  function Next(c: Config, w: World, p: nat): Action
    requires Runs(c, w, p)
  {
    match w.pcs[p]
    case Ready => Start(p)
    case Reading => ReadComments(p)
    case Checking(_, _) => FetchFile(p)
    case AtLedger =>
      if Phase(w, p).Done? then Settle(p)
      else Action.OnLedger(if Phase(w, p).Holding? then Protocol.Put(p, false) else Protocol.Get(p))
    case Doing(_) => Act(p)
    case Over(_) => Tick(w.clock)
  }

  predicate NextIs(c: Config, p: nat, w: World, t: World) {
    Runs(c, w, p) && !w.pcs[p].Over? && t == Step(c, w, Next(c, w, p))
  }

  /** The worlds a poll goes through when nobody else moves. */
  predicate Trace(c: Config, p: nat, ws: seq<World>) {
    ws != [] && forall i :: 0 <= i < |ws| - 1 ==> NextIs(c, p, ws[i], ws[i + 1])
  }

  ghost predicate Leads(c: Config, p: nat, w: World, ws: seq<World>, t: World) {
    Trace(c, p, ws) && ws[0] == w && ws[|ws| - 1] == t
  }

  lemma FirstStep(c: Config, p: nat, w: World, m: World, ws: seq<World>, t: World)
    requires NextIs(c, p, w, m) && Leads(c, p, m, ws, t)
    ensures Leads(c, p, w, [w] + ws, t)
  {
    var all := [w] + ws;
    forall i | 0 <= i < |all| - 1
      ensures NextIs(c, p, all[i], all[i + 1])
    {
      if i > 0 {
        assert all[i] == ws[i - 1] && all[i + 1] == ws[i];
      }
    }
  }

  /** Every trace from `m` is one from `w`, with `w` in front. */
  ghost predicate Precedes(c: Config, p: nat, w: World, m: World) {
    forall ws, t :: Leads(c, p, m, ws, t) ==> Leads(c, p, w, [w] + ws, t)
  }

  lemma NextPrecedes(c: Config, p: nat, w: World, m: World)
    requires NextIs(c, p, w, m)
    ensures Precedes(c, p, w, m)
  {
    forall ws, t | Leads(c, p, m, ws, t)
      ensures Leads(c, p, w, [w] + ws, t)
    {
      FirstStep(c, p, w, m, ws, t);
    }
  }

  lemma NoStep(c: Config, p: nat, w: World)
    ensures Leads(c, p, w, [w], w)
  {}

  // ---- carrying out a plan ----

  lemma PerformFirst(s: IssueState, todo: seq<Effect>, now: int)
    requires todo != []
    ensures PerformAll(s, todo, now) == PerformAll(Perform(s, todo[0], now), todo[1..], now)
  {
    assert todo == [todo[0]] + todo[1..];
    assert [todo[0]][..0] == [];
    PerformAppend(s, [todo[0]], todo[1..], now);
  }

  /** The world after poll `p` has gone through what it had to do. */
  ghost predicate Carried(c: Config, w: World, t: World, p: nat, todo: seq<Effect>)
    requires p in c.polls
  {
    && p in t.pcs && t.pcs[p] == Over(false)
    && IssueAt(t, c.polls[p].issue) == PerformAll(IssueAt(w, c.polls[p].issue), todo, w.clock)
    && (forall n :: n != c.polls[p].issue ==> IssueAt(t, n) == IssueAt(w, n))
    && t.proto == w.proto
  }

  lemma ActOnce(c: Config, w: World, p: nat)
    requires Runs(c, w, p) && w.pcs[p].Doing?
    ensures Precedes(c, p, w, StepAct(c, w, p))
  {
    NextPrecedes(c, p, w, StepAct(c, w, p));
  }

  lemma {:induction false} CarriesOut(c: Config, w: World, p: nat) returns (ws: seq<World>, t: World)
    requires Runs(c, w, p) && w.pcs[p].Doing?
    ensures Leads(c, p, w, ws, t) && Carried(c, w, t, p, w.pcs[p].todo)
    decreases |w.pcs[p].todo|
  {
    var todo, n, m := w.pcs[p].todo, c.polls[p].issue, StepAct(c, w, p);
    ActOnce(c, w, p);
    if todo == [] {
      ws, t := [m], m;
      NoStep(c, p, m);
    } else {
      PerformFirst(IssueAt(w, n), todo, w.clock);
      ws, t := CarriesOut(c, m, p);
    }
    ws := [w] + ws;
  }

  // ---- the ledger work ----

  /** At the ledger with a bot that has not started, on ledgers that bots can live with. */
  ghost predicate AtLedgerWith(c: Config, w: World, p: nat, job: Protocol.Job) {
    && Sane(c, w) && Runs(c, w, p) && w.pcs[p] == AtLedger
    && p in w.proto.bots && w.proto.bots[p].phase == Protocol.Start && w.proto.bots[p].job == job
  }

  lemma BotMoves(c: Config, w: World, p: nat, a: Protocol.Action)
    requires Runs(c, w, p) && w.pcs[p] == AtLedger && !Phase(w, p).Done? && a.bot == p
    requires a == if Phase(w, p).Holding? then Protocol.Put(p, false) else Protocol.Get(p)
    ensures Precedes(c, p, w, w.(proto := Protocol.Step(c.lc, w.proto, a)))
  {
    NextPrecedes(c, p, w, w.(proto := Protocol.Step(c.lc, w.proto, a)));
  }

  lemma GetStops(lc: Codec, s: Protocol.State, p: nat, outcome: Protocol.Outcome)
    requires HealthyFiles(lc, s.Files()) && p in s.bots && s.bots[p].phase == Protocol.Start
    requires Protocol.Begin(s.bots[p].job, LedgerOf(lc, s.Files(), s.bots[p].job.appID)) == Protocol.Stop(outcome)
    ensures var t := Protocol.Step(lc, s, Protocol.Get(p));
            p in t.bots && t.bots[p].phase == Protocol.Done(outcome) && t.Files() == s.Files()
  {
    LoadedText(lc, s.Files(), s.bots[p].job.appID);
  }

  lemma GetHolds(lc: Codec, s: Protocol.State, p: nat, u: Update)
    requires HealthyFiles(lc, s.Files()) && p in s.bots && s.bots[p].phase == Protocol.Start
    requires Protocol.Begin(s.bots[p].job, LedgerOf(lc, s.Files(), s.bots[p].job.appID)) == Protocol.Go(u)
    ensures var t := Protocol.Step(lc, s, Protocol.Get(p)); p in t.bots && t.bots[p].phase.Holding?
  {
    Races.FirstGet(lc, s, p, u);
  }

  lemma SettleOnce(c: Config, w: World, p: nat, plan: seq<Effect>)
    requires Runs(c, w, p) && w.pcs[p] == AtLedger && Phase(w, p).Done?
    requires AfterLedger(c, c.polls[p], Phase(w, p).outcome) == Some(plan)
    ensures Precedes(c, p, w, Going(w, p, Doing(plan)))
  {
    NextPrecedes(c, p, w, Going(w, p, Doing(plan)));
  }

  lemma Settles(c: Config, w: World, p: nat, plan: seq<Effect>) returns (ws: seq<World>, t: World)
    requires Runs(c, w, p) && w.pcs[p] == AtLedger && Phase(w, p).Done?
    requires AfterLedger(c, c.polls[p], Phase(w, p).outcome) == Some(plan)
    ensures Leads(c, p, w, ws, t) && Carried(c, w, t, p, plan)
  {
    var m := Going(w, p, Doing(plan));
    SettleOnce(c, w, p, plan);
    ws, t := CarriesOut(c, m, p);
    ws := [w] + ws;
  }

  /** The poll is over, its issue shows the whole plan, and the ledgers its commit. */
  ghost predicate Followed(c: Config, w: World, t: World, p: nat, course: Course)
    requires p in c.polls
  {
    && p in t.pcs && t.pcs[p] == Over(!course.ok)
    && IssueAt(t, c.polls[p].issue) == PerformAll(IssueAt(w, c.polls[p].issue), course.plan, w.clock)
    && (forall n :: n != c.polls[p].issue ==> IssueAt(t, n) == IssueAt(w, n))
    && t.proto.Files() == match course.commit {
                            case None => w.proto.Files()
                            case Some((appID, u)) => Applied(c.lc, w.proto.Files(), Commit(p, appID, u))
                          }
  }

  lemma FollowedFrom(c: Config, w: World, m: World, t: World, p: nat, course: Course)
    requires p in c.polls && m.issues == w.issues && m.proto == w.proto && m.clock == w.clock
    requires Followed(c, m, t, p, course)
    ensures Followed(c, w, t, p, course)
  {
    assert forall n :: IssueAt(m, n) == IssueAt(w, n);
  }

  lemma SameLedger(c: Config, w: World, m: World, p: nat, job: Protocol.Job)
    requires p in c.polls && p in w.pcs && p in m.pcs && m.proto == w.proto
    requires AtLedgerWith(c, Going(w, p, AtLedger), p, job)
    ensures AtLedgerWith(c, Going(m, p, AtLedger), p, job)
  {}

  /** The ledger stops the poll. */
  lemma StoppedPoll(c: Config, w: World, p: nat, job: Protocol.Job, outcome: Protocol.Outcome, plan: seq<Effect>)
    returns (ws: seq<World>, t: World)
    requires AtLedgerWith(c, w, p, job)
    requires Protocol.Begin(job, LedgerOf(c.lc, w.proto.Files(), job.appID)) == Protocol.Stop(outcome)
    requires AfterLedger(c, c.polls[p], outcome) == Some(plan)
    ensures Leads(c, p, w, ws, t) && Followed(c, w, t, p, Course(None, plan, true))
  {
    GetStops(c.lc, w.proto, p, outcome);
    BotMoves(c, w, p, Protocol.Get(p));
    var m := w.(proto := Protocol.Step(c.lc, w.proto, Protocol.Get(p)));
    ws, t := Settles(c, m, p, plan);
    ws := [w] + ws;
  }

  /** The poll commits. */
  lemma CommittingPoll(c: Config, w: World, p: nat, job: Protocol.Job, u: Update, plan: seq<Effect>)
    returns (ws: seq<World>, t: World)
    requires AtLedgerWith(c, w, p, job)
    requires Protocol.Begin(job, LedgerOf(c.lc, w.proto.Files(), job.appID)) == Protocol.Go(u)
    requires Sound(LedgerOf(c.lc, w.proto.Files(), job.appID), job.appID, u)
    requires AfterLedger(c, c.polls[p], Protocol.Committed) == Some(plan)
    ensures Leads(c, p, w, ws, t) && Followed(c, w, t, p, Course(Some((job.appID, u)), plan, true))
  {
    var s1 := Protocol.Step(c.lc, w.proto, Protocol.Get(p));
    var s2 := Races.SoloCommit(c.lc, w.proto, p, u);
    GetHolds(c.lc, w.proto, p, u);
    BotMoves(c, w, p, Protocol.Get(p));
    BotMoves(c, w.(proto := s1), p, Protocol.Put(p, false));
    ws, t := Settles(c, w.(proto := s2), p, plan);
    ws := [w.(proto := s1)] + ws;
    ws := [w] + ws;
  }

  // ---- what each stage of the pipeline says about the course, in the terms of the model ----

  predicate LedgerSays(c: Config, p: nat, existing: Option<Ledger>, course: Course)
    requires p in c.polls && JobOf(c.polls[p]).Some?
  {
    var job := JobOf(c.polls[p]).value;
    match Protocol.Begin(job, existing)
    case Stop(outcome) =>
      course == Course(None, course.plan, true) && AfterLedger(c, c.polls[p], outcome) == Some(course.plan)
    case Go(u) =>
      course == Course(Some((job.appID, u)), course.plan, true) &&
          AfterLedger(c, c.polls[p], Protocol.Committed) == Some(course.plan)
  }

  ghost function LedgerNow(c: Config, w: World, p: nat): Option<Ledger>
    requires p in c.polls && JobOf(c.polls[p]).Some?
  {
    LedgerOf(c.lc, w.proto.Files(), JobOf(c.polls[p]).value.appID)
  }

  ghost predicate CommentsSay(c: Config, w: World, p: nat, course: Course)
    requires p in c.polls && c.polls[p].EnrollPoll? && JobOf(c.polls[p]).Some?
  {
    match StageOf(IssueAt(w, c.polls[p].issue).comments, w.clock)
    case PostNew => course == Course(None, ChallengePlan(c.o, c.polls[p].nonce), true)
    case Expire => course == Course(None, RefusalPlan(c.o, ChallengeExpired), true)
    case Await(nonce) => if FileMatches(w, RepoOf(c.polls[p]), nonce)
        then LedgerSays(c, p, LedgerNow(c, w, p), course) else course == NOTHING
  }

  ghost predicate FormSays(c: Config, w: World, p: nat, course: Course)
    requires p in c.polls && c.polls[p].EnrollPoll?
  {
    if LABEL_ISSUED in IssueAt(w, c.polls[p].issue).labels then course == NOTHING
    else match c.polls[p].resolved
         case ReadFailed => false
         case TurnedAway(r) => course == Course(None, RefusalPlan(c.o, r), true)
         case Claims(n) => n.Named? && CommentsSay(c, w, p, course)
  }

  // ---- and the poll does what they say ----

  lemma SoundAppend(c: Config, w: World, p: nat, u: Update)
    requires Sane(c, w) && p in w.proto.bots && w.proto.bots[p].job.Issue?
    requires Protocol.Begin(w.proto.bots[p].job, LedgerOf(c.lc, w.proto.Files(), w.proto.bots[p].job.appID)) ==
               Protocol.Go(u)
    ensures Sound(LedgerOf(c.lc, w.proto.Files(), w.proto.bots[p].job.appID), w.proto.bots[p].job.appID, u)
  {
    assert History.GoodJob(w.proto.bots[p].job);
  }

  lemma FromLedger(c: Config, w: World, p: nat, course: Course) returns (ws: seq<World>, t: World)
    requires p in c.polls && c.polls[p].EnrollPoll? && JobOf(c.polls[p]).Some?
    requires AtLedgerWith(c, w, p, JobOf(c.polls[p]).value) && LedgerSays(c, p, LedgerNow(c, w, p), course)
    ensures Leads(c, p, w, ws, t) && Followed(c, w, t, p, course)
  {
    var job := JobOf(c.polls[p]).value;
    match Protocol.Begin(job, LedgerNow(c, w, p)) {
      case Stop(outcome) =>
        ws, t := StoppedPoll(c, w, p, job, outcome, course.plan);
      case Go(u) =>
        SoundAppend(c, w, p, u);
        ws, t := CommittingPoll(c, w, p, job, u, course.plan);
    }
  }

  lemma FetchNext(c: Config, w: World, p: nat)
    requires Runs(c, w, p) && w.pcs[p].Checking?
    ensures Precedes(c, p, w, StepFetch(c, w, p))
    ensures var f := StepFetch(c, w, p);
            && f.issues == w.issues && f.proto == w.proto && f.clock == w.clock
            && f.pcs == w.pcs[p := if FileMatches(w, RepoOf(c.polls[p]), w.pcs[p].prior.nonce) then AtLedger
                              else Over(false)]
  {
    NextPrecedes(c, p, w, StepFetch(c, w, p));
  }

  lemma FromFile(c: Config, w: World, p: nat, course: Course) returns (ws: seq<World>, t: World)
    requires Runs(c, w, p) && w.pcs[p].Checking? && c.polls[p].EnrollPoll? && JobOf(c.polls[p]).Some?
    requires AtLedgerWith(c, Going(w, p, AtLedger), p, JobOf(c.polls[p]).value)
    requires if FileMatches(w, RepoOf(c.polls[p]), w.pcs[p].prior.nonce)
               then LedgerSays(c, p, LedgerNow(c, w, p), course) else course == NOTHING
    ensures Leads(c, p, w, ws, t) && Followed(c, w, t, p, course)
  {
    var f := StepFetch(c, w, p);
    FetchNext(c, w, p);
    if f.pcs[p] == AtLedger {
      ws, t := FromLedger(c, f, p, course);
    } else {
      ws, t := [f], f;
      NoStep(c, p, f);
    }
    ws := [w] + ws;
  }

  lemma ReadNext(c: Config, w: World, p: nat) returns (m: World)
    requires Runs(c, w, p) && w.pcs[p] == Reading && c.polls[p].EnrollPoll?
    ensures Precedes(c, p, w, m)
    ensures m.issues == w.issues && m.proto == w.proto && m.clock == w.clock && m.files == w.files
    ensures m.hidden == w.hidden && m.pcs.Keys == w.pcs.Keys
    ensures m.pcs == w.pcs[p := m.pcs[p]]
    ensures match StageOf(IssueAt(w, c.polls[p].issue).comments, w.clock) {
              case PostNew => m.pcs[p] == Doing(ChallengePlan(c.o, c.polls[p].nonce))
              case Expire => m.pcs[p] == Doing(RefusalPlan(c.o, ChallengeExpired))
              case Await(nonce) => m.pcs[p].Checking? && m.pcs[p].prior.nonce == nonce
            }
  {
    m := StepRead(c, w, p);
    NextPrecedes(c, p, w, m);
  }

  lemma FromComments(c: Config, w: World, p: nat, course: Course) returns (ws: seq<World>, t: World)
    requires Runs(c, w, p) && w.pcs[p] == Reading && c.polls[p].EnrollPoll? && JobOf(c.polls[p]).Some?
    requires AtLedgerWith(c, Going(w, p, AtLedger), p, JobOf(c.polls[p]).value)
    requires CommentsSay(c, w, p, course)
    ensures Leads(c, p, w, ws, t) && Followed(c, w, t, p, course)
  {
    var m := ReadNext(c, w, p);
    ws, t := AfterReading(c, w, m, p, course);
    FollowedFrom(c, w, m, t, p, course);
    ws := [w] + ws;
  }

  lemma AfterReading(c: Config, w: World, m: World, p: nat, course: Course) returns (ws: seq<World>, t: World)
    requires p in w.pcs && p in m.pcs && p in c.polls && c.polls[p].EnrollPoll? && JobOf(c.polls[p]).Some?
    requires AtLedgerWith(c, Going(w, p, AtLedger), p, JobOf(c.polls[p]).value)
    requires CommentsSay(c, w, p, course) && m.files == w.files && m.hidden == w.hidden && m.proto == w.proto
    requires match StageOf(IssueAt(w, c.polls[p].issue).comments, w.clock) {
               case PostNew => m.pcs[p] == Doing(ChallengePlan(c.o, c.polls[p].nonce))
               case Expire => m.pcs[p] == Doing(RefusalPlan(c.o, ChallengeExpired))
               case Await(nonce) => m.pcs[p].Checking? && m.pcs[p].prior.nonce == nonce
             }
    ensures Leads(c, p, m, ws, t) && Followed(c, m, t, p, course)
  {
    if m.pcs[p].Checking? {
      CommentsAwait(c, w, m, p, course);
      SameLedger(c, w, m, p, JobOf(c.polls[p]).value);
      ws, t := FromFile(c, m, p, course);
    } else {
      CommentsTalk(c, w, m, p, course);
      ws, t := TalksOn(c, m, p, course);
    }
  }

  lemma TalksOn(c: Config, w: World, p: nat, course: Course) returns (ws: seq<World>, t: World)
    requires Runs(c, w, p) && course.ok && course.commit.None? && w.pcs[p] == Doing(course.plan)
    ensures Leads(c, p, w, ws, t) && Followed(c, w, t, p, course)
  {
    ws, t := CarriesOut(c, w, p);
  }

  lemma CommentsTalk(c: Config, w: World, m: World, p: nat, course: Course)
    requires p in c.polls && c.polls[p].EnrollPoll? && JobOf(c.polls[p]).Some? && CommentsSay(c, w, p, course)
    requires p in m.pcs
    requires match StageOf(IssueAt(w, c.polls[p].issue).comments, w.clock) {
              case PostNew => m.pcs[p] == Doing(ChallengePlan(c.o, c.polls[p].nonce))
              case Expire => m.pcs[p] == Doing(RefusalPlan(c.o, ChallengeExpired))
              case Await(_) => false
            }
    ensures course.ok && course.commit.None? && m.pcs[p] == Doing(course.plan)
  {}

  lemma CommentsAwait(c: Config, w: World, m: World, p: nat, course: Course)
    requires p in c.polls && c.polls[p].EnrollPoll? && JobOf(c.polls[p]).Some? && CommentsSay(c, w, p, course)
    requires p in m.pcs && m.pcs[p].Checking? && m.files == w.files && m.hidden == w.hidden && m.proto == w.proto
    requires StageOf(IssueAt(w, c.polls[p].issue).comments, w.clock) == Await(m.pcs[p].prior.nonce)
    ensures if FileMatches(m, RepoOf(c.polls[p]), m.pcs[p].prior.nonce)
              then LedgerSays(c, p, LedgerNow(c, m, p), course) else course == NOTHING
  {}

  lemma StartNext(c: Config, w: World, p: nat)
    requires Runs(c, w, p) && w.pcs[p] == Ready && c.polls[p].EnrollPoll?
    ensures Precedes(c, p, w, Going(w, p, Started(c, c.polls[p], IssueAt(w, c.polls[p].issue).labels)))
  {
    NextPrecedes(c, p, w, Going(w, p, Started(c, c.polls[p], IssueAt(w, c.polls[p].issue).labels)));
  }

  lemma FromStart(c: Config, w: World, p: nat, course: Course) returns (ws: seq<World>, t: World)
    requires Runs(c, w, p) && w.pcs[p] == Ready && c.polls[p].EnrollPoll?
    requires JobOf(c.polls[p]).Some? ==> AtLedgerWith(c, Going(w, p, AtLedger), p, JobOf(c.polls[p]).value)
    requires FormSays(c, w, p, course)
    ensures Leads(c, p, w, ws, t) && Followed(c, w, t, p, course)
  {
    var m := Going(w, p, Started(c, c.polls[p], IssueAt(w, c.polls[p].issue).labels));
    StartNext(c, w, p);
    match m.pcs[p] {
      case Over(_) =>
        ws, t := [m], m;
        NoStep(c, p, m);
      case Doing(_) =>
        ws, t := TalksOn(c, m, p, course);
      case _ =>
        ws, t := FromComments(c, m, p, course);
    }
    ws := [w] + ws;
  }

  // ---- what the pipeline of the code says ----

  /** The fixed part of a poll is what the pipeline would read from the issue and the files, and draw
      from its random stream. */
  predicate DrawnFrom(c: Config, p: nat, issue: Issue, v: Enroll.Visible, now: int, stream: seq<Random.Byte>) {
    && p in c.polls && c.polls[p].EnrollPoll? && c.polls[p].issue == issue.number && c.polls[p].now == now
    && c.polls[p].resolved == Enroll.ResolvedIn(c.o, issue.body, v)
    && (|stream| >= Challenge.NONCE_BYTES ==> c.polls[p].nonce == Challenge.HexEncode(stream[..Challenge.NONCE_BYTES]))
    && (JobOf(c.polls[p]).Some? ==> LeafDrawn(c, p, issue, now, stream))
  }

  predicate LeafDrawn(c: Config, p: nat, issue: Issue, now: int, stream: seq<Random.Byte>)
    requires p in c.polls && c.polls[p].EnrollPoll? && JobOf(c.polls[p]).Some?
  {
    var n := c.polls[p].resolved.n;
    Form.IndexOfSlash(n.repo) >= 0 && SignedLeaf(c.o, n, now, stream).Some? ==>
      var leaf := SignedLeaf(c.o, n, now, stream).value;
      c.polls[p].entry == EntryFor(c.o, issue, leaf) && c.polls[p].text == c.o.delivery(n.appID, leaf.der)
  }

  lemma OwnerSays(c: Config, p: nat, issue: Issue, now: int, stream: seq<Random.Byte>, existing: Option<Ledger>,
                  course: Course)
    requires p in c.polls && c.polls[p].EnrollPoll? && JobOf(c.polls[p]).Some? && c.polls[p].now == now
    requires LeafDrawn(c, p, issue, now, stream)
    requires course == Enroll.CourseOfOwner(c.o, issue, c.polls[p].resolved.n, now, existing, stream) && course.ok
    ensures LedgerSays(c, p, existing, course)
  {}

  lemma ControlSays(c: Config, w: World, p: nat, issue: Issue, stream: seq<Random.Byte>, course: Course)
    requires p in c.polls && c.polls[p].EnrollPoll? && JobOf(c.polls[p]).Some? && c.polls[p].now == w.clock
    requires HealthyFiles(c.lc, w.proto.Files())
    requires |stream| >= Challenge.NONCE_BYTES ==>
               c.polls[p].nonce == Challenge.HexEncode(stream[..Challenge.NONCE_BYTES])
    requires LeafDrawn(c, p, issue, w.clock, stream)
    requires var n := c.polls[p].resolved.n;
             var control := Enroll.ControlIn(IssueAt(w, c.polls[p].issue).comments, w.clock, n.repo,
                                             Enroll.Visible(w.files, w.hidden));
             course == Enroll.CourseOfControl(c.lc, c.o, issue, n, control, w.clock, w.proto.Files(), stream) &&
                 course.ok
    ensures CommentsSay(c, w, p, course)
  {
    var n := c.polls[p].resolved.n;
    var control := Enroll.ControlIn(IssueAt(w, c.polls[p].issue).comments, w.clock, n.repo,
                                    Enroll.Visible(w.files, w.hidden));
    LoadedText(c.lc, w.proto.Files(), n.appID);
    if control == Enroll.Proven {
      ProvenSays(c, w, p, issue, stream, course);
    }
  }

  lemma ProvenSays(c: Config, w: World, p: nat, issue: Issue, stream: seq<Random.Byte>, course: Course)
    requires p in c.polls && c.polls[p].EnrollPoll? && JobOf(c.polls[p]).Some? && c.polls[p].now == w.clock
    requires HealthyFiles(c.lc, w.proto.Files()) && LeafDrawn(c, p, issue, w.clock, stream)
    requires course == Enroll.CourseOfLedger(c.lc, c.o, issue, c.polls[p].resolved.n, w.clock, w.proto.Files(),
                                             stream) && course.ok
    ensures LedgerSays(c, p, LedgerNow(c, w, p), course)
  {
    LoadedText(c.lc, w.proto.Files(), c.polls[p].resolved.n.appID);
    OwnerSays(c, p, issue, w.clock, stream, LedgerNow(c, w, p), course);
  }

  lemma CourseSays(c: Config, w: World, p: nat, issue: Issue, stream: seq<Random.Byte>, course: Course)
    requires DrawnFrom(c, p, issue, Enroll.Visible(w.files, w.hidden), w.clock, stream)
    requires HealthyFiles(c.lc, w.proto.Files())
    requires LABEL_ISSUED in issue.labels <==> LABEL_ISSUED in IssueAt(w, issue.number).labels
    requires course == Enroll.CourseOf(c.lc, c.o, issue, IssueAt(w, issue.number).comments, w.clock,
                                       Enroll.Visible(w.files, w.hidden), w.proto.Files(), stream)
    requires course.ok
    ensures FormSays(c, w, p, course)
  {
    if LABEL_ISSUED !in issue.labels && c.polls[p].resolved.Claims? {
      ControlSays(c, w, p, issue, stream, course);
    }
  }

  /** A poll that ends in an error settled on nothing: it is one that is cut off at once. */
  lemma ErrorIsCut(c: Config, w: World, p: nat)
    requires Runs(c, w, p) && w.pcs[p] == Ready
    ensures Followed(c, w, Step(c, w, Cut(p)), p, ERROR)
  {
    assert PerformAll(IssueAt(w, c.polls[p].issue), [], w.clock) == IssueAt(w, c.polls[p].issue);
  }

  /** `ws` are the poll's own steps from `w` to `t`; a poll that fails is cut off. */
  ghost predicate Ends(c: Config, p: nat, w: World, ws: seq<World>, t: World, course: Course) {
    if course.ok then Leads(c, p, w, ws, t) else t == Step(c, w, Cut(p))
  }

  /** Left alone, a poll that reads and draws what enroll.Process would does what enroll.Process does:
      the same effects on its issue, the same commit, the same report, and nothing else. */
  lemma PollFollowsPipeline(c: Config, w: World, p: nat, issue: Issue, stream: seq<Random.Byte>, course: Course)
    returns (ws: seq<World>, t: World)
    requires Runs(c, w, p) && w.pcs[p] == Ready && Sane(c, w)
    requires DrawnFrom(c, p, issue, Enroll.Visible(w.files, w.hidden), w.clock, stream)
    requires JobOf(c.polls[p]).Some? ==>
               p in w.proto.bots && w.proto.bots[p].phase == Protocol.Start &&
                   w.proto.bots[p].job == JobOf(c.polls[p]).value
    requires LABEL_ISSUED in issue.labels <==> LABEL_ISSUED in IssueAt(w, issue.number).labels
    requires course == Enroll.CourseOf(c.lc, c.o, issue, IssueAt(w, issue.number).comments, w.clock,
                                       Enroll.Visible(w.files, w.hidden), w.proto.Files(), stream)
    ensures Ends(c, p, w, ws, t, course) && Followed(c, w, t, p, course)
  {
    if course.ok {
      CourseSays(c, w, p, issue, stream, course);
      ws, t := FromStart(c, w, p, course);
    } else {
      Enroll.FailureIsError(c.lc, c.o, issue, IssueAt(w, issue.number).comments, w.clock,
                            Enroll.Visible(w.files, w.hidden), w.proto.Files(), stream);
      ErrorIsCut(c, w, p);
      ws, t := [w], Step(c, w, Cut(p));
    }
  }

  // ---- the same for revocation ----

  lemma SoundFlip(c: Config, w: World, p: nat, u: Update)
    requires Sane(c, w) && p in w.proto.bots && w.proto.bots[p].job.SelfRevoke?
    requires Protocol.Begin(w.proto.bots[p].job, LedgerOf(c.lc, w.proto.Files(), w.proto.bots[p].job.appID)) ==
               Protocol.Go(u)
    ensures Sound(LedgerOf(c.lc, w.proto.Files(), w.proto.bots[p].job.appID), w.proto.bots[p].job.appID, u)
  {
    var job := w.proto.bots[p].job;
    assert History.GoodJob(job);
    var existing := LedgerOf(c.lc, w.proto.Files(), job.appID);
    LoadedText(c.lc, w.proto.Files(), job.appID);
    History.ChoiceStaysSound(job, existing, existing, u);
  }

  /** The poll's delivery text is the one for the certificate it finds. */
  predicate TextDrawn(c: Config, w: World, p: nat)
    requires p in c.polls && c.polls[p].RevokePoll? && JobOf(c.polls[p]).Some?
  {
    var job := JobOf(c.polls[p]).value;
    var existing := LedgerOf(c.lc, w.proto.Files(), job.appID);
    match Protocol.Begin(job, existing)
    case Stop(_) => true
    case Go(u) => c.polls[p].text == Revoke.RevokedText(c.o, job.appID, u, Revoke.SerialIn(existing, u))
  }

  lemma RevokeLedgerSays(c: Config, w: World, p: nat, course: Course)
    requires p in c.polls && c.polls[p].RevokePoll? && JobOf(c.polls[p]).Some? && TextDrawn(c, w, p)
    requires var pr := c.polls[p].presented;
             course == Revoke.CourseOfLedger(c.o, pr.appID, pr.fingerprint, LedgerNow(c, w, p))
    ensures LedgerSays(c, p, LedgerNow(c, w, p), course)
  {}

  lemma FromLedgerRevoking(c: Config, w: World, p: nat, course: Course) returns (ws: seq<World>, t: World)
    requires p in c.polls && c.polls[p].RevokePoll? && JobOf(c.polls[p]).Some?
    requires AtLedgerWith(c, w, p, JobOf(c.polls[p]).value) && LedgerSays(c, p, LedgerNow(c, w, p), course)
    ensures Leads(c, p, w, ws, t) && Followed(c, w, t, p, course)
  {
    var job := JobOf(c.polls[p]).value;
    match Protocol.Begin(job, LedgerNow(c, w, p)) {
      case Stop(outcome) =>
        ws, t := StoppedPoll(c, w, p, job, outcome, course.plan);
      case Go(u) =>
        SoundFlip(c, w, p, u);
        ws, t := CommittingPoll(c, w, p, job, u, course.plan);
    }
  }

  lemma RevokeStartNext(c: Config, w: World, p: nat)
    requires Runs(c, w, p) && w.pcs[p] == Ready && c.polls[p].RevokePoll?
    ensures Precedes(c, p, w, Going(w, p, Started(c, c.polls[p], IssueAt(w, c.polls[p].issue).labels)))
  {
    NextPrecedes(c, p, w, Going(w, p, Started(c, c.polls[p], IssueAt(w, c.polls[p].issue).labels)));
  }

  predicate RequestSays(c: Config, w: World, p: nat, course: Course)
    requires p in c.polls && c.polls[p].RevokePoll?
  {
    if LABEL_REVOKED in IssueAt(w, c.polls[p].issue).labels then course == NOTHING
    else match c.polls[p].presented
         case NotPresented(r) => course == Course(None, RefusalPlan(c.o, r), true)
         case Unknown => false
         case Presented(appID, _) => LedgerSays(c, p, LedgerOf(c.lc, w.proto.Files(), appID), course)
  }

  lemma RevokeCourseSays(c: Config, w: World, p: nat, issue: Issue, course: Course)
    requires p in c.polls && c.polls[p].RevokePoll? && c.polls[p].issue == issue.number
    requires HealthyFiles(c.lc, w.proto.Files())
    requires c.polls[p].presented == ReadRequest(c.o, issue.body) && (JobOf(c.polls[p]).Some? ==> TextDrawn(c, w, p))
    requires LABEL_REVOKED in issue.labels <==> LABEL_REVOKED in IssueAt(w, issue.number).labels
    requires course == Revoke.CourseOf(c.lc, c.o, issue, w.proto.Files()) && course.ok
    ensures RequestSays(c, w, p, course)
  {
    if LABEL_REVOKED !in issue.labels && c.polls[p].presented.Presented? {
      LoadedText(c.lc, w.proto.Files(), c.polls[p].presented.appID);
      RevokeLedgerSays(c, w, p, course);
    }
  }

  lemma FollowRevocation(c: Config, w: World, p: nat, issue: Issue, course: Course) returns (ws: seq<World>, t: World)
    requires Runs(c, w, p) && w.pcs[p] == Ready && Sane(c, w)
    requires c.polls[p].RevokePoll? && c.polls[p].issue == issue.number
    requires c.polls[p].presented == ReadRequest(c.o, issue.body) && (JobOf(c.polls[p]).Some? ==> TextDrawn(c, w, p))
    requires JobOf(c.polls[p]).Some? ==>
               p in w.proto.bots && w.proto.bots[p].phase == Protocol.Start &&
                   w.proto.bots[p].job == JobOf(c.polls[p]).value
    requires LABEL_REVOKED in issue.labels <==> LABEL_REVOKED in IssueAt(w, issue.number).labels
    requires course == Revoke.CourseOf(c.lc, c.o, issue, w.proto.Files()) && course.ok
    ensures Leads(c, p, w, ws, t) && Followed(c, w, t, p, course)
  {
    RevokeCourseSays(c, w, p, issue, course);
    RevokeStartNext(c, w, p);
    var m := Going(w, p, Started(c, c.polls[p], IssueAt(w, c.polls[p].issue).labels));
    match m.pcs[p] {
      case Over(_) =>
        ws, t := [m], m;
        NoStep(c, p, m);
      case Doing(_) =>
        ws, t := CarriesOut(c, m, p);
      case _ =>
        ws, t := FromLedgerRevoking(c, m, p, course);
    }
    ws := [w] + ws;
  }

  /** Left alone, a poll of a revocation request does what revoke.Process does. */
  lemma RevokePollFollowsPipeline(c: Config, w: World, p: nat, issue: Issue, course: Course)
    returns (ws: seq<World>, t: World)
    requires Runs(c, w, p) && w.pcs[p] == Ready && Sane(c, w)
    requires c.polls[p].RevokePoll? && c.polls[p].issue == issue.number
    requires c.polls[p].presented == ReadRequest(c.o, issue.body) && (JobOf(c.polls[p]).Some? ==> TextDrawn(c, w, p))
    requires JobOf(c.polls[p]).Some? ==>
               p in w.proto.bots && w.proto.bots[p].phase == Protocol.Start &&
                   w.proto.bots[p].job == JobOf(c.polls[p]).value
    requires LABEL_REVOKED in issue.labels <==> LABEL_REVOKED in IssueAt(w, issue.number).labels
    requires course == Revoke.CourseOf(c.lc, c.o, issue, w.proto.Files())
    ensures Ends(c, p, w, ws, t, course) && Followed(c, w, t, p, course)
  {
    if course.ok {
      ws, t := FollowRevocation(c, w, p, issue, course);
    } else {
      assert course == ERROR;
      ErrorIsCut(c, w, p);
      ws, t := [w], Step(c, w, Cut(p));
    }
  }
}
