/** Many polls of many issues, interleaved at every call and cut off at any point. The ledger side of
    a poll is a bot of the protocol; the rest of it reads comments and files and then carries out
    its plan one effect at a time. */
module Polling {
  import opened Wrappers
  import opened Ledger
  import opened Updates
  import opened Store
  import opened Polls
  import Challenge
  import Enroll
  import History
  import Protocol

  /** One poll. What it reads from the form and from info.xml, the nonce and the leaf it would draw,
      and the text it would deliver are fixed beforehand, arbitrarily; everything else it finds out
      as it runs. */
  datatype Poll =
    | EnrollPoll(issue: int, resolved: Enroll.Resolved, nonce: string, now: int, entry: Certificate, text: string)
    | RevokePoll(issue: int, presented: Presented, text: string)

  datatype Config = Config(lc: Codec, o: Oracles, polls: map<nat, Poll>)

  /** Where a poll stands; `cut` marks one that ended without finishing what it had begun. */
  datatype Pc =
    | Ready
    | Reading
    | Checking(prior: Challenge.Prior, readAt: int)
    | AtLedger
    | Doing(todo: seq<Effect>)
    | Over(cut: bool)

  /** What convinced a poll that its requester controls the repository. */
  datatype Evidence = Evidence(prior: Challenge.Prior, readAt: int, file: string)

  /** `hidden` are the repos that the bot's token cannot see; `evidence` is a history of the
      successful challenges by poll. */
  datatype World = World(
    proto: Protocol.State,
    issues: map<int, IssueState>,
    files: map<(string, string), string>,
    hidden: set<string>,
    clock: int,
    pcs: map<nat, Pc>,
    evidence: map<nat, Evidence>)

  datatype Action =
    | Start(poll: nat)
    | ReadComments(poll: nat)
    | FetchFile(poll: nat)
    | OnLedger(action: Protocol.Action)
    | Settle(poll: nat)
    | Act(poll: nat)
    | Cut(poll: nat)
    | Tick(time: int)
    | PutFile(repo: string, path: string, content: string)
    | DropFile(repo: string, path: string)
    | Hide(repo: string)
    | Show(repo: string)

  const BLANK := IssueState([], {}, false)

  function IssueAt(w: World, n: int): IssueState {
    if n in w.issues then w.issues[n] else BLANK
  }

  /** The bot that does a poll's ledger work. */
  function JobOf(p: Poll): Option<Protocol.Job> {
    match p
    case EnrollPoll(_, resolved, _, now, entry, _) =>
      if resolved.Claims? && resolved.n.Named?
      then Some(Protocol.Issue(resolved.n.appID, resolved.n.repo, now, entry))
      else None
    case RevokePoll(_, presented, _) =>
      if presented.Presented? then Some(Protocol.SelfRevoke(presented.appID, presented.fingerprint)) else None
  }

  // ---- steps ----

  function Going(w: World, p: nat, pc: Pc): World {
    w.(pcs := w.pcs[p := pc])
  }

  /** The first decision of a poll. */
  function Started(c: Config, poll: Poll, labels: set<string>): Pc {
    match poll
    case EnrollPoll(_, resolved, _, _, _, _) =>
      if LABEL_ISSUED in labels then Over(false)
      else
        (match resolved
         case ReadFailed => Over(true)
         case TurnedAway(r) => Doing(RefusalPlan(c.o, r))
         case Claims(_) => Reading)
    case RevokePoll(_, presented, _) =>
      if LABEL_REVOKED in labels then Over(false)
      else
        (match presented
         case NotPresented(r) => Doing(RefusalPlan(c.o, r))
         case Unknown => Over(true)
         case Presented(_, _) => AtLedger)
  }

  /** What an issuer makes of the comments it reads. */
  function AfterComments(c: Config, poll: Poll, comments: seq<Challenge.Comment>, now: int): Pc
    requires poll.EnrollPoll?
  {
    match StageOf(comments, now)
    case PostNew => Doing(ChallengePlan(c.o, poll.nonce))
    case Expire => Doing(RefusalPlan(c.o, ChallengeExpired))
    case Await(_) => Checking(Challenge.LastChallenge(comments).value, now)
  }

  function RepoOf(poll: Poll): string {
    if poll.EnrollPoll? && poll.resolved.Claims? && poll.resolved.n.Named? then poll.resolved.n.repo else ""
  }

  /** What is left to do once the ledger work is over; None for an error. */
  function AfterLedger(c: Config, poll: Poll, outcome: Protocol.Outcome): Option<seq<Effect>> {
    match poll
    case EnrollPoll(_, resolved, _, _, _, text) =>
      (match outcome
       case Committed => Some(IssuedPlan(text))
       case Rejected(d) =>
         if resolved.Claims? && resolved.n.Named? && Rejection(d, resolved.n.appID).Some?
         then Some(RefusalPlan(c.o, Rejection(d, resolved.n.appID).value))
         else None
       case _ => None)
    case RevokePoll(_, presented, text) =>
      (match outcome
       case Committed => Some(RevokedPlan(text))
       case AlreadyRevoked => Some(RevokedPlan(c.o.refusal(RevokedAlready)))
       case NotFound =>
         if presented.Presented? then Some(RefusalPlan(c.o, NotIssued(presented.fingerprint, presented.appID)))
             else None
       case _ => None)
  }

  function Phase(w: World, p: nat): Protocol.Phase {
    if p in w.proto.bots then w.proto.bots[p].phase else Protocol.Start
  }

  predicate Runs(c: Config, w: World, p: nat) {
    p in c.polls && p in w.pcs
  }

  function StepStart(c: Config, w: World, p: nat): World {
    if !Runs(c, w, p) || w.pcs[p] != Ready then w
    else Going(w, p, Started(c, c.polls[p], IssueAt(w, c.polls[p].issue).labels))
  }

  function StepRead(c: Config, w: World, p: nat): World {
    if !Runs(c, w, p) || w.pcs[p] != Reading || !c.polls[p].EnrollPoll? then w
    else
      var n := c.polls[p].issue;
      Going(w, p, AfterComments(c, c.polls[p], IssueAt(w, n).comments, w.clock))
  }

  /** The challenge file that the bot sees in a repo is the nonce. */
  predicate FileMatches(w: World, repo: string, nonce: string) {
    var key := (repo, Challenge.FILE_PATH);
    repo !in w.hidden && key in w.files && Challenge.Match(nonce, w.files[key])
  }

  function StepFetch(c: Config, w: World, p: nat): World {
    if !Runs(c, w, p) || !w.pcs[p].Checking? then w
    else
      var key := (RepoOf(c.polls[p]), Challenge.FILE_PATH);
      var prior := w.pcs[p].prior;
      if FileMatches(w, RepoOf(c.polls[p]), prior.nonce)
      then Going(w, p, AtLedger).(evidence := w.evidence[p := Evidence(prior, w.pcs[p].readAt, w.files[key])])
      else Going(w, p, Over(false))
  }

  /** A poll moves its bot only while it is at the ledger; other bots move freely. */
  predicate MayMove(c: Config, w: World, b: nat) {
    b in c.polls ==> b in w.pcs && w.pcs[b] == AtLedger
  }

  function StepLedger(c: Config, w: World, a: Protocol.Action): World {
    if MayMove(c, w, a.bot) then w.(proto := Protocol.Step(c.lc, w.proto, a)) else w
  }

  function StepSettle(c: Config, w: World, p: nat): World {
    if !Runs(c, w, p) || w.pcs[p] != AtLedger || !Phase(w, p).Done? then w
    else
      match AfterLedger(c, c.polls[p], Phase(w, p).outcome)
      case None => Going(w, p, Over(true))
      case Some(todo) => Going(w, p, Doing(todo))
  }

  function StepAct(c: Config, w: World, p: nat): World {
    if !Runs(c, w, p) || !w.pcs[p].Doing? then w
    else
      var todo := w.pcs[p].todo;
      var n := c.polls[p].issue;
      if todo == [] then Going(w, p, Over(false))
      else Going(w, p, Doing(todo[1..])).(issues := w.issues[n := Perform(IssueAt(w, n), todo[0], w.clock)])
  }

  function StepCut(c: Config, w: World, p: nat): World {
    if !Runs(c, w, p) || w.pcs[p].Over? then w else Going(w, p, Over(true))
  }

  function Step(c: Config, w: World, a: Action): World {
    match a
    case Start(p) => StepStart(c, w, p)
    case ReadComments(p) => StepRead(c, w, p)
    case FetchFile(p) => StepFetch(c, w, p)
    case OnLedger(action) => StepLedger(c, w, action)
    case Settle(p) => StepSettle(c, w, p)
    case Act(p) => StepAct(c, w, p)
    case Cut(p) => StepCut(c, w, p)
    case Tick(time) => if time > w.clock then w.(clock := time) else w
    case PutFile(repo, path, content) => w.(files := w.files[(repo, path) := content])
    case DropFile(repo, path) => w.(files := w.files - {(repo, path)})
    case Hide(repo) => w.(hidden := w.hidden + {repo})
    case Show(repo) => w.(hidden := w.hidden - {repo})
  }

  function Run(c: Config, w: World, acts: seq<Action>): World {
    if acts == [] then w else Step(c, Run(c, w, acts[..|acts| - 1]), acts[|acts| - 1])
  }

  // ---- where runs start ----

  /** Polls that turn an issue away never do it with a label that speaks of success. */
  predicate GoodPoll(p: Poll) {
    match p
    case EnrollPoll(issue, resolved, nonce, _, entry, _) =>
      && Challenge.IsNonce(nonce) && entry.issueRef == IssueRef(issue)
      && (resolved.TurnedAway? ==> LabelFor(resolved.r) != LABEL_ISSUED && LabelFor(resolved.r) != LABEL_REVOKED)
    case RevokePoll(_, presented, _) =>
      presented.NotPresented? ==> LabelFor(presented.r) != LABEL_ISSUED && LabelFor(presented.r) != LABEL_REVOKED
  }

  ghost predicate Initial(c: Config, w: World) {
    && History.AnyStart(c.lc, w.proto)
    && w.pcs.Keys == c.polls.Keys
    && (forall p :: p in c.polls ==> GoodPoll(c.polls[p]) && w.pcs[p] == Ready)
    && (forall p :: p in c.polls && JobOf(c.polls[p]).Some? ==>
        p in w.proto.bots && w.proto.bots[p].job == JobOf(c.polls[p]).value)
    && (forall p :: p in c.polls && JobOf(c.polls[p]).None? ==> p !in w.proto.bots)
    && (forall n :: n in w.issues ==>
          && w.issues[n].comments == []
          && LABEL_ISSUED !in w.issues[n].labels && LABEL_REVOKED !in w.issues[n].labels)
    && w.evidence == map[]
  }

  lemma RunOneMore(c: Config, w: World, acts: seq<Action>, a: Action)
    ensures Run(c, w, acts + [a]) == Step(c, Run(c, w, acts), a)
  {
    assert (acts + [a])[..|acts + [a]| - 1] == acts;
  }

  // ---- the ledger side is a run of the protocol ----

  /** The moves of the bots in a run of polls. */
  function LedgerMoves(c: Config, w: World, acts: seq<Action>): seq<Protocol.Action> {
    if acts == [] then []
    else
      var init, a := acts[..|acts| - 1], acts[|acts| - 1];
      LedgerMoves(c, w, init) +
      if a.OnLedger? && MayMove(c, Run(c, w, init), a.action.bot) then [a.action] else []
  }

  lemma OtherStepsKeepProto(c: Config, w: World, a: Action)
    requires !a.OnLedger?
    ensures Step(c, w, a).proto == w.proto
  {}

  /** Seen from the ledgers, polls are bots of the protocol. So every property of all interleavings
      of bots is one of all interleavings of polls. */
  lemma {:induction false} PollsAreBots(c: Config, w: World, acts: seq<Action>)
    ensures Run(c, w, acts).proto == Protocol.Run(c.lc, w.proto, LedgerMoves(c, w, acts))
  {
    if acts != [] {
      var init, a := acts[..|acts| - 1], acts[|acts| - 1];
      PollsAreBots(c, w, init);
      var moves := LedgerMoves(c, w, init);
      if a.OnLedger? {
        if MayMove(c, Run(c, w, init), a.action.bot) {
          Protocol.RunOneMore(c.lc, w.proto, moves, a.action);
        } else {
          assert moves + [] == moves;
        }
      } else {
        OtherStepsKeepProto(c, Run(c, w, init), a);
        assert moves + [] == moves;
      }
    }
  }

  /** A longer run of polls moves the bots further. */
  lemma {:induction false} MovesGrow(c: Config, w: World, acts: seq<Action>, n: nat)
    requires n <= |acts|
    ensures LedgerMoves(c, w, acts[..n]) <= LedgerMoves(c, w, acts)
  {
    if n < |acts| {
      MovesGrow(c, w, acts[..|acts| - 1], n);
      assert acts[..|acts| - 1][..n] == acts[..n];
    } else {
      assert acts[..n] == acts;
    }
  }
}
