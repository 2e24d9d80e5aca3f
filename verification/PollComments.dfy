/** What polls post on their issues, over runs of many polls: whose words each comment is in, how
    often a challenge is posted, and what an echoed marker does. */
module PollComments {
  import opened Wrappers
  import opened Ledger
  import opened Updates
  import opened Store
  import opened Polls
  import opened Polling
  import opened PollOnce
  import opened PollChallenge
  import Challenge
  import Protocol

  // ---- what is posted, and whose words it is ----

  predicate Marked(comment: Challenge.Comment) {
    Challenge.ParseNonce(comment.body).Some?
  }

  predicate NoneMarked(comments: seq<Challenge.Comment>) {
    forall i :: 0 <= i < |comments| ==> !Marked(comments[i])
  }

  predicate AtMostOneMarked(comments: seq<Challenge.Comment>) {
    forall i, j :: 0 <= i < j < |comments| ==> !(Marked(comments[i]) && Marked(comments[j]))
  }

  /** The poll has drawn a nonce and is about to post it. */
  predicate Challenging(c: Config, w: World, p: nat) {
    p in c.polls && p in w.pcs && c.polls[p].EnrollPoll? && w.pcs[p] == Doing(ChallengePlan(c.o, c.polls[p].nonce))
  }

  /** The step posts a comment on issue `n`. */
  predicate Posts(c: Config, w: World, a: Action, n: int) {
    && a.Act? && Runs(c, w, a.poll) && c.polls[a.poll].issue == n
    && w.pcs[a.poll].Doing? && w.pcs[a.poll].todo != [] && w.pcs[a.poll].todo[0].PostComment?
  }

  function PostedBy(w: World, a: Action): Challenge.Comment
    requires a.Act? && a.poll in w.pcs && w.pcs[a.poll].Doing? && w.pcs[a.poll].todo != []
    requires w.pcs[a.poll].todo[0].PostComment?
  {
    Challenge.Comment(w.pcs[a.poll].todo[0].body, w.clock)
  }

  predicate PostsChallenge(c: Config, w: World, a: Action, n: int) {
    Posts(c, w, a, n) && Challenging(c, w, a.poll)
  }

  /** The step posts a refusal or a delivery that contains a marker: words of the request echoed in
      the bot's own comment. */
  predicate PostsEcho(c: Config, w: World, a: Action, n: int) {
    Posts(c, w, a, n) && !Challenging(c, w, a.poll) && Marked(PostedBy(w, a))
  }

  lemma StepComments(c: Config, w: World, a: Action, n: int)
    ensures IssueAt(Step(c, w, a), n).comments == IssueAt(w, n).comments + if Posts(c, w, a, n) then [PostedBy(w, a)]
              else []
  {
    match a
    case Act(p) => ActComments(c, w, p, n);
    case _ =>
      assert Step(c, w, a).issues == w.issues;
      assert IssueAt(w, n).comments + [] == IssueAt(w, n).comments;
  }

  lemma ActComments(c: Config, w: World, p: nat, n: int)
    ensures IssueAt(StepAct(c, w, p), n).comments
            == IssueAt(w, n).comments + if Posts(c, w, Act(p), n) then [PostedBy(w, Act(p))] else []
  {
    assert IssueAt(w, n).comments + [] == IssueAt(w, n).comments;
  }

  lemma {:induction false} CommentsGrow(c: Config, w: World, acts: seq<Action>, k: nat, n: int)
    requires k <= |acts|
    ensures IssueAt(Run(c, w, acts[..k]), n).comments <= IssueAt(Run(c, w, acts), n).comments
  {
    if k == |acts| {
      assert acts[..k] == acts;
    } else {
      var init := acts[..|acts| - 1];
      CommentsGrow(c, w, init, k, n);
      assert init[..k] == acts[..k];
      StepComments(c, Run(c, w, init), acts[|acts| - 1], n);
    }
  }

  /** The texts, other than its challenge, that a poll can post on its issue. */
  predicate OwnText(c: Config, p: Poll, body: string) {
    match p
    case EnrollPoll(_, resolved, _, _, _, text) =>
      || body == text
      || body == c.o.refusal(ChallengeExpired)
      || (resolved.TurnedAway? && body == c.o.refusal(resolved.r))
      || (resolved.Claims? && resolved.n.Named? && body == c.o.refusal(Reserved(resolved.n.appID)))
      || (resolved.Claims? && resolved.n.Named? && body == c.o.refusal(OwnedByOther(resolved.n.appID)))
    case RevokePoll(_, presented, text) =>
      || body == text
      || body == c.o.refusal(RevokedAlready)
      || (presented.NotPresented? && body == c.o.refusal(presented.r))
      || (presented.Presented? && body == c.o.refusal(NotIssued(presented.fingerprint, presented.appID)))
  }

  /** A comment comes first in a plan or not at all, and it is the challenge or one of those texts. */
  predicate PlanOk(c: Config, p: Poll, todo: seq<Effect>) {
    && (forall i :: 1 <= i < |todo| ==> !todo[i].PostComment?)
    && (todo != [] && todo[0].PostComment? ==>
          OwnText(c, p, todo[0].body) || (p.EnrollPoll? && todo == ChallengePlan(c.o, p.nonce)))
  }

  predicate PlanInv(c: Config, w: World, p: nat) {
    p in c.polls && p in w.pcs && w.pcs[p].Doing? ==> PlanOk(c, c.polls[p], w.pcs[p].todo)
  }

  ghost predicate AllPlanned(c: Config, w: World) {
    forall p :: PlanInv(c, w, p)
  }

  lemma PlansOk(c: Config, p: Poll, r: Refusal, text: string)
    ensures OwnText(c, p, c.o.refusal(r)) ==> PlanOk(c, p, RefusalPlan(c.o, r))
    ensures OwnText(c, p, text) ==> PlanOk(c, p, IssuedPlan(text)) && PlanOk(c, p, RevokedPlan(text))
    ensures p.EnrollPoll? ==> PlanOk(c, p, ChallengePlan(c.o, p.nonce))
  {
    var a, b, d := RefusalPlan(c.o, r), IssuedPlan(text), RevokedPlan(text);
    assert a[0] == PostComment(c.o.refusal(r)) && a[1].SetLabels?;
    assert b[0] == PostComment(text) && b[1].SetLabels? && b[2].CloseIssue?;
    assert d[0] == PostComment(text) && d[1].SetLabels? && d[2].CloseIssue?;
    if p.EnrollPoll? {
      assert ChallengePlan(c.o, p.nonce)[1].SetLabels?;
    }
  }

  lemma StartedOk(c: Config, p: Poll, labels: set<string>)
    ensures Started(c, p, labels).Doing? ==> PlanOk(c, p, Started(c, p, labels).todo)
  {
    match p
    case EnrollPoll(_, resolved, _, _, _, _) =>
      if resolved.TurnedAway? {
        PlansOk(c, p, resolved.r, "");
      }
    case RevokePoll(_, presented, _) =>
      if presented.NotPresented? {
        PlansOk(c, p, presented.r, "");
      }
  }

  lemma SettledOk(c: Config, p: Poll, outcome: Protocol.Outcome)
    ensures var plan := AfterLedger(c, p, outcome); plan.Some? ==> PlanOk(c, p, plan.value)
  {
    PlansOk(c, p, BadCsr, p.text);
    PlansOk(c, p, BadCsr, c.o.refusal(RevokedAlready));
    match p
    case EnrollPoll(_, resolved, _, _, _, _) =>
      if resolved.Claims? && resolved.n.Named? {
        PlansOk(c, p, Reserved(resolved.n.appID), p.text);
        PlansOk(c, p, OwnedByOther(resolved.n.appID), p.text);
      }
    case RevokePoll(_, presented, _) =>
      if presented.Presented? {
        PlansOk(c, p, NotIssued(presented.fingerprint, presented.appID), p.text);
      }
  }

  lemma OnePlanned(c: Config, w: World, t: World, p: nat)
    requires AllPlanned(c, w) && PlanInv(c, t, p)
    requires forall q :: q != p && q in t.pcs ==> q in w.pcs && t.pcs[q] == w.pcs[q]
    ensures AllPlanned(c, t)
  {
    forall q
      ensures PlanInv(c, t, q)
    {
      assert PlanInv(c, w, q);
    }
  }

  lemma StepPlanned(c: Config, w: World, a: Action)
    requires AllPlanned(c, w)
    ensures AllPlanned(c, Step(c, w, a))
  {
    match a
    case Start(p) => StartPlanned(c, w, p);
    case ReadComments(p) => ReadPlanned(c, w, p);
    case FetchFile(p) =>
      assert PlanInv(c, w, p);
      OnePlanned(c, w, StepFetch(c, w, p), p);
    case Settle(p) => SettlePlanned(c, w, p);
    case Act(p) => ActPlanned(c, w, p);
    case Cut(p) =>
      assert PlanInv(c, w, p);
      OnePlanned(c, w, StepCut(c, w, p), p);
    case _ =>
      assert PlanInv(c, w, 0);
      OnePlanned(c, w, Step(c, w, a), 0);
  }

  lemma StartPlanned(c: Config, w: World, p: nat)
    requires AllPlanned(c, w)
    ensures AllPlanned(c, StepStart(c, w, p))
  {
    assert PlanInv(c, w, p);
    if p in c.polls {
      StartedOk(c, c.polls[p], IssueAt(w, c.polls[p].issue).labels);
    }
    OnePlanned(c, w, StepStart(c, w, p), p);
  }

  lemma ReadPlanned(c: Config, w: World, p: nat)
    requires AllPlanned(c, w)
    ensures AllPlanned(c, StepRead(c, w, p))
  {
    assert PlanInv(c, w, p);
    if p in c.polls {
      PlansOk(c, c.polls[p], ChallengeExpired, "");
    }
    OnePlanned(c, w, StepRead(c, w, p), p);
  }

  lemma SettlePlanned(c: Config, w: World, p: nat)
    requires AllPlanned(c, w)
    ensures AllPlanned(c, StepSettle(c, w, p))
  {
    assert PlanInv(c, w, p);
    if p in c.polls && Phase(w, p).Done? {
      SettledOk(c, c.polls[p], Phase(w, p).outcome);
    }
    OnePlanned(c, w, StepSettle(c, w, p), p);
  }

  lemma ActPlanned(c: Config, w: World, p: nat)
    requires AllPlanned(c, w)
    ensures AllPlanned(c, StepAct(c, w, p))
  {
    assert PlanInv(c, w, p);
    OnePlanned(c, w, StepAct(c, w, p), p);
  }

  lemma {:induction false} RunPlanned(c: Config, w: World, acts: seq<Action>)
    requires Initial(c, w)
    ensures AllPlanned(c, Run(c, w, acts))
  {
    if acts != [] {
      RunPlanned(c, w, acts[..|acts| - 1]);
      StepPlanned(c, Run(c, w, acts[..|acts| - 1]), acts[|acts| - 1]);
    }
  }

  // ---- a challenge is posted once ----

  /** A poll about to post a challenge has found none on its issue, and there still is none. */
  predicate FreshChallenge(c: Config, w: World, p: nat) {
    Challenging(c, w, p) ==> NoneMarked(IssueAt(w, c.polls[p].issue).comments)
  }

  ghost predicate AllFresh(c: Config, w: World) {
    forall p :: FreshChallenge(c, w, p)
  }

  lemma UnmarkedHasNone(comments: seq<Challenge.Comment>)
    ensures Challenge.LastChallenge(comments).None? <==> NoneMarked(comments)
  {
    if Challenge.LastChallenge(comments).Some? {
      var i := Challenge.LastChallengeIsLast(comments);
      assert Marked(comments[i]);
    } else {
      NothingToFind(comments);
    }
  }

  lemma {:induction false} NothingToFind(comments: seq<Challenge.Comment>)
    requires Challenge.LastChallenge(comments).None?
    ensures NoneMarked(comments)
  {
    if comments != [] {
      NothingToFind(comments[..|comments| - 1]);
      assert forall i :: 0 <= i < |comments| - 1 ==> comments[i] == comments[..|comments| - 1][i];
    }
  }

  /** No other plan is taken for a challenge. */
  lemma OtherPlans(o: Oracles, r: Refusal, text: string, nonce: string)
    ensures RefusalPlan(o, r) != ChallengePlan(o, nonce) && IssuedPlan(text) != ChallengePlan(o, nonce)
    ensures RevokedPlan(text) != ChallengePlan(o, nonce)
  {
    var a, b := RefusalPlan(o, r), ChallengePlan(o, nonce);
    assert a[1] == SetLabels({LabelFor(r)}, {}) && b[1] == SetLabels({LABEL_AWAITING_CHALLENGE}, {});
    assert LabelFor(r) in a[1].add && LabelFor(r) != LABEL_AWAITING_CHALLENGE;
    assert |IssuedPlan(text)| == 3 && |RevokedPlan(text)| == 3 && |b| == 2;
  }

  lemma StartsNoChallenge(c: Config, p: Poll, labels: set<string>, nonce: string)
    ensures Started(c, p, labels) != Doing(ChallengePlan(c.o, nonce))
  {
    match p
    case EnrollPoll(_, resolved, _, _, _, _) =>
      if resolved.TurnedAway? {
        OtherPlans(c.o, resolved.r, "", nonce);
      }
    case RevokePoll(_, presented, _) =>
      if presented.NotPresented? {
        OtherPlans(c.o, presented.r, "", nonce);
      }
  }

  lemma SettlesNoChallenge(c: Config, p: Poll, outcome: Protocol.Outcome, nonce: string)
    ensures AfterLedger(c, p, outcome) != Some(ChallengePlan(c.o, nonce))
  {
    OtherPlans(c.o, BadCsr, p.text, nonce);
    OtherPlans(c.o, BadCsr, c.o.refusal(RevokedAlready), nonce);
    match p
    case EnrollPoll(_, resolved, _, _, _, _) =>
      if resolved.Claims? && resolved.n.Named? {
        OtherPlans(c.o, Reserved(resolved.n.appID), p.text, nonce);
        OtherPlans(c.o, OwnedByOther(resolved.n.appID), p.text, nonce);
      }
    case RevokePoll(_, presented, _) =>
      if presented.Presented? {
        OtherPlans(c.o, NotIssued(presented.fingerprint, presented.appID), p.text, nonce);
      }
  }

  /** A step after which no poll is about to post a challenge that was not so before. */
  lemma NoNewChallenge(c: Config, w: World, t: World)
    requires AllFresh(c, w) && t.issues == w.issues
    requires forall q :: Challenging(c, t, q) ==> Challenging(c, w, q)
    ensures AllFresh(c, t)
  {
    forall q
      ensures FreshChallenge(c, t, q)
    {
      assert FreshChallenge(c, w, q);
      assert q in c.polls ==> IssueAt(t, c.polls[q].issue) == IssueAt(w, c.polls[q].issue);
    }
  }

  lemma StartFresh(c: Config, w: World, p: nat)
    requires AllFresh(c, w)
    ensures AllFresh(c, StepStart(c, w, p))
  {
    if p in c.polls {
      StartsNoChallenge(c, c.polls[p], IssueAt(w, c.polls[p].issue).labels,
                        if c.polls[p].EnrollPoll? then c.polls[p].nonce else "");
    }
    NoNewChallenge(c, w, StepStart(c, w, p));
  }

  lemma SettleFresh(c: Config, w: World, p: nat)
    requires AllFresh(c, w)
    ensures AllFresh(c, StepSettle(c, w, p))
  {
    if p in c.polls && Phase(w, p).Done? {
      SettlesNoChallenge(c, c.polls[p], Phase(w, p).outcome, if c.polls[p].EnrollPoll? then c.polls[p].nonce else "");
    }
    NoNewChallenge(c, w, StepSettle(c, w, p));
  }

  lemma ReadFresh(c: Config, w: World, p: nat)
    requires AllFresh(c, w)
    ensures AllFresh(c, StepRead(c, w, p))
  {
    var t := StepRead(c, w, p);
    forall q
      ensures FreshChallenge(c, t, q)
    {
      assert FreshChallenge(c, w, q);
      assert q in c.polls ==> IssueAt(t, c.polls[q].issue) == IssueAt(w, c.polls[q].issue);
      if q == p && Runs(c, w, p) && w.pcs[p] == Reading && c.polls[p].EnrollPoll? {
        OtherPlans(c.o, ChallengeExpired, "", c.polls[p].nonce);
        UnmarkedHasNone(IssueAt(w, c.polls[p].issue).comments);
      }
    }
  }

  /** What is left of a plan is no challenge. */
  lemma RestIsNoChallenge(c: Config, w: World, p: nat)
    requires Runs(c, w, p) && w.pcs[p].Doing? && w.pcs[p].todo != [] && PlanInv(c, w, p)
    ensures !Challenging(c, StepAct(c, w, p), p)
  {
    var rest := w.pcs[p].todo[1..];
    assert rest != [] ==> rest[0] == w.pcs[p].todo[1] && !rest[0].PostComment?;
    if c.polls[p].EnrollPoll? {
      assert ChallengePlan(c.o, c.polls[p].nonce)[0].PostComment?;
    }
  }

  lemma ActFresh(c: Config, w: World, p: nat)
    requires AllFresh(c, w) && AllPlanned(c, w) && PollOnce.Inv(c, w)
    ensures AllFresh(c, StepAct(c, w, p))
  {
    var t := StepAct(c, w, p);
    if Runs(c, w, p) && w.pcs[p].Doing? && w.pcs[p].todo != [] {
      assert PlanInv(c, w, p);
      RestIsNoChallenge(c, w, p);
      ActedFresh(c, w, t, p);
    } else {
      NoNewChallenge(c, w, t);
    }
  }

  /** Comments appear only on the issue of the poll that acts, where no other poll is under way. */
  lemma ActedFresh(c: Config, w: World, t: World, p: nat)
    requires AllFresh(c, w) && PollOnce.Inv(c, w) && Runs(c, w, p) && w.pcs[p].Doing?
    requires !Challenging(c, t, p) && p in t.pcs && t.pcs == w.pcs[p := t.pcs[p]]
    requires forall n :: n != c.polls[p].issue ==> IssueAt(t, n) == IssueAt(w, n)
    ensures AllFresh(c, t)
  {
    forall q
      ensures FreshChallenge(c, t, q)
    {
      assert FreshChallenge(c, w, q) && PollOnce.Pair(c, w, p, q);
    }
  }

  lemma StepFresh(c: Config, w: World, a: Action)
    requires AllFresh(c, w) && AllPlanned(c, w) && PollOnce.Inv(c, w)
    ensures AllFresh(c, Step(c, w, a))
  {
    match a
    case Start(p) => StartFresh(c, w, p);
    case ReadComments(p) => ReadFresh(c, w, p);
    case Settle(p) => SettleFresh(c, w, p);
    case Act(p) => ActFresh(c, w, p);
    case _ => NoNewChallenge(c, w, Step(c, w, a));
  }

  lemma {:induction false} RunFresh(c: Config, w: World, acts: seq<Action>)
    requires Initial(c, w) && NoOverlap(c, w, acts)
    ensures AllFresh(c, Run(c, w, acts))
  {
    if acts != [] {
      var init := acts[..|acts| - 1];
      RunFresh(c, w, init);
      RunPlanned(c, w, init);
      RunOnce(c, w, init);
      StepFresh(c, Run(c, w, init), acts[|acts| - 1]);
    }
  }

  lemma ChallengeIsMarked(c: Config, w: World, a: Action, n: int)
    requires PostsChallenge(c, w, a, n) && GoodPoll(c.polls[a.poll])
    ensures Marked(PostedBy(w, a)) && Challenge.ParseNonce(PostedBy(w, a).body) == Some(c.polls[a.poll].nonce)
  {
    var body := Challenge.Posted(c.o.challenge, c.polls[a.poll].nonce);
    Challenge.CommentRoundTrip(c.o.challenge, c.polls[a.poll].nonce, "");
    assert body + "" == body;
  }

  /** The issue shows a marker after a marked comment is posted on it. */
  lemma MarkedFromThenOn(c: Config, w: World, acts: seq<Action>, i: nat, n: int)
    requires i < |acts| && Posts(c, Run(c, w, acts[..i]), acts[i], n) && Marked(PostedBy(Run(c, w, acts[..i]), acts[i]))
    ensures !NoneMarked(IssueAt(Run(c, w, acts), n).comments)
  {
    var m := Run(c, w, acts[..i]);
    var k := |IssueAt(m, n).comments|;
    StepComments(c, m, acts[i], n);
    assert acts[..i + 1] == acts[..i] + [acts[i]];
    RunOneMore(c, w, acts[..i], acts[i]);
    CommentsGrow(c, w, acts, i + 1, n);
    assert IssueAt(Run(c, w, acts[..i + 1]), n).comments[k] == PostedBy(m, acts[i]);
    assert IssueAt(Run(c, w, acts), n).comments[k] == PostedBy(m, acts[i]);
  }

  /** However often an issue is polled and cut off, and whatever its refusals echo, at most one step
      ever posts a challenge on it. */
  lemma OneChallengePerIssue(c: Config, w: World, acts: seq<Action>, n: int, i: nat, j: nat)
    requires Initial(c, w) && NoOverlap(c, w, acts) && i < |acts| && j < |acts|
    requires PostsChallenge(c, Run(c, w, acts[..i]), acts[i], n) && PostsChallenge(c, Run(c, w, acts[..j]), acts[j], n)
    ensures i == j
  {
    if i < j {
      SecondChallenge(c, w, acts, n, i, j);
    } else if j < i {
      SecondChallenge(c, w, acts, n, j, i);
    }
  }

  lemma SecondChallenge(c: Config, w: World, acts: seq<Action>, n: int, i: nat, j: nat)
    requires Initial(c, w) && NoOverlap(c, w, acts) && i < j < |acts|
    requires PostsChallenge(c, Run(c, w, acts[..i]), acts[i], n)
    ensures !PostsChallenge(c, Run(c, w, acts[..j]), acts[j], n)
  {
    NoOverlapUpTo(c, w, acts, j);
    RunFresh(c, w, acts[..j]);
    assert acts[..j][..i] == acts[..i] && acts[..j][i] == acts[i];
    ChallengeIsMarked(c, Run(c, w, acts[..i]), acts[i], n);
    MarkedFromThenOn(c, w, acts[..j], i, n);
    assert acts[j].Act? ==> FreshChallenge(c, Run(c, w, acts[..j]), acts[j].poll);
  }

  // ---- markers that are not challenges ----

  /** Step `j` of the run echoes a marker on an issue that already shows one. */
  predicate EchoOnMarked(c: Config, w: World, acts: seq<Action>, n: int, j: nat)
    requires j < |acts|
  {
    PostsEcho(c, Run(c, w, acts[..j]), acts[j], n) && !NoneMarked(IssueAt(Run(c, w, acts[..j]), n).comments)
  }

  lemma OneMoreComment(comments: seq<Challenge.Comment>, more: Challenge.Comment)
    ensures AtMostOneMarked(comments + [more]) <==> AtMostOneMarked(comments) && (Marked(more) ==> NoneMarked(comments))
  {
    var all := comments + [more];
    if AtMostOneMarked(all) {
      forall i, j | 0 <= i < j < |comments|
        ensures !(Marked(comments[i]) && Marked(comments[j]))
      {
        assert all[i] == comments[i] && all[j] == comments[j];
      }
      forall i | 0 <= i < |comments| && Marked(more)
        ensures !Marked(comments[i])
      {
        assert all[i] == comments[i] && all[|comments|] == more;
      }
    }
  }

  /** One step adds a second marker exactly when it echoes one: a challenge never does. */
  lemma SecondMarkStep(c: Config, w: World, a: Action, n: int)
    requires AllFresh(c, w)
    ensures AtMostOneMarked(IssueAt(Step(c, w, a), n).comments)
            <==>
            AtMostOneMarked(IssueAt(w, n).comments) && !(PostsEcho(c, w, a, n) && !NoneMarked(IssueAt(w, n).comments))
  {
    StepComments(c, w, a, n);
    if Posts(c, w, a, n) {
      assert FreshChallenge(c, w, a.poll);
      OneMoreComment(IssueAt(w, n).comments, PostedBy(w, a));
    } else {
      assert IssueAt(w, n).comments + [] == IssueAt(w, n).comments;
    }
  }

  lemma LastEcho(c: Config, w: World, acts: seq<Action>, n: int)
    requires acts != []
    ensures var init := acts[..|acts| - 1];
            (forall j :: 0 <= j < |acts| ==> !EchoOnMarked(c, w, acts, n, j)) <==>
              (forall j :: 0 <= j < |init| ==> !EchoOnMarked(c, w, init, n, j)) &&
                  !EchoOnMarked(c, w, acts, n, |acts| - 1)
  {
    var init := acts[..|acts| - 1];
    forall j | 0 <= j < |init|
      ensures EchoOnMarked(c, w, acts, n, j) <==> EchoOnMarked(c, w, init, n, j)
    {
      assert init[..j] == acts[..j] && init[j] == acts[j];
    }
  }

  /** An issue shows two markers if and only if some step echoed a marker, in a refusal or a delivery,
      where one already was. */
  lemma {:induction false} OneMarkIffNoEcho(c: Config, w: World, acts: seq<Action>, n: int)
    requires Initial(c, w) && NoOverlap(c, w, acts)
    ensures AtMostOneMarked(IssueAt(Run(c, w, acts), n).comments) <==> forall j :: 0 <= j < |acts| ==>
              !EchoOnMarked(c, w, acts, n, j)
  {
    if acts == [] {
      assert IssueAt(w, n).comments == [];
    } else {
      var init := acts[..|acts| - 1];
      OneMarkIffNoEcho(c, w, init, n);
      RunFresh(c, w, init);
      SecondMarkStep(c, Run(c, w, init), acts[|acts| - 1], n);
      LastEcho(c, w, acts, n);
    }
  }

  /** Words of the polls of issue `n` that hold no marker. */
  ghost predicate Unmarked(c: Config, n: int) {
    forall p, body :: p in c.polls && c.polls[p].issue == n && OwnText(c, c.polls[p], body) ==>
        Challenge.ParseNonce(body).None?
  }

  /** An echo is in the poll's own words. */
  lemma EchoIsOwnText(c: Config, w: World, acts: seq<Action>, a: Action, n: int)
    requires Initial(c, w) && PostsEcho(c, Run(c, w, acts), a, n)
    ensures OwnText(c, c.polls[a.poll], PostedBy(Run(c, w, acts), a).body)
  {
    RunPlanned(c, w, acts);
    assert PlanInv(c, Run(c, w, acts), a.poll);
  }

  /** So when nothing the polls of an issue can say holds a marker, the issue never shows two. */
  lemma OneMarkWhenUnmarked(c: Config, w: World, acts: seq<Action>, n: int)
    requires Initial(c, w) && NoOverlap(c, w, acts) && Unmarked(c, n)
    ensures AtMostOneMarked(IssueAt(Run(c, w, acts), n).comments)
  {
    forall j | 0 <= j < |acts|
      ensures !EchoOnMarked(c, w, acts, n, j)
    {
      if PostsEcho(c, Run(c, w, acts[..j]), acts[j], n) {
        EchoIsOwnText(c, w, acts[..j], acts[j], n);
      }
    }
    OneMarkIffNoEcho(c, w, acts, n);
  }

  // ---- where the nonce came from ----

  lemma LastPosted(c: Config, m: World, a: Action, n: int, i: nat)
    requires |IssueAt(m, n).comments| <= i < |IssueAt(Step(c, m, a), n).comments|
    ensures Posts(c, m, a, n) && PostedBy(m, a) == IssueAt(Step(c, m, a), n).comments[i]
  {
    StepComments(c, m, a, n);
  }

  /** Every comment was posted by some step. */
  lemma {:induction false} PostedAt(c: Config, w: World, acts: seq<Action>, n: int, i: nat) returns (j: nat)
    requires Initial(c, w) && i < |IssueAt(Run(c, w, acts), n).comments|
    ensures j < |acts| && Posts(c, Run(c, w, acts[..j]), acts[j], n)
    ensures PostedBy(Run(c, w, acts[..j]), acts[j]) == IssueAt(Run(c, w, acts), n).comments[i]
  {
    if acts == [] {
      assert false;
    } else {
      var init := acts[..|acts| - 1];
      if i < |IssueAt(Run(c, w, init), n).comments| {
        StepComments(c, Run(c, w, init), acts[|acts| - 1], n);
        j := PostedAt(c, w, init, n, i);
        assert init[..j] == acts[..j] && init[j] == acts[j];
      } else {
        j := |acts| - 1;
        LastPosted(c, Run(c, w, init), acts[j], n, i);
      }
    }
  }

  /** The nonce that a certificate was issued for stood in a comment that some step posted: in the
      challenge of a poll of the same issue, which drew it, or in an echo of the request. */
  lemma NonceWasDrawnOrEchoed(c: Config, w: World, acts: seq<Action>, p: nat) returns (j: nat)
    requires Initial(c, w) && Issued(c, Run(c, w, acts), p)
    ensures p in Run(c, w, acts).evidence && j < |acts|
    ensures var m, prior := Run(c, w, acts[..j]), Run(c, w, acts).evidence[p].prior;
            && Posts(c, m, acts[j], c.polls[p].issue)
            && PostedBy(m, acts[j]).createdAt == prior.postedAt
            && Challenge.ParseNonce(PostedBy(m, acts[j]).body) == Some(prior.nonce)
            && (PostsEcho(c, m, acts[j], c.polls[p].issue) || DrawnBy(c, acts[j].poll, c.polls[p].issue, prior.nonce))
  {
    IssuedOnlyWhenProven(c, w, acts, p);
    var prior, n := Run(c, w, acts).evidence[p].prior, c.polls[p].issue;
    var i :| ShownAt(IssueAt(Run(c, w, acts), n).comments, prior, i);
    j := PostedAt(c, w, acts, n, i);
    var m := Run(c, w, acts[..j]);
    if Challenging(c, m, acts[j].poll) {
      ChallengeIsMarked(c, m, acts[j], n);
    }
  }

  predicate DrawnBy(c: Config, q: nat, n: int, nonce: string) {
    q in c.polls && c.polls[q].EnrollPoll? && c.polls[q].issue == n && c.polls[q].nonce == nonce
  }

  /** When nothing the polls of its issue can say holds a marker, it is a nonce that one of them
      drew. */
  lemma NonceWasDrawn(c: Config, w: World, acts: seq<Action>, p: nat)
    requires Initial(c, w) && Issued(c, Run(c, w, acts), p) && Unmarked(c, c.polls[p].issue)
    ensures p in Run(c, w, acts).evidence
    ensures exists q :: DrawnBy(c, q, c.polls[p].issue, Run(c, w, acts).evidence[p].prior.nonce)
  {
    var j := NonceWasDrawnOrEchoed(c, w, acts, p);
    if PostsEcho(c, Run(c, w, acts[..j]), acts[j], c.polls[p].issue) {
      EchoIsOwnText(c, w, acts[..j], acts[j], c.polls[p].issue);
    }
  }
}
