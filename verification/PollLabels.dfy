/** What the labels `issued` and `revoked` mean, with a fault possible at any call of any poll. */
module PollLabels {
  import opened Wrappers
  import opened Ledger
  import opened Updates
  import opened Store
  import opened Polls
  import opened Polling
  import opened FarDates
  import Enroll
  import FarHistory
  import History
  import Protocol

  /** The two labels that speak of success. */
  predicate Success(tag: string) {
    tag == LABEL_ISSUED || tag == LABEL_REVOKED
  }

  lemma LabelsDiffer(r: Refusal)
    requires LabelFor(r) != LABEL_REVOKED || !r.RevokedAlready?
    ensures LABEL_ISSUED != LABEL_REVOKED
    ensures LABEL_AWAITING_CHALLENGE != LABEL_ISSUED && LABEL_AWAITING_CHALLENGE != LABEL_REVOKED
    ensures LabelFor(r) != LABEL_ISSUED && LabelFor(r) != LABEL_REVOKED
  {
    assert LABEL_INVALID[0] == 'i' && LABEL_REVOKED[0] == 'r' && LABEL_EXPIRED[0] == 'e';
  }

  predicate AddsLabel(e: Effect, tag: string) {
    e.SetLabels? && tag in e.add
  }

  predicate Adds(todo: seq<Effect>, tag: string) {
    exists i :: 0 <= i < |todo| && AddsLabel(todo[i], tag)
  }

  /** The poll's bot has finished with what the label says. */
  predicate Earned(c: Config, w: World, p: nat, tag: string) {
    && p in c.polls
    && (tag == LABEL_ISSUED ==> c.polls[p].EnrollPoll? && Phase(w, p) == Protocol.Done(Protocol.Committed))
    && (tag == LABEL_REVOKED ==>
          c.polls[p].RevokePoll? && Phase(w, p) in {Protocol.Done(Protocol.Committed),
                                                    Protocol.Done(Protocol.AlreadyRevoked)})
  }

  /** A label about to be set has been earned. */
  predicate TodoEarned(c: Config, w: World, p: nat, tag: string) {
    p in w.pcs && w.pcs[p].Doing? && Adds(w.pcs[p].todo, tag) ==> Earned(c, w, p, tag)
  }

  /** A label that is set was earned by some poll of the issue. */
  ghost predicate LabelEarned(c: Config, w: World, n: int, tag: string) {
    tag in IssueAt(w, n).labels ==> exists p :: Earned(c, w, p, tag) && c.polls[p].issue == n
  }

  ghost predicate Inv(c: Config, w: World, tag: string) {
    && (forall p :: p in w.pcs ==> TodoEarned(c, w, p, tag))
    && (forall n :: LabelEarned(c, w, n, tag))
  }

  // ---- steps ----

  /** Finished bots stay finished. */
  lemma DoneIsPermanent(lc: Codec, s: Protocol.State, a: Protocol.Action, b: nat)
    requires b in s.bots && s.bots[b].phase.Done?
    ensures b in Protocol.Step(lc, s, a).bots && Protocol.Step(lc, s, a).bots[b].phase == s.bots[b].phase
  {}

  lemma EarnedStays(c: Config, w: World, t: World, p: nat, tag: string)
    requires Success(tag) && Earned(c, w, p, tag)
    requires p in w.proto.bots && w.proto.bots[p].phase.Done? ==>
               p in t.proto.bots && t.proto.bots[p].phase == w.proto.bots[p].phase
    ensures Earned(c, t, p, tag)
  {}

  /** A step that leaves issues alone, and gives at most one poll something new to do. */
  lemma QuietStep(c: Config, w: World, t: World, p: nat, tag: string)
    requires Success(tag) && Inv(c, w, tag)
    requires t.issues == w.issues && t.pcs.Keys == w.pcs.Keys
    requires forall b :: b in w.proto.bots && w.proto.bots[b].phase.Done? ==>
               b in t.proto.bots && t.proto.bots[b].phase == w.proto.bots[b].phase
    requires forall q :: q in w.pcs && q != p ==> t.pcs[q] == w.pcs[q]
    requires TodoEarned(c, t, p, tag)
    ensures Inv(c, t, tag)
  {
    forall q | q in t.pcs
      ensures TodoEarned(c, t, q, tag)
    {
      if q != p && TodoEarned(c, w, q, tag) && w.pcs[q].Doing? && Adds(w.pcs[q].todo, tag) {
        EarnedStays(c, w, t, q, tag);
      }
    }
    forall n
      ensures LabelEarned(c, t, n, tag)
    {
      assert LabelEarned(c, w, n, tag);
      if tag in IssueAt(w, n).labels {
        var q :| Earned(c, w, q, tag) && c.polls[q].issue == n;
        EarnedStays(c, w, t, q, tag);
      }
    }
  }

  lemma RefusalAdds(o: Oracles, r: Refusal, tag: string)
    ensures Adds(RefusalPlan(o, r), tag) <==> LabelFor(r) == tag
  {
    var plan := RefusalPlan(o, r);
    assert plan[0].PostComment? && plan[1] == SetLabels({LabelFor(r)}, {});
    assert LabelFor(r) == tag ==> AddsLabel(plan[1], tag);
  }

  lemma ChallengeAdds(o: Oracles, nonce: string, tag: string)
    requires Success(tag)
    ensures !Adds(ChallengePlan(o, nonce), tag)
  {
    LabelsDiffer(BadCsr);
    var plan := ChallengePlan(o, nonce);
    assert plan[0].PostComment? && plan[1] == SetLabels({LABEL_AWAITING_CHALLENGE}, {});
  }

  lemma IssuedAdds(text: string, tag: string)
    ensures Adds(IssuedPlan(text), tag) ==> tag == LABEL_ISSUED
  {
    var plan := IssuedPlan(text);
    assert plan[0].PostComment? && plan[1] == SetLabels({LABEL_ISSUED}, {LABEL_AWAITING_CHALLENGE}) &&
        plan[2].CloseIssue?;
  }

  lemma RevokedAdds(text: string, tag: string)
    ensures Adds(RevokedPlan(text), tag) ==> tag == LABEL_REVOKED
  {
    var plan := RevokedPlan(text);
    assert plan[0].PostComment? && plan[1] == SetLabels({LABEL_REVOKED}, {}) && plan[2].CloseIssue?;
  }

  lemma StartedPlan(c: Config, p: Poll, labels: set<string>, tag: string)
    requires Success(tag) && GoodPoll(p)
    ensures Started(c, p, labels).Doing? ==> !Adds(Started(c, p, labels).todo, tag)
  {
    match p
    case EnrollPoll(_, resolved, _, _, _, _) =>
      if resolved.TurnedAway? {
        RefusalAdds(c.o, resolved.r, tag);
      }
    case RevokePoll(_, presented, _) =>
      if presented.NotPresented? {
        RefusalAdds(c.o, presented.r, tag);
      }
  }

  lemma ReadPlan(c: Config, w: World, p: Poll, tag: string)
    requires Success(tag) && p.EnrollPoll?
    ensures var pc := AfterComments(c, p, IssueAt(w, p.issue).comments, w.clock); pc.Doing? ==> !Adds(pc.todo, tag)
  {
    ChallengeAdds(c.o, p.nonce, tag);
    LabelsDiffer(ChallengeExpired);
    RefusalAdds(c.o, ChallengeExpired, tag);
  }

  /** The plan after the ledger work sets a label of success only when the bot has earned it. */
  lemma SettledPlan(c: Config, w: World, p: nat, tag: string)
    requires Success(tag) && p in c.polls && Phase(w, p).Done?
    ensures var plan := AfterLedger(c, c.polls[p], Phase(w, p).outcome);
            plan.Some? && Adds(plan.value, tag) ==> Earned(c, w, p, tag)
  {
    LabelsDiffer(BadCsr);
    match c.polls[p]
    case EnrollPoll(_, resolved, _, _, _, text) =>
      IssuedAdds(text, tag);
      if resolved.Claims? && resolved.n.Named? {
        LabelsDiffer(Reserved(resolved.n.appID));
        LabelsDiffer(OwnedByOther(resolved.n.appID));
        RefusalAdds(c.o, Reserved(resolved.n.appID), tag);
        RefusalAdds(c.o, OwnedByOther(resolved.n.appID), tag);
      }
    case RevokePoll(_, presented, text) =>
      RevokedAdds(text, tag);
      RevokedAdds(c.o.refusal(RevokedAlready), tag);
      if presented.Presented? {
        LabelsDiffer(NotIssued(presented.fingerprint, presented.appID));
        RefusalAdds(c.o, NotIssued(presented.fingerprint, presented.appID), tag);
      }
  }

  /** One effect: a label of success that appears was earned. */
  lemma ActStep(c: Config, w: World, p: nat, tag: string)
    requires Success(tag) && Inv(c, w, tag)
    ensures Inv(c, StepAct(c, w, p), tag)
  {
    if Runs(c, w, p) && w.pcs[p].Doing? {
      var todo, n, t := w.pcs[p].todo, c.polls[p].issue, StepAct(c, w, p);
      if todo == [] {
        QuietStep(c, w, t, p, tag);
      } else {
        assert TodoEarned(c, w, p, tag);
        assert AddsLabel(todo[0], tag) ==> Adds(todo, tag);
        forall i | 0 <= i < |todo[1..]| && AddsLabel(todo[1..][i], tag)
          ensures Adds(todo, tag)
        {
          assert todo[1..][i] == todo[i + 1];
        }
        ActKeeps(c, w, t, p, tag);
      }
    }
  }

  lemma ActKeeps(c: Config, w: World, t: World, p: nat, tag: string)
    requires Success(tag) && Inv(c, w, tag) && Runs(c, w, p) && w.pcs[p].Doing? && w.pcs[p].todo != []
    requires t == Going(w, p, Doing(w.pcs[p].todo[1..])).(
                  issues := w.issues[c.polls[p].issue :=
                                     Perform(IssueAt(w, c.polls[p].issue), w.pcs[p].todo[0], w.clock)])
    requires AddsLabel(w.pcs[p].todo[0], tag) || Adds(w.pcs[p].todo[1..], tag) ==> Earned(c, w, p, tag)
    ensures Inv(c, t, tag)
  {
    forall q | q in t.pcs
      ensures TodoEarned(c, t, q, tag)
    {
      assert TodoEarned(c, w, q, tag);
    }
    forall m
      ensures LabelEarned(c, t, m, tag)
    {
      assert LabelEarned(c, w, m, tag);
      if tag in IssueAt(w, m).labels {
        var q :| Earned(c, w, q, tag) && c.polls[q].issue == m;
        assert Earned(c, t, q, tag);
      } else if tag in IssueAt(t, m).labels {
        assert m == c.polls[p].issue && AddsLabel(w.pcs[p].todo[0], tag);
        assert Earned(c, t, p, tag);
      }
    }
  }

  lemma StartKeeps(c: Config, w: World, p: nat, tag: string)
    requires Success(tag) && Inv(c, w, tag) && (p in c.polls ==> GoodPoll(c.polls[p]))
    ensures Inv(c, StepStart(c, w, p), tag)
  {
    if Runs(c, w, p) {
      StartedPlan(c, c.polls[p], IssueAt(w, c.polls[p].issue).labels, tag);
    }
    QuietStep(c, w, StepStart(c, w, p), p, tag);
  }

  lemma ReadKeeps(c: Config, w: World, p: nat, tag: string)
    requires Success(tag) && Inv(c, w, tag)
    ensures Inv(c, StepRead(c, w, p), tag)
  {
    if Runs(c, w, p) && c.polls[p].EnrollPoll? {
      ReadPlan(c, w, c.polls[p], tag);
    }
    QuietStep(c, w, StepRead(c, w, p), p, tag);
  }

  lemma FetchKeeps(c: Config, w: World, p: nat, tag: string)
    requires Success(tag) && Inv(c, w, tag)
    ensures Inv(c, StepFetch(c, w, p), tag) && Inv(c, StepCut(c, w, p), tag)
  {
    QuietStep(c, w, StepFetch(c, w, p), p, tag);
    QuietStep(c, w, StepCut(c, w, p), p, tag);
  }

  lemma OutsideKeeps(c: Config, w: World, t: World, tag: string)
    requires Success(tag) && Inv(c, w, tag) && t.issues == w.issues && t.pcs == w.pcs && t.proto == w.proto
    ensures Inv(c, t, tag)
  {
    QuietStep(c, w, t, 0, tag);
  }

  lemma StepKeeps(c: Config, w: World, a: Action, tag: string)
    requires Success(tag) && Inv(c, w, tag) && forall p :: p in c.polls ==> GoodPoll(c.polls[p])
    ensures Inv(c, Step(c, w, a), tag)
  {
    match a
    case Start(p) => StartKeeps(c, w, p, tag);
    case ReadComments(p) => ReadKeeps(c, w, p, tag);
    case FetchFile(p) => FetchKeeps(c, w, p, tag);
    case OnLedger(action) => LedgerKeeps(c, w, action, tag);
    case Settle(p) => SettleStep(c, w, p, tag);
    case Act(p) => ActStep(c, w, p, tag);
    case Cut(p) => FetchKeeps(c, w, p, tag);
    case _ => OutsideKeeps(c, w, Step(c, w, a), tag);
  }

  lemma SettleStep(c: Config, w: World, p: nat, tag: string)
    requires Success(tag) && Inv(c, w, tag)
    ensures Inv(c, StepSettle(c, w, p), tag)
  {
    if Runs(c, w, p) && Phase(w, p).Done? {
      SettledPlan(c, w, p, tag);
      SettleKeeps(c, w, p, tag);
    }
  }

  lemma SettleKeeps(c: Config, w: World, p: nat, tag: string)
    requires Success(tag) && Inv(c, w, tag) && Runs(c, w, p) && Phase(w, p).Done?
    requires var plan := AfterLedger(c, c.polls[p], Phase(w, p).outcome);
             plan.Some? && Adds(plan.value, tag) ==> Earned(c, w, p, tag)
    ensures Inv(c, StepSettle(c, w, p), tag)
  {
    QuietStep(c, w, StepSettle(c, w, p), p, tag);
  }

  lemma LedgerKeeps(c: Config, w: World, a: Protocol.Action, tag: string)
    requires Success(tag) && Inv(c, w, tag)
    ensures Inv(c, StepLedger(c, w, a), tag)
  {
    var t := StepLedger(c, w, a);
    forall b | b in w.proto.bots && w.proto.bots[b].phase.Done?
      ensures b in t.proto.bots && t.proto.bots[b].phase == w.proto.bots[b].phase
    {
      DoneIsPermanent(c.lc, w.proto, a, b);
    }
    if a.bot in w.pcs && TodoEarned(c, w, a.bot, tag) && w.pcs[a.bot].Doing? && Adds(w.pcs[a.bot].todo, tag) {
      EarnedStays(c, w, t, a.bot, tag);
    }
    QuietStep(c, w, t, a.bot, tag);
  }

  lemma {:induction false} RunKeeps(c: Config, w: World, acts: seq<Action>, tag: string)
    requires Initial(c, w) && Success(tag)
    ensures Inv(c, Run(c, w, acts), tag)
  {
    if acts == [] {
      forall n
        ensures LabelEarned(c, w, n, tag)
      {}
    } else {
      RunKeeps(c, w, acts[..|acts| - 1], tag);
      StepKeeps(c, Run(c, w, acts[..|acts| - 1]), acts[|acts| - 1], tag);
    }
  }

  /** What the pipelines make of any form, info.xml and CMS blob never turns an issue away with a
      label of success: the assumption on polls holds of the code. */
  lemma PipelinePollsAreGood(o: Oracles, body: string, info: Option<string>, accessible: bool)
    ensures var r := Enroll.ResolvedWith(o, body, info, accessible); r.TurnedAway? ==> !Success(LabelFor(r.r))
    ensures var r := ReadRequest(o, body); r.NotPresented? ==> !Success(LabelFor(r.r))
  {
    var resolved, presented := Enroll.ResolvedWith(o, body, info, accessible), ReadRequest(o, body);
    if resolved.TurnedAway? {
      LabelsDiffer(resolved.r);
    }
    if presented.NotPresented? {
      LabelsDiffer(presented.r);
    }
  }

  // ---- what the labels mean ----

  lemma ProtoJob(c: Config, w: World, acts: seq<Action>, p: nat)
    requires Initial(c, w) && p in c.polls && Phase(Run(c, w, acts), p).Done?
    ensures JobOf(c.polls[p]).Some? && p in w.proto.bots && w.proto.bots[p].job == JobOf(c.polls[p]).value
    ensures p in Run(c, w, acts).proto.bots && Run(c, w, acts).proto.bots[p].job == w.proto.bots[p].job
  {
    PollsAreBots(c, w, acts);
    History.RunKeepsJobs(c.lc, w.proto, LedgerMoves(c, w, acts));
  }

  lemma {:induction false} OutcomeStays(c: Config, w: World, acts: seq<Action>, n: nat, p: nat)
    requires n <= |acts| && p in Run(c, w, acts[..n]).proto.bots && Phase(Run(c, w, acts[..n]), p).Done?
    ensures p in Run(c, w, acts).proto.bots && Phase(Run(c, w, acts), p) == Phase(Run(c, w, acts[..n]), p)
  {
    if n == |acts| {
      assert acts[..n] == acts;
    } else {
      var init := acts[..|acts| - 1];
      assert init[..n] == acts[..n];
      OutcomeStays(c, w, init, n, p);
      OneStepOutcome(c, Run(c, w, init), acts[|acts| - 1], p);
    }
  }

  lemma OneStepOutcome(c: Config, w: World, a: Action, p: nat)
    requires p in w.proto.bots && w.proto.bots[p].phase.Done?
    ensures p in Step(c, w, a).proto.bots && Step(c, w, a).proto.bots[p].phase == w.proto.bots[p].phase
  {
    if a.OnLedger? {
      DoneIsPermanent(c.lc, w.proto, a.action, p);
    } else {
      OtherStepsKeepProto(c, w, a);
    }
  }

  /** The poll's ledger holds its entry, active or revoked by now; if a far date has spoilt the ledger
      it cannot be read. */
  ghost predicate Recorded(c: Config, w: World, p: nat)
    requires p in c.polls && c.polls[p].EnrollPoll?
  {
    && JobOf(c.polls[p]).Some?
    && var appID := JobOf(c.polls[p]).value.appID;
       var l := LedgerOf(c.lc, w.proto.Files(), appID);
       if Spoilt(w.proto.log, appID) then l.None? else l.Some? && History.HasEntry(l.value, c.polls[p].entry)
  }

  /** An issue that is labelled `issued` at any moment of any run has, then and ever after, an entry
      with its own reference in the ledger of the appId that one of its polls was for, for as long as
      that ledger can be read. */
  lemma IssuedMeansRecorded(c: Config, w: World, acts: seq<Action>, n: nat, issue: int)
    requires Initial(c, w) && n <= |acts|
    requires LABEL_ISSUED in IssueAt(Run(c, w, acts[..n]), issue).labels
    ensures exists p | p in c.polls && c.polls[p].EnrollPoll? ::
              && c.polls[p].issue == issue
              && c.polls[p].entry.issueRef == IssueRef(issue)
              && Recorded(c, Run(c, w, acts), p)
  {
    RunKeeps(c, w, acts[..n], LABEL_ISSUED);
    assert LabelEarned(c, Run(c, w, acts[..n]), issue, LABEL_ISSUED);
    var p :| Earned(c, Run(c, w, acts[..n]), p, LABEL_ISSUED) && c.polls[p].issue == issue;
    ProtoJob(c, w, acts[..n], p);
    OutcomeStays(c, w, acts, n, p);
    CommittedIsRecorded(c, w, acts, p);
    assert GoodPoll(c.polls[p]);
  }

  lemma CommittedIsRecorded(c: Config, w: World, acts: seq<Action>, p: nat)
    requires Initial(c, w) && p in c.polls && c.polls[p].EnrollPoll?
    requires Phase(Run(c, w, acts), p) == Protocol.Done(Protocol.Committed)
    ensures Recorded(c, Run(c, w, acts), p)
  {
    ProtoJob(c, w, acts, p);
    PollsAreBots(c, w, acts);
    var moves := LedgerMoves(c, w, acts);
    assert moves[..|moves|] == moves;
    FarHistory.SuccessUnlessSpoilt(c.lc, w.proto, moves, |moves|, p);
  }

  ghost predicate Revoked(c: Config, w: World, p: nat)
    requires p in c.polls && c.polls[p].RevokePoll?
  {
    && c.polls[p].presented.Presented?
    && var appID := c.polls[p].presented.appID;
       var l := LedgerOf(c.lc, w.proto.Files(), appID);
       if Spoilt(w.proto.log, appID) then l.None?
       else l.Some? && History.RevokedAt(l.value, ByFingerprint(c.polls[p].presented.fingerprint))
  }

  /** An issue that is labelled `revoked` at any moment of any run has, then and ever after, the
      certificate that one of its polls presented revoked in its ledger, for as long as that can be
      read. */
  lemma RevokedMeansRevoked(c: Config, w: World, acts: seq<Action>, n: nat, issue: int)
    requires Initial(c, w) && n <= |acts|
    requires LABEL_REVOKED in IssueAt(Run(c, w, acts[..n]), issue).labels
    ensures exists p | p in c.polls && c.polls[p].RevokePoll? ::
              c.polls[p].issue == issue && Revoked(c, Run(c, w, acts), p)
  {
    RunKeeps(c, w, acts[..n], LABEL_REVOKED);
    assert LabelEarned(c, Run(c, w, acts[..n]), issue, LABEL_REVOKED);
    var p :| Earned(c, Run(c, w, acts[..n]), p, LABEL_REVOKED) && c.polls[p].issue == issue;
    ProtoJob(c, w, acts[..n], p);
    OutcomeStays(c, w, acts, n, p);
    EarnedIsRevoked(c, w, acts, p);
  }

  lemma EarnedIsRevoked(c: Config, w: World, acts: seq<Action>, p: nat)
    requires Initial(c, w) && Earned(c, Run(c, w, acts), p, LABEL_REVOKED)
    ensures Revoked(c, Run(c, w, acts), p)
  {
    ProtoJob(c, w, acts, p);
    PollsAreBots(c, w, acts);
    var moves := LedgerMoves(c, w, acts);
    if Phase(Run(c, w, acts), p) == Protocol.Done(Protocol.Committed) {
      assert moves[..|moves|] == moves;
      FarHistory.SuccessUnlessSpoilt(c.lc, w.proto, moves, |moves|, p);
    } else {
      FarHistory.AlreadyRevokedUnlessSpoilt(c.lc, w.proto, moves, p);
      FarHistory.ReadableIffNear(c.lc, w.proto, moves, c.polls[p].presented.appID);
    }
  }
}
