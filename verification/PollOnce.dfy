/** How often an issue can be issued: at most once, unless a poll is cut off between its write to
    the ledger and its label. Polls of one issue do not overlap; all else may interleave. */
module PollOnce {
  import opened Wrappers
  import opened Ledger
  import opened Updates
  import opened Store
  import opened Polls
  import opened Polling
  import opened PollLabels
  import History
  import Protocol

  predicate Active(pc: Pc) {
    pc != Ready && !pc.Over?
  }

  /** Two polls of one issue. */
  predicate SameNumber(c: Config, p: nat, q: nat) {
    p in c.polls && q in c.polls && p != q && c.polls[p].issue == c.polls[q].issue
  }

  /** Two polls of one certificate request. */
  predicate SameIssue(c: Config, p: nat, q: nat) {
    SameNumber(c, p, q) && c.polls[p].EnrollPoll? && c.polls[q].EnrollPoll?
  }

  /** No other poll of this issue is under way: the issuer and the revoker share one lock. */
  predicate Alone(c: Config, w: World, p: nat) {
    forall q :: q in c.polls && q in w.pcs && SameNumber(c, p, q) ==> !Active(w.pcs[q])
  }

  /** Every poll of the run starts with no other poll of its issue under way. */
  predicate NoOverlap(c: Config, w: World, acts: seq<Action>) {
    acts == [] ||
    (var init, a := acts[..|acts| - 1], acts[|acts| - 1];
     NoOverlap(c, w, init) &&
     (a.Start? ==> Alone(c, Run(c, w, init), a.poll)))
  }

  predicate Issued(c: Config, w: World, p: nat) {
    p in c.polls && c.polls[p].EnrollPoll? && Phase(w, p) == Protocol.Done(Protocol.Committed)
  }

  predicate CutOff(w: World, p: nat) {
    p in w.pcs && w.pcs[p] == Over(true)
  }

  predicate Labelled(c: Config, w: World, p: nat) {
    p in c.polls && LABEL_ISSUED in IssueAt(w, c.polls[p].issue).labels
  }

  /** Nothing in the plan takes the label away again. */
  predicate KeepsLabel(todo: seq<Effect>) {
    forall i :: 0 <= i < |todo| && todo[i].SetLabels? ==> LABEL_ISSUED !in todo[i].remove
  }

  /** A poll's bot moves only while the poll is at the ledger; and a poll that has committed is still
      on its way to the label, or the label is set, or it was cut off. */
  predicate Single(c: Config, w: World, p: nat) {
    p in c.polls && p in w.pcs ==>
      && (w.pcs[p] in {Ready, Reading} || w.pcs[p].Checking? ==> Phase(w, p) == Protocol.Start)
      && (w.pcs[p].Doing? ==> KeepsLabel(w.pcs[p].todo))
      && (Issued(c, w, p) ==>
            w.pcs[p] == AtLedger || (w.pcs[p].Doing? && Adds(w.pcs[p].todo, LABEL_ISSUED)) || Labelled(c, w, p) ||
                CutOff(w, p))
  }

  /** Two polls of one issue are never under way together; and once a poll of a request has
      committed, another one gets anywhere only if the first was cut off. */
  predicate Pair(c: Config, w: World, p: nat, q: nat) {
    SameNumber(c, p, q) && p in w.pcs && q in w.pcs ==>
      && !(Active(w.pcs[p]) && Active(w.pcs[q]))
      && (SameIssue(c, p, q) && Issued(c, w, p) && (Active(w.pcs[q]) || Issued(c, w, q)) ==>
            CutOff(w, p) || (Issued(c, w, q) && CutOff(w, q)))
  }

  ghost predicate Inv(c: Config, w: World) {
    && (forall p :: Single(c, w, p))
    && (forall p, q :: Pair(c, w, p, q))
  }

  /** One poll moves, and no issue loses the label. */
  ghost predicate OneMoves(c: Config, w: World, t: World, p: nat) {
    && t.pcs.Keys == w.pcs.Keys
    && (forall q :: q in w.pcs && q != p ==> t.pcs[q] == w.pcs[q])
    && (forall q :: q != p && q in c.polls ==> Phase(t, q) == Phase(w, q))
    && (forall q :: Labelled(c, w, q) ==> Labelled(c, t, q))
  }

  lemma OthersStay(c: Config, w: World, t: World, p: nat, q: nat)
    requires OneMoves(c, w, t, p) && Single(c, w, q) && q != p
    ensures Single(c, t, q)
  {}

  lemma PairsStay(c: Config, w: World, t: World, p: nat, q: nat, r: nat)
    requires OneMoves(c, w, t, p) && Pair(c, w, q, r) && q != p && r != p
    ensures Pair(c, t, q, r)
  {}

  lemma Moved(c: Config, w: World, t: World, p: nat)
    requires Inv(c, w) && OneMoves(c, w, t, p)
    requires Single(c, t, p) && forall q :: Pair(c, t, p, q) && Pair(c, t, q, p)
    ensures Inv(c, t)
  {
    forall q
      ensures Single(c, t, q)
    {
      assert Single(c, w, q);
      if q != p {
        OthersStay(c, w, t, p, q);
      }
    }
    forall q, r
      ensures Pair(c, t, q, r)
    {
      assert Pair(c, w, q, r);
      if q != p && r != p {
        PairsStay(c, w, t, p, q, r);
      }
    }
  }

  /** A poll that stays under way or ends, and whose bot does not move. */
  lemma GoesOn(c: Config, w: World, t: World, p: nat)
    requires Inv(c, w) && OneMoves(c, w, t, p) && p in w.pcs && p in c.polls
    requires Active(w.pcs[p]) || w.pcs[p] == t.pcs[p] || t.pcs[p] == Over(true)
    requires t.pcs[p] != Ready || w.pcs[p] == Ready
    requires Phase(t, p) == Phase(w, p) && Single(c, t, p)
    requires w.pcs[p].Over? ==> t.pcs[p] == w.pcs[p]
    ensures Inv(c, t)
  {
    forall q
      ensures Pair(c, t, p, q) && Pair(c, t, q, p)
    {
      assert Pair(c, w, p, q) && Pair(c, w, q, p) && Single(c, w, p);
    }
    Moved(c, w, t, p);
  }

  // ---- steps ----

  lemma PlansKeepLabel(o: Oracles, r: Refusal, nonce: string, text: string)
    ensures KeepsLabel(RefusalPlan(o, r)) && KeepsLabel(ChallengePlan(o, nonce)) && KeepsLabel(IssuedPlan(text))
    ensures KeepsLabel(RevokedPlan(text))
    ensures Adds(IssuedPlan(text), LABEL_ISSUED)
  {
    LabelsDiffer(BadCsr);
    var a, b, d, e := RefusalPlan(o, r), ChallengePlan(o, nonce), IssuedPlan(text), RevokedPlan(text);
    assert a[0].PostComment? && a[1] == SetLabels({LabelFor(r)}, {});
    assert b[0].PostComment? && b[1] == SetLabels({LABEL_AWAITING_CHALLENGE}, {});
    assert d[0].PostComment? && d[1] == SetLabels({LABEL_ISSUED}, {LABEL_AWAITING_CHALLENGE}) && d[2].CloseIssue?;
    assert e[0].PostComment? && e[1] == SetLabels({LABEL_REVOKED}, {}) && e[2].CloseIssue?;
    assert AddsLabel(d[1], LABEL_ISSUED);
  }

  lemma StartedPc(c: Config, p: Poll, labels: set<string>)
    ensures Started(c, p, labels).Doing? ==> KeepsLabel(Started(c, p, labels).todo)
    ensures p.EnrollPoll? && LABEL_ISSUED in labels ==> Started(c, p, labels) == Over(false)
    ensures Started(c, p, labels) != Ready
  {
    match p
    case EnrollPoll(_, resolved, _, _, _, _) =>
      if resolved.TurnedAway? {
        PlansKeepLabel(c.o, resolved.r, "", "");
      }
    case RevokePoll(_, presented, _) =>
      if presented.NotPresented? {
        PlansKeepLabel(c.o, presented.r, "", "");
      }
  }

  lemma StartStep(c: Config, w: World, p: nat)
    requires Inv(c, w) && Alone(c, w, p)
    ensures Inv(c, StepStart(c, w, p))
  {
    if Runs(c, w, p) && w.pcs[p] == Ready {
      var labels := IssueAt(w, c.polls[p].issue).labels;
      StartedPc(c, c.polls[p], labels);
      Starts(c, w, p, Started(c, c.polls[p], labels));
    }
  }

  lemma Starts(c: Config, w: World, p: nat, pc: Pc)
    requires Inv(c, w) && Runs(c, w, p) && w.pcs[p] == Ready && Alone(c, w, p)
    requires pc != Ready && (pc.Doing? ==> KeepsLabel(pc.todo))
    requires c.polls[p].EnrollPoll? && Labelled(c, w, p) ==> pc == Over(false)
    ensures Inv(c, Going(w, p, pc))
  {
    var t := Going(w, p, pc);
    assert Single(c, w, p);
    forall q
      ensures Pair(c, t, p, q) && Pair(c, t, q, p)
    {
      assert Single(c, w, q);
    }
    if c.polls[p].RevokePoll? {
      assert !Issued(c, t, p);
    }
    Moved(c, w, t, p);
  }

  lemma ReadStep(c: Config, w: World, p: nat)
    requires Inv(c, w)
    ensures Inv(c, StepRead(c, w, p))
  {
    if Runs(c, w, p) && w.pcs[p] == Reading && c.polls[p].EnrollPoll? {
      PlansKeepLabel(c.o, ChallengeExpired, c.polls[p].nonce, "");
      assert Single(c, w, p);
      GoesOn(c, w, StepRead(c, w, p), p);
    }
  }

  lemma FetchStep(c: Config, w: World, p: nat)
    requires Inv(c, w)
    ensures Inv(c, StepFetch(c, w, p))
  {
    if Runs(c, w, p) && w.pcs[p].Checking? {
      assert Single(c, w, p);
      GoesOn(c, w, StepFetch(c, w, p), p);
    }
  }

  lemma CutStep(c: Config, w: World, p: nat)
    requires Inv(c, w)
    ensures Inv(c, StepCut(c, w, p))
  {
    if Runs(c, w, p) && !w.pcs[p].Over? {
      assert Single(c, w, p);
      GoesOn(c, w, StepCut(c, w, p), p);
    }
  }

  lemma SettleStep(c: Config, w: World, p: nat)
    requires Inv(c, w)
    ensures Inv(c, StepSettle(c, w, p))
  {
    if Runs(c, w, p) && w.pcs[p] == AtLedger && Phase(w, p).Done? {
      SettledPc(c, w, p);
      GoesOn(c, w, StepSettle(c, w, p), p);
    }
  }

  lemma SettledPc(c: Config, w: World, p: nat)
    requires Runs(c, w, p) && w.pcs[p] == AtLedger && Phase(w, p).Done?
    ensures Single(c, StepSettle(c, w, p), p) && OneMoves(c, w, StepSettle(c, w, p), p)
  {
    var poll, outcome := c.polls[p], Phase(w, p).outcome;
    PlansKeepLabel(c.o, RevokedAlready, "", poll.text);
    match poll
    case EnrollPoll(_, resolved, _, _, _, _) =>
      if resolved.Claims? && resolved.n.Named? {
        PlansKeepLabel(c.o, Reserved(resolved.n.appID), "", "");
        PlansKeepLabel(c.o, OwnedByOther(resolved.n.appID), "", "");
      }
    case RevokePoll(_, presented, _) =>
      PlansKeepLabel(c.o, BadCms, "", c.o.refusal(RevokedAlready));
      if presented.Presented? {
        PlansKeepLabel(c.o, NotIssued(presented.fingerprint, presented.appID), "", "");
      }
  }

  lemma ActStepKeeps(c: Config, w: World, p: nat)
    requires Inv(c, w)
    ensures Inv(c, StepAct(c, w, p))
  {
    if Runs(c, w, p) && w.pcs[p].Doing? {
      assert Single(c, w, p);
      ActedPc(c, w, p);
      GoesOn(c, w, StepAct(c, w, p), p);
    }
  }

  lemma ActedPc(c: Config, w: World, p: nat)
    requires Runs(c, w, p) && w.pcs[p].Doing? && Single(c, w, p)
    ensures Single(c, StepAct(c, w, p), p) && OneMoves(c, w, StepAct(c, w, p), p)
  {
    var todo := w.pcs[p].todo;
    if todo != [] {
      assert forall i :: 0 <= i < |todo[1..]| ==> todo[1..][i] == todo[i + 1];
      if Adds(todo, LABEL_ISSUED) && !AddsLabel(todo[0], LABEL_ISSUED) {
        var i :| 0 <= i < |todo| && AddsLabel(todo[i], LABEL_ISSUED);
        assert AddsLabel(todo[1..][i - 1], LABEL_ISSUED);
      }
    }
  }

  lemma LedgerStep(c: Config, w: World, a: Protocol.Action)
    requires Inv(c, w)
    ensures Inv(c, StepLedger(c, w, a))
  {
    if MayMove(c, w, a.bot) {
      var t := StepLedger(c, w, a);
      OnlyOneBot(c, w, a);
      if a.bot in c.polls {
        AtLedgerMoves(c, w, t, a.bot);
      } else {
        SamePolls(c, w, t);
      }
    }
  }

  lemma OnlyOneBot(c: Config, w: World, a: Protocol.Action)
    ensures var t := w.(proto := Protocol.Step(c.lc, w.proto, a));
            && (forall q :: q != a.bot ==> Phase(t, q) == Phase(w, q))
            && (Phase(w, a.bot).Done? ==> Phase(t, a.bot) == Phase(w, a.bot))
  {}

  lemma SamePolls(c: Config, w: World, t: World)
    requires Inv(c, w) && t.pcs == w.pcs && t.issues == w.issues
    requires forall q :: q in c.polls ==> Phase(t, q) == Phase(w, q)
    ensures Inv(c, t)
  {
    forall p
      ensures Single(c, t, p)
    {
      assert Single(c, w, p);
    }
    forall p, q
      ensures Pair(c, t, p, q)
    {
      assert Pair(c, w, p, q);
    }
  }

  /** A bot commits while its poll is the only one of its issue under way. */
  lemma AtLedgerMoves(c: Config, w: World, t: World, p: nat)
    requires Inv(c, w) && Runs(c, w, p) && w.pcs[p] == AtLedger && t.pcs == w.pcs && t.issues == w.issues
    requires forall q :: q != p ==> Phase(t, q) == Phase(w, q)
    requires Phase(w, p).Done? ==> Phase(t, p) == Phase(w, p)
    ensures Inv(c, t)
  {
    assert Single(c, w, p);
    forall q
      ensures Pair(c, t, p, q) && Pair(c, t, q, p)
    {
      assert Pair(c, w, p, q) && Pair(c, w, q, p);
    }
    Moved(c, w, t, p);
  }

  lemma StepOnce(c: Config, w: World, a: Action)
    requires Inv(c, w) && (a.Start? ==> Alone(c, w, a.poll))
    ensures Inv(c, Step(c, w, a))
  {
    match a
    case Start(p) => StartStep(c, w, p);
    case ReadComments(p) => ReadStep(c, w, p);
    case FetchFile(p) => FetchStep(c, w, p);
    case OnLedger(action) => LedgerStep(c, w, action);
    case Settle(p) => SettleStep(c, w, p);
    case Act(p) => ActStepKeeps(c, w, p);
    case Cut(p) => CutStep(c, w, p);
    case _ => SamePolls(c, w, Step(c, w, a));
  }

  lemma {:induction false} RunOnce(c: Config, w: World, acts: seq<Action>)
    requires Initial(c, w) && NoOverlap(c, w, acts)
    ensures Inv(c, Run(c, w, acts))
  {
    if acts != [] {
      RunOnce(c, w, acts[..|acts| - 1]);
      StepOnce(c, Run(c, w, acts[..|acts| - 1]), acts[|acts| - 1]);
    }
  }

  // ---- the poll that issues again ----

  /** A poll that is over stays over, and its bot stays where it is. */
  lemma OverStep(c: Config, w: World, a: Action, p: nat)
    requires p in c.polls && p in w.pcs && w.pcs[p].Over?
    ensures p in Step(c, w, a).pcs && Step(c, w, a).pcs[p] == w.pcs[p] && Phase(Step(c, w, a), p) == Phase(w, p)
  {
    if a.OnLedger? {
      OverLedger(c, w, a.action, p);
    } else {
      OtherStepsKeepProto(c, w, a);
    }
  }

  lemma OverLedger(c: Config, w: World, a: Protocol.Action, p: nat)
    requires p in c.polls && p in w.pcs && w.pcs[p].Over?
    ensures StepLedger(c, w, a).pcs == w.pcs && Phase(StepLedger(c, w, a), p) == Phase(w, p)
  {
    if MayMove(c, w, a.bot) {
      OnlyOneBot(c, w, a);
    }
  }

  lemma {:induction false} OverForGood(c: Config, w: World, acts: seq<Action>, k: nat, p: nat)
    requires k <= |acts| && p in c.polls && p in Run(c, w, acts[..k]).pcs && Run(c, w, acts[..k]).pcs[p].Over?
    ensures p in Run(c, w, acts).pcs && Run(c, w, acts).pcs[p] == Run(c, w, acts[..k]).pcs[p]
    ensures Phase(Run(c, w, acts), p) == Phase(Run(c, w, acts[..k]), p)
  {
    assert acts[..|acts|] == acts;
    if k < |acts| {
      var init := acts[..|acts| - 1];
      assert init[..k] == acts[..k];
      OverForGood(c, w, init, k, p);
      OverStep(c, Run(c, w, init), acts[|acts| - 1], p);
    }
  }

  predicate HasStarted(w: World, p: nat) {
    p in w.pcs && w.pcs[p] != Ready
  }

  lemma StartsOrIsCut(c: Config, w: World, a: Action, p: nat)
    requires p in c.polls && p in w.pcs && !HasStarted(w, p) && HasStarted(Step(c, w, a), p)
    ensures a == Start(p) || (a == Cut(p) && Step(c, w, a).pcs[p].Over? && Phase(Step(c, w, a), p) == Phase(w, p))
  {}

  lemma KeepsOnStep(c: Config, w: World, a: Action, p: nat)
    requires HasStarted(w, p)
    ensures HasStarted(Step(c, w, a), p)
  {}

  lemma {:induction false} KeepsOn(c: Config, w: World, acts: seq<Action>, k: nat, p: nat)
    requires k <= |acts| && HasStarted(Run(c, w, acts[..k]), p)
    ensures HasStarted(Run(c, w, acts), p)
  {
    assert acts[..|acts|] == acts;
    if k < |acts| {
      var init := acts[..|acts| - 1];
      assert init[..k] == acts[..k];
      KeepsOn(c, w, init, k, p);
      KeepsOnStep(c, Run(c, w, init), acts[|acts| - 1], p);
    }
  }

  /** Where the poll left its first place. */
  lemma {:induction false} LeftReady(c: Config, w: World, acts: seq<Action>, p: nat) returns (s: nat)
    requires p in c.polls && p in w.pcs && !HasStarted(w, p) && HasStarted(Run(c, w, acts), p)
    ensures s < |acts| && p in Run(c, w, acts[..s]).pcs
    ensures !HasStarted(Run(c, w, acts[..s]), p) && HasStarted(Run(c, w, acts[..s + 1]), p)
  {
    var init := acts[..|acts| - 1];
    if HasStarted(Run(c, w, init), p) {
      s := LeftReady(c, w, init, p);
      assert init[..s] == acts[..s] && init[..s + 1] == acts[..s + 1];
    } else {
      s := |acts| - 1;
      RunKeys(c, w, init);
      assert acts[..s + 1] == acts;
    }
  }

  /** A poll that was cut before it started never commits. */
  lemma CutBeforeStart(c: Config, w: World, acts: seq<Action>, s: nat, p: nat)
    requires s < |acts| && acts[s] != Start(p) && p in c.polls && p in Run(c, w, acts[..s]).pcs
    requires Single(c, Run(c, w, acts[..s]), p)
    requires !HasStarted(Run(c, w, acts[..s]), p) && HasStarted(Run(c, w, acts[..s + 1]), p)
    ensures !Issued(c, Run(c, w, acts), p)
  {
    assert acts[..s + 1] == acts[..s] + [acts[s]];
    RunOneMore(c, w, acts[..s], acts[s]);
    StartsOrIsCut(c, Run(c, w, acts[..s]), acts[s], p);
    OverForGood(c, w, acts, s + 1, p);
  }

  lemma WasStarted(c: Config, w: World, p: nat)
    requires Single(c, w, p) && Issued(c, w, p) && p in w.pcs
    ensures HasStarted(w, p)
  {}

  /** A poll that has committed was started. */
  lemma StartOf(c: Config, w: World, acts: seq<Action>, p: nat) returns (s: nat)
    requires Initial(c, w) && NoOverlap(c, w, acts) && Issued(c, Run(c, w, acts), p)
    ensures s < |acts| && acts[s] == Start(p) && p in Run(c, w, acts[..s]).pcs && !HasStarted(Run(c, w, acts[..s]), p)
    ensures HasStarted(Run(c, w, acts[..s + 1]), p)
  {
    RunOnce(c, w, acts);
    RunKeys(c, w, acts);
    assert Single(c, Run(c, w, acts), p);
    WasStarted(c, Run(c, w, acts), p);
    s := LeftReady(c, w, acts, p);
    NoOverlapUpTo(c, w, acts, s);
    RunOnce(c, w, acts[..s]);
    assert Single(c, Run(c, w, acts[..s]), p);
    if acts[s] != Start(p) {
      CutBeforeStart(c, w, acts, s, p);
    }
  }

  lemma {:induction false} NoOverlapUpTo(c: Config, w: World, acts: seq<Action>, n: nat)
    requires NoOverlap(c, w, acts) && n <= |acts|
    ensures NoOverlap(c, w, acts[..n])
    ensures n < |acts| && acts[n].Start? ==> Alone(c, Run(c, w, acts[..n]), acts[n].poll)
  {
    assert acts[..|acts|] == acts;
    if n < |acts| {
      var init := acts[..|acts| - 1];
      if n < |init| {
        NoOverlapUpTo(c, w, init, n);
        assert init[..n] == acts[..n] && init[n] == acts[n];
      }
    }
  }

  /** A request that carries the label when a poll of it starts is not issued by that poll. */
  lemma LabelStopsPoll(c: Config, w: World, acts: seq<Action>, s: nat, q: nat)
    requires s < |acts| && acts[s] == Start(q) && q in Run(c, w, acts[..s]).pcs && Run(c, w, acts[..s]).pcs[q] == Ready
    requires q in c.polls && c.polls[q].EnrollPoll? && Single(c, Run(c, w, acts[..s]), q)
    requires Labelled(c, Run(c, w, acts[..s]), q)
    ensures !Issued(c, Run(c, w, acts), q)
  {
    var m := Run(c, w, acts[..s]);
    assert acts[..s + 1] == acts[..s] + [acts[s]];
    RunOneMore(c, w, acts[..s], acts[s]);
    StartedPc(c, c.polls[q], IssueAt(m, c.polls[q].issue).labels);
    assert Step(c, m, Start(q)) == Going(m, q, Over(false));
    OverForGood(c, w, acts, s + 1, q);
  }

  /** Step `s` starts `q`: `p` has committed and was cut off, and the label is missing. */
  ghost predicate StartsUnlabelled(c: Config, w: World, acts: seq<Action>, p: nat, q: nat, s: nat)
    requires s < |acts|
  {
    var m := Run(c, w, acts[..s]);
    && acts[s] == Start(q) && q in m.pcs && m.pcs[q] == Ready
    && Issued(c, m, p) && CutOff(m, p) && !Labelled(c, m, q)
  }

  /** A poll that has committed and makes way for another of its request is over: with the label set,
      or cut off. */
  lemma MadeWay(c: Config, m: World, p: nat, q: nat)
    requires SameIssue(c, p, q) && Alone(c, m, q) && HasStarted(m, p)
    ensures m.pcs[p].Over?
    ensures Single(c, m, p) && Issued(c, m, p) ==> CutOff(m, p) || Labelled(c, m, q)
  {
    assert SameNumber(c, q, p);
  }

  lemma SecondStart(c: Config, w: World, acts: seq<Action>, p: nat, q: nat, sp: nat, s: nat)
    requires Initial(c, w) && NoOverlap(c, w, acts) && SameIssue(c, p, q)
    requires Issued(c, Run(c, w, acts), p) && Issued(c, Run(c, w, acts), q)
    requires sp < s < |acts| && acts[s] == Start(q) && q in Run(c, w, acts[..s]).pcs
    requires !HasStarted(Run(c, w, acts[..s]), q)
    requires HasStarted(Run(c, w, acts[..sp + 1]), p)
    ensures StartsUnlabelled(c, w, acts, p, q, s)
  {
    var m := Run(c, w, acts[..s]);
    NoOverlapUpTo(c, w, acts, s);
    RunOnce(c, w, acts[..s]);
    assert Single(c, m, p) && Single(c, m, q);
    assert acts[..s][..sp + 1] == acts[..sp + 1];
    KeepsOn(c, w, acts[..s], sp + 1, p);
    MadeWay(c, m, p, q);
    StillIssued(c, w, acts, s, p);
    if Labelled(c, m, q) {
      LabelStopsPoll(c, w, acts, s, q);
    }
  }

  lemma StillIssued(c: Config, w: World, acts: seq<Action>, s: nat, p: nat)
    requires s <= |acts| && p in c.polls && p in Run(c, w, acts[..s]).pcs && Run(c, w, acts[..s]).pcs[p].Over?
    ensures Issued(c, Run(c, w, acts), p) <==> Issued(c, Run(c, w, acts[..s]), p)
  {
    OverForGood(c, w, acts, s, p);
  }

  /** A request gets two entries only if a poll of it was cut off after its write and before its label:
      when the later of two committing polls started, the other had committed and was over, and the
      label was still missing. */
  lemma IssuedOnceUnlessCutOff(c: Config, w: World, acts: seq<Action>, p: nat, q: nat) returns (s: nat)
    requires Initial(c, w) && NoOverlap(c, w, acts) && SameIssue(c, p, q)
    requires Issued(c, Run(c, w, acts), p) && Issued(c, Run(c, w, acts), q)
    ensures s < |acts| && (StartsUnlabelled(c, w, acts, p, q, s) || StartsUnlabelled(c, w, acts, q, p, s))
  {
    var sp := StartOf(c, w, acts, p);
    var sq := StartOf(c, w, acts, q);
    if sp < sq {
      s := sq;
      SecondStart(c, w, acts, p, q, sp, sq);
    } else {
      s := sp;
      SecondStart(c, w, acts, q, p, sq, sp);
    }
  }

  lemma {:induction false} RunKeys(c: Config, w: World, acts: seq<Action>)
    ensures Run(c, w, acts).pcs.Keys == w.pcs.Keys
  {
    if acts != [] {
      RunKeys(c, w, acts[..|acts| - 1]);
      StepKeys(c, Run(c, w, acts[..|acts| - 1]), acts[|acts| - 1]);
    }
  }

  lemma StepKeys(c: Config, w: World, a: Action)
    ensures Step(c, w, a).pcs.Keys == w.pcs.Keys
  {}

  // ---- without faults ----

  predicate NoCuts(acts: seq<Action>) {
    forall i :: 0 <= i < |acts| ==> !acts[i].Cut?
  }

  lemma SettledNotCut(c: Config, w: World, p: nat, q: nat)
    requires Issued(c, w, q) ==> !CutOff(w, q)
    ensures Issued(c, StepSettle(c, w, p), q) ==> !CutOff(StepSettle(c, w, p), q)
  {}

  lemma StepNotCut(c: Config, w: World, a: Action, q: nat)
    requires !a.Cut? && Single(c, w, q) && (Issued(c, w, q) ==> !CutOff(w, q))
    ensures Issued(c, Step(c, w, a), q) ==> !CutOff(Step(c, w, a), q)
  {
    match a
    case OnLedger(action) =>
      if MayMove(c, w, action.bot) {
        OnlyOneBot(c, w, action);
      }
    case Settle(p) => SettledNotCut(c, w, p, q);
    case _ => OtherStepsKeepProto(c, w, a);
  }

  lemma {:induction false} IssuedNotCut(c: Config, w: World, acts: seq<Action>, q: nat)
    requires Initial(c, w) && NoOverlap(c, w, acts) && NoCuts(acts)
    ensures Issued(c, Run(c, w, acts), q) ==> !CutOff(Run(c, w, acts), q)
  {
    if acts != [] {
      var init := acts[..|acts| - 1];
      RunOnce(c, w, init);
      IssuedNotCut(c, w, init, q);
      assert Single(c, Run(c, w, init), q);
      StepNotCut(c, Run(c, w, init), acts[|acts| - 1], q);
    }
  }

  /** In runs without faults at most one poll of a request ever commits. */
  lemma AtMostOneEntry(c: Config, w: World, acts: seq<Action>, p: nat, q: nat)
    requires Initial(c, w) && NoOverlap(c, w, acts) && NoCuts(acts) && SameIssue(c, p, q)
    ensures !(Issued(c, Run(c, w, acts), p) && Issued(c, Run(c, w, acts), q))
  {
    IssuedNotCut(c, w, acts, p);
    IssuedNotCut(c, w, acts, q);
    RunOnce(c, w, acts);
    RunKeys(c, w, acts);
    assert Pair(c, Run(c, w, acts), p, q);
  }
}
