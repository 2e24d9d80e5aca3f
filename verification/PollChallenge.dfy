/** What a certificate says about control of the repository, over runs of many polls. */
module PollChallenge {
  import opened Wrappers
  import opened Ledger
  import opened Updates
  import opened Store
  import opened Polls
  import opened Polling
  import opened PollOnce
  import Challenge
  import Protocol

  // ---- every certificate was proven for ----

  predicate ShownAt(comments: seq<Challenge.Comment>, prior: Challenge.Prior, i: int) {
    0 <= i < |comments| && Challenge.ParseNonce(comments[i].body) == Some(prior.nonce) &&
        comments[i].createdAt == prior.postedAt
  }

  /** The challenge stands in one of the bot's comments. */
  ghost predicate Shown(comments: seq<Challenge.Comment>, prior: Challenge.Prior) {
    exists i :: ShownAt(comments, prior, i)
  }

  /** A posted challenge that was read in time. */
  ghost predicate InTime(c: Config, w: World, p: nat, prior: Challenge.Prior, readAt: int)
    requires p in c.polls
  {
    && Shown(IssueAt(w, c.polls[p].issue).comments, prior)
    && prior.postedAt <= readAt <= prior.postedAt + 72 * 60 * 60 * 1_000_000_000
    && readAt <= w.clock
  }

  /** The requester's file, when it was fetched, trimmed to the nonce of a challenge in time. */
  ghost predicate Proven(c: Config, w: World, p: nat)
    requires p in c.polls
  {
    && p in w.evidence
    && InTime(c, w, p, w.evidence[p].prior, w.evidence[p].readAt)
    && Challenge.Match(w.evidence[p].prior.nonce, w.evidence[p].file)
  }

  /** No comment lies in the future. */
  predicate PostedByNow(w: World, n: int) {
    forall i :: 0 <= i < |IssueAt(w, n).comments| ==> IssueAt(w, n).comments[i].createdAt <= w.clock
  }

  ghost predicate ProofInv(c: Config, w: World, p: nat) {
    p in c.polls && p in w.pcs && c.polls[p].EnrollPoll? ==>
      && (w.pcs[p].Checking? ==> InTime(c, w, p, w.pcs[p].prior, w.pcs[p].readAt))
      && (w.pcs[p] == AtLedger || Phase(w, p) != Protocol.Start ==> Proven(c, w, p))
  }

  ghost predicate AllProven(c: Config, w: World) {
    && (forall p :: ProofInv(c, w, p))
    && (forall n :: PostedByNow(w, n))
  }

  /** Comments are only added, time only passes, evidence stays. */
  ghost predicate Later(w: World, t: World) {
    && (forall n :: IssueAt(w, n).comments <= IssueAt(t, n).comments)
    && w.clock <= t.clock
  }

  lemma ShownStays(a: seq<Challenge.Comment>, b: seq<Challenge.Comment>, prior: Challenge.Prior)
    requires Shown(a, prior) && a <= b
    ensures Shown(b, prior)
  {
    var i :| ShownAt(a, prior, i);
    assert ShownAt(b, prior, i);
  }

  lemma InTimeStays(c: Config, w: World, t: World, p: nat, prior: Challenge.Prior, readAt: int)
    requires p in c.polls && InTime(c, w, p, prior, readAt) && Later(w, t)
    ensures InTime(c, t, p, prior, readAt)
  {
    ShownStays(IssueAt(w, c.polls[p].issue).comments, IssueAt(t, c.polls[p].issue).comments, prior);
  }

  /** A step that leaves a poll's place, bot and evidence alone. */
  lemma ProofStays(c: Config, w: World, t: World, p: nat)
    requires ProofInv(c, w, p) && Later(w, t)
    requires p in w.pcs <==> p in t.pcs
    requires p in c.polls && p in w.pcs && c.polls[p].EnrollPoll? ==>
               && (t.pcs[p] == w.pcs[p] || (!t.pcs[p].Checking? && t.pcs[p] != AtLedger))
               && (Phase(t, p) != Protocol.Start ==> Phase(w, p) != Protocol.Start || w.pcs[p] == AtLedger)
               && (p in w.evidence ==> p in t.evidence && t.evidence[p] == w.evidence[p])
    ensures ProofInv(c, t, p)
  {
    if p in c.polls && p in w.pcs && c.polls[p].EnrollPoll? {
      if w.pcs[p].Checking? {
        InTimeStays(c, w, t, p, w.pcs[p].prior, w.pcs[p].readAt);
      }
      if w.pcs[p] == AtLedger || Phase(w, p) != Protocol.Start {
        InTimeStays(c, w, t, p, w.evidence[p].prior, w.evidence[p].readAt);
      }
    }
  }

  lemma LastIsShown(comments: seq<Challenge.Comment>)
    requires Challenge.LastChallenge(comments).Some?
    ensures Shown(comments, Challenge.LastChallenge(comments).value)
  {
    var i := Challenge.LastChallengeIsLast(comments);
    assert ShownAt(comments, Challenge.LastChallenge(comments).value, i);
  }

  lemma ReadProven(c: Config, w: World, p: nat)
    requires AllProven(c, w)
    ensures AllProven(c, StepRead(c, w, p))
  {
    var t := StepRead(c, w, p);
    SameIssues(w, t);
    forall q
      ensures ProofInv(c, t, q)
    {
      assert ProofInv(c, w, q);
      if q == p && Runs(c, w, p) && w.pcs[p] == Reading && c.polls[p].EnrollPoll? {
        ReadPoll(c, w, p);
      } else {
        ProofStays(c, w, t, q);
      }
    }
  }

  lemma ReadPoll(c: Config, w: World, p: nat)
    requires Runs(c, w, p) && w.pcs[p] == Reading && c.polls[p].EnrollPoll?
    requires ProofInv(c, w, p) && PostedByNow(w, c.polls[p].issue)
    ensures ProofInv(c, StepRead(c, w, p), p)
  {
    var t, comments := StepRead(c, w, p), IssueAt(w, c.polls[p].issue).comments;
    if t.pcs[p].Checking? {
      LastIsShown(comments);
      var i := Challenge.LastChallengeIsLast(comments);
      assert comments[i].createdAt <= w.clock;
    } else {
      ProofStays(c, w, t, p);
    }
  }

  lemma FetchProven(c: Config, w: World, p: nat)
    requires AllProven(c, w)
    ensures AllProven(c, StepFetch(c, w, p))
  {
    var t := StepFetch(c, w, p);
    SameIssues(w, t);
    forall q
      ensures ProofInv(c, t, q)
    {
      assert ProofInv(c, w, q);
      if q != p || !Runs(c, w, p) || !w.pcs[p].Checking? {
        ProofStays(c, w, t, q);
      } else if t.pcs[p] == AtLedger && c.polls[p].EnrollPoll? {
        InTimeStays(c, w, t, p, w.pcs[p].prior, w.pcs[p].readAt);
      } else {
        ProofStays(c, w, t, p);
      }
    }
  }

  /** The other steps neither send an issuer to the ledger nor let it read a challenge. */
  lemma OtherProven(c: Config, w: World, t: World)
    requires AllProven(c, w) && Later(w, t)
    requires t.pcs.Keys == w.pcs.Keys && t.evidence == w.evidence
    requires forall p :: p in c.polls && p in w.pcs && c.polls[p].EnrollPoll? ==>
               && (t.pcs[p] == w.pcs[p] || (!t.pcs[p].Checking? && t.pcs[p] != AtLedger))
               && (Phase(t, p) != Protocol.Start ==> Phase(w, p) != Protocol.Start || w.pcs[p] == AtLedger)
    requires forall n :: PostedByNow(t, n)
    ensures AllProven(c, t)
  {
    forall p
      ensures ProofInv(c, t, p)
    {
      assert ProofInv(c, w, p);
      ProofStays(c, w, t, p);
    }
  }

  lemma SameIssues(w: World, t: World)
    requires t.issues == w.issues && w.clock <= t.clock && forall n :: PostedByNow(w, n)
    ensures Later(w, t) && forall n :: PostedByNow(t, n)
  {
    forall n
      ensures IssueAt(t, n) == IssueAt(w, n) && PostedByNow(t, n)
    {
      assert IssueAt(t, n) == IssueAt(w, n) && PostedByNow(w, n);
      forall i | 0 <= i < |IssueAt(t, n).comments|
        ensures IssueAt(t, n).comments[i].createdAt <= t.clock
      {
        assert IssueAt(w, n).comments[i].createdAt <= w.clock;
      }
    }
  }

  lemma StartProven(c: Config, w: World, p: nat)
    requires AllProven(c, w)
    ensures AllProven(c, StepStart(c, w, p))
  {
    SameIssues(w, StepStart(c, w, p));
    OtherProven(c, w, StepStart(c, w, p));
  }

  lemma CutProven(c: Config, w: World, p: nat)
    requires AllProven(c, w)
    ensures AllProven(c, StepCut(c, w, p))
  {
    SameIssues(w, StepCut(c, w, p));
    OtherProven(c, w, StepCut(c, w, p));
  }

  lemma SettleProven(c: Config, w: World, p: nat)
    requires AllProven(c, w)
    ensures AllProven(c, StepSettle(c, w, p))
  {
    SameIssues(w, StepSettle(c, w, p));
    OtherProven(c, w, StepSettle(c, w, p));
  }

  lemma EffectAppends(s: IssueState, e: Effect, now: int)
    ensures s.comments <= Perform(s, e, now).comments
    ensures forall i :: |s.comments| <= i < |Perform(s, e, now).comments| ==>
              Perform(s, e, now).comments[i].createdAt == now
  {}

  lemma ActProven(c: Config, w: World, p: nat)
    requires AllProven(c, w)
    ensures AllProven(c, StepAct(c, w, p))
  {
    var t := StepAct(c, w, p);
    if Runs(c, w, p) && w.pcs[p].Doing? && w.pcs[p].todo != [] {
      EffectAppends(IssueAt(w, c.polls[p].issue), w.pcs[p].todo[0], w.clock);
      ActedIssues(w, t, c.polls[p].issue);
    } else {
      SameIssues(w, t);
    }
    OtherProven(c, w, t);
  }

  lemma ActedIssues(w: World, t: World, m: int)
    requires t.clock == w.clock && forall n :: n != m ==> IssueAt(t, n) == IssueAt(w, n)
    requires IssueAt(w, m).comments <= IssueAt(t, m).comments
    requires forall i :: |IssueAt(w, m).comments| <= i < |IssueAt(t, m).comments| ==>
               IssueAt(t, m).comments[i].createdAt == w.clock
    requires forall n :: PostedByNow(w, n)
    ensures Later(w, t) && forall n :: PostedByNow(t, n)
  {
    forall n
      ensures PostedByNow(t, n) && IssueAt(w, n).comments <= IssueAt(t, n).comments
    {
      assert PostedByNow(w, n);
      assert forall i :: 0 <= i < |IssueAt(w, n).comments| ==> IssueAt(t, n).comments[i] == IssueAt(w, n).comments[i];
    }
  }

  lemma LedgerProven(c: Config, w: World, a: Protocol.Action)
    requires AllProven(c, w)
    ensures AllProven(c, StepLedger(c, w, a))
  {
    var t := StepLedger(c, w, a);
    SameIssues(w, t);
    if MayMove(c, w, a.bot) {
      OnlyOneBot(c, w, a);
    }
    OtherProven(c, w, t);
  }

  lemma OutsideProven(c: Config, w: World, t: World)
    requires AllProven(c, w) && t.proto == w.proto && t.pcs == w.pcs && t.issues == w.issues
    requires t.evidence == w.evidence && w.clock <= t.clock
    ensures AllProven(c, t)
  {
    SameIssues(w, t);
    OtherProven(c, w, t);
  }

  lemma StepProven(c: Config, w: World, a: Action)
    requires AllProven(c, w)
    ensures AllProven(c, Step(c, w, a))
  {
    match a
    case Start(p) => StartProven(c, w, p);
    case ReadComments(p) => ReadProven(c, w, p);
    case FetchFile(p) => FetchProven(c, w, p);
    case OnLedger(action) => LedgerProven(c, w, action);
    case Settle(p) => SettleProven(c, w, p);
    case Act(p) => ActProven(c, w, p);
    case Cut(p) => CutProven(c, w, p);
    case _ => OutsideProven(c, w, Step(c, w, a));
  }

  lemma {:induction false} RunProven(c: Config, w: World, acts: seq<Action>)
    requires Initial(c, w)
    ensures AllProven(c, Run(c, w, acts))
  {
    if acts != [] {
      RunProven(c, w, acts[..|acts| - 1]);
      StepProven(c, Run(c, w, acts[..|acts| - 1]), acts[|acts| - 1]);
    }
  }

  /** In every interleaving a certificate was issued only after a marker had been posted on its issue,
      read there at most 72 hours later, and a file fetched that trims to its nonce. */
  lemma IssuedOnlyWhenProven(c: Config, w: World, acts: seq<Action>, p: nat)
    requires Initial(c, w) && Issued(c, Run(c, w, acts), p)
    ensures Proven(c, Run(c, w, acts), p)
  {
    RunProven(c, w, acts);
    RunKeys(c, w, acts);
    assert ProofInv(c, Run(c, w, acts), p);
  }
}
