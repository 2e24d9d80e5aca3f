/** An expired challenge is the end of a request, unless a refusal or a delivery echoes a marker on
    its issue. */
module PollExpiry {
  import opened Wrappers
  import opened Ledger
  import opened Updates
  import opened Store
  import opened Polls
  import opened Polling
  import opened PollOnce
  import opened PollComments
  import Challenge
  import Protocol

  /** A poll that read these comments now would report the request expired. */
  predicate ExpiredAt(comments: seq<Challenge.Comment>, now: int) {
    var last := Challenge.LastChallenge(comments);
    last.Some? && Challenge.Expired(last.value.postedAt, now)
  }

  lemma ExpireMeansExpired(comments: seq<Challenge.Comment>, now: int)
    ensures StageOf(comments, now) == Expire <==> ExpiredAt(comments, now)
    ensures !NoneMarked(comments) ==> StageOf(comments, now) != PostNew
  {
    UnmarkedHasNone(comments);
  }

  lemma LastOfOneMore(comments: seq<Challenge.Comment>, more: Challenge.Comment)
    ensures Challenge.LastChallenge(comments + [more])
            == if Marked(more) then Some(Challenge.Prior(Challenge.ParseNonce(more.body).value, more.createdAt))
               else Challenge.LastChallenge(comments)
  {
    assert (comments + [more])[..|comments + [more]| - 1] == comments;
  }

  // ---- time ----

  lemma {:induction false} ClockGrows(c: Config, w: World, acts: seq<Action>, k: nat)
    requires k <= |acts|
    ensures Run(c, w, acts[..k]).clock <= Run(c, w, acts).clock
  {
    if k == |acts| {
      assert acts[..k] == acts;
    } else {
      var init := acts[..|acts| - 1];
      ClockGrows(c, w, init, k);
      assert init[..k] == acts[..k];
      StepClock(c, Run(c, w, init), acts[|acts| - 1]);
    }
  }

  lemma StepClock(c: Config, w: World, a: Action)
    ensures w.clock <= Step(c, w, a).clock
  {}

  // ---- what reopens a request ----

  /** Step `j` echoed a marker on issue `n`, at most 72 hours before `now`. */
  predicate EchoWithin(c: Config, w: World, acts: seq<Action>, n: int, j: nat, now: int)
    requires j < |acts|
  {
    PostsEcho(c, Run(c, w, acts[..j]), acts[j], n) && !Challenge.Expired(Run(c, w, acts[..j]).clock, now)
  }

  /** Some step from `k` on did. */
  predicate EchoSince(c: Config, w: World, acts: seq<Action>, n: int, k: nat, now: int) {
    exists j :: k <= j < |acts| && EchoWithin(c, w, acts, n, j, now)
  }

  lemma EchoOneMore(c: Config, w: World, acts: seq<Action>, n: int, k: nat, now: int)
    requires k < |acts|
    ensures var init := acts[..|acts| - 1];
            EchoSince(c, w, acts, n, k, now) <==>
            EchoSince(c, w, init, n, k, now) || EchoWithin(c, w, acts, n, |acts| - 1, now)
  {
    var init := acts[..|acts| - 1];
    forall j | k <= j < |init|
      ensures EchoWithin(c, w, acts, n, j, now) <==> EchoWithin(c, w, init, n, j, now)
    {
      assert init[..j] == acts[..j] && init[j] == acts[j];
    }
  }

  /** One step and what is expired: a marker echoed counts from its own time, anything else changes
      nothing. */
  lemma StepExpiry(c: Config, w: World, a: Action, n: int, now: int)
    requires AllFresh(c, w) && !NoneMarked(IssueAt(w, n).comments)
    ensures !NoneMarked(IssueAt(Step(c, w, a), n).comments)
    ensures ExpiredAt(IssueAt(Step(c, w, a), n).comments, now)
            <==> if PostsEcho(c, w, a, n) then Challenge.Expired(w.clock, now)
                else ExpiredAt(IssueAt(w, n).comments, now)
  {
    var comments := IssueAt(w, n).comments;
    StepComments(c, w, a, n);
    if Posts(c, w, a, n) {
      assert FreshChallenge(c, w, a.poll);
      LastOfOneMore(comments, PostedBy(w, a));
      StillMarked(comments, [PostedBy(w, a)]);
    } else {
      assert comments + [] == comments;
    }
  }

  lemma StillMarked(comments: seq<Challenge.Comment>, more: seq<Challenge.Comment>)
    requires !NoneMarked(comments)
    ensures !NoneMarked(comments + more)
  {
    var i :| 0 <= i < |comments| && Marked(comments[i]);
    assert (comments + more)[i] == comments[i];
  }

  /** An echo of long ago is expired too, once a later one is. */
  lemma NoEarlierEcho(c: Config, w: World, acts: seq<Action>, n: int, k: nat, now: int)
    requires k < |acts| && Challenge.Expired(Run(c, w, acts[..|acts| - 1]).clock, now)
    ensures !EchoSince(c, w, acts[..|acts| - 1], n, k, now)
  {
    var init := acts[..|acts| - 1];
    forall j | k <= j < |init|
      ensures !EchoWithin(c, w, init, n, j, now)
    {
      ClockGrows(c, w, init, j);
    }
  }

  /** From a moment at which an issue is expired for `now`, it stays so unless a marker is echoed on
      it no more than 72 hours before `now`. */
  lemma {:induction false} StaysExpired(c: Config, w: World, acts: seq<Action>, n: int, k: nat, now: int)
    requires Initial(c, w) && NoOverlap(c, w, acts) && k <= |acts|
    requires ExpiredAt(IssueAt(Run(c, w, acts[..k]), n).comments, now)
    ensures !NoneMarked(IssueAt(Run(c, w, acts), n).comments)
    ensures ExpiredAt(IssueAt(Run(c, w, acts), n).comments, now) <==> !EchoSince(c, w, acts, n, k, now)
  {
    if k == |acts| {
      assert acts[..k] == acts;
      UnmarkedHasNone(IssueAt(Run(c, w, acts), n).comments);
    } else {
      var init, a := acts[..|acts| - 1], acts[|acts| - 1];
      assert init[..k] == acts[..k];
      StaysExpired(c, w, init, n, k, now);
      RunFresh(c, w, init);
      StepExpiry(c, Run(c, w, init), a, n, now);
      EchoOneMore(c, w, acts, n, k, now);
      if PostsEcho(c, Run(c, w, init), a, n) && Challenge.Expired(Run(c, w, init).clock, now) {
        NoEarlierEcho(c, w, acts, n, k, now);
      }
    }
  }

  /** What a poll that reads the comments now makes of them. */
  function StageIn(w: World, n: int): Stage {
    StageOf(IssueAt(w, n).comments, w.clock)
  }

  /** The step is a poll's report that the request has expired. */
  predicate ReportsExpiry(c: Config, w: World, a: Action, n: int) {
    && a.ReadComments? && Runs(c, w, a.poll) && c.polls[a.poll].EnrollPoll? && c.polls[a.poll].issue == n
    && w.pcs[a.poll] == Reading && StageIn(w, n) == Expire
  }

  /** What every later poll reads: after a poll has reported a request expired, the challenge is found
      expired again if and only if no marker was echoed on the issue since, at most 72 hours before
      the reading. No third case: a fresh challenge is never posted again. */
  lemma ExpiredUnlessEchoed(c: Config, w: World, acts: seq<Action>, n: int, k: nat)
    requires Initial(c, w) && NoOverlap(c, w, acts) && k < |acts|
    requires ReportsExpiry(c, Run(c, w, acts[..k]), acts[k], n)
    ensures StageIn(Run(c, w, acts), n) == Expire <==> !EchoSince(c, w, acts, n, k, Run(c, w, acts).clock)
    ensures StageIn(Run(c, w, acts), n) != PostNew
  {
    var m, t := Run(c, w, acts[..k]), Run(c, w, acts);
    ClockGrows(c, w, acts, k);
    ExpireMeansExpired(IssueAt(m, n).comments, m.clock);
    StaysExpired(c, w, acts, n, k, t.clock);
    ExpireMeansExpired(IssueAt(t, n).comments, t.clock);
  }

  // ---- certificates after expiry ----

  /** The poll has got past its challenge. */
  predicate Past(c: Config, w: World, p: nat) {
    p in w.pcs && (w.pcs[p].Checking? || w.pcs[p] == AtLedger || Phase(w, p) != Protocol.Start)
  }

  lemma LedgerPast(c: Config, w: World, a: Protocol.Action, p: nat)
    requires p in c.polls && p in w.pcs && !Past(c, w, p)
    ensures !Past(c, StepLedger(c, w, a), p)
  {
    if MayMove(c, w, a.bot) {
      OnlyOneBot(c, w, a);
    }
  }

  /** An issuer gets past its challenge by reading that it is good, and in no other way. */
  lemma GetsPast(c: Config, w: World, a: Action, p: nat)
    requires p in c.polls && c.polls[p].EnrollPoll? && p in w.pcs && !Past(c, w, p) && Past(c, Step(c, w, a), p)
    ensures a == ReadComments(p) && w.pcs[p] == Reading
    ensures StageIn(w, c.polls[p].issue).Await?
  {
    match a
    case OnLedger(action) => LedgerPast(c, w, action, p);
    case Start(q) => StartsBefore(c, w, q, p);
    case _ =>
  }

  lemma StartsBefore(c: Config, w: World, q: nat, p: nat)
    requires p in c.polls && c.polls[p].EnrollPoll? && p in w.pcs && !Past(c, w, p)
    ensures !Past(c, StepStart(c, w, q), p)
  {
    if q == p {
      assert Started(c, c.polls[p], IssueAt(w, c.polls[p].issue).labels) != AtLedger;
    }
  }

  /** The step at which it did. */
  lemma {:induction false} GotPast(c: Config, w: World, acts: seq<Action>, k: nat, p: nat) returns (r: nat)
    requires p in c.polls && c.polls[p].EnrollPoll? && k <= |acts| && p in w.pcs
    requires !Past(c, Run(c, w, acts[..k]), p) && Past(c, Run(c, w, acts), p)
    ensures k <= r < |acts| && acts[r] == ReadComments(p)
    ensures StageIn(Run(c, w, acts[..r]), c.polls[p].issue).Await?
  {
    assert acts[..|acts|] == acts;
    if k == |acts| {
      assert false;
    } else {
      var init := acts[..|acts| - 1];
      assert init[..k] == acts[..k];
      if Past(c, Run(c, w, init), p) {
        r := GotPast(c, w, init, k, p);
        assert init[..r] == acts[..r] && init[r] == acts[r];
      } else {
        r := |acts| - 1;
        RunKeys(c, w, init);
        GetsPast(c, Run(c, w, init), acts[r], p);
      }
    }
  }

  /** After a poll has reported a request expired, a poll that starts later commits only if a marker
      was echoed on the issue in between: after the report, and at most 72 hours before the later
      poll read the comments. */
  lemma CertificateAfterExpiryNeedsEcho(c: Config, w: World, acts: seq<Action>, n: int, k: nat, p: nat)
    returns (j: nat, r: nat)
    requires Initial(c, w) && NoOverlap(c, w, acts) && k < |acts|
    requires ReportsExpiry(c, Run(c, w, acts[..k]), acts[k], n)
    requires p in c.polls && c.polls[p].EnrollPoll? && c.polls[p].issue == n
    requires p in Run(c, w, acts[..k]).pcs && Run(c, w, acts[..k]).pcs[p] == Ready
    requires Issued(c, Run(c, w, acts), p)
    ensures k <= j < r < |acts| && acts[r] == ReadComments(p)
    ensures EchoWithin(c, w, acts, n, j, Run(c, w, acts[..r]).clock)
  {
    NoOverlapUpTo(c, w, acts, k);
    RunOnce(c, w, acts[..k]);
    assert Single(c, Run(c, w, acts[..k]), p);
    RunKeys(c, w, acts[..k]);
    RunKeys(c, w, acts);
    r := GotPast(c, w, acts, k, p);
    j := EchoBefore(c, w, acts, n, k, r);
  }

  lemma EchoBefore(c: Config, w: World, acts: seq<Action>, n: int, k: nat, r: nat) returns (j: nat)
    requires Initial(c, w) && NoOverlap(c, w, acts) && k <= r < |acts| && k < |acts|
    requires ReportsExpiry(c, Run(c, w, acts[..k]), acts[k], n)
    requires StageIn(Run(c, w, acts[..r]), n).Await?
    ensures k <= j < r && EchoWithin(c, w, acts, n, j, Run(c, w, acts[..r]).clock)
  {
    if k == r {
      assert false;
    } else {
      NoOverlapUpTo(c, w, acts, r);
      SamePrefix(acts, r, k);
      ExpiredUnlessEchoed(c, w, acts[..r], n, k);
      j := EchoInPrefix(c, w, acts, n, k, r, Run(c, w, acts[..r]).clock);
    }
  }

  lemma SamePrefix(acts: seq<Action>, r: nat, k: nat)
    requires k < r <= |acts|
    ensures acts[..r][..k] == acts[..k] && acts[..r][k] == acts[k]
  {}

  lemma EchoInPrefix(c: Config, w: World, acts: seq<Action>, n: int, k: nat, r: nat, now: int) returns (j: nat)
    requires r <= |acts| && EchoSince(c, w, acts[..r], n, k, now)
    ensures k <= j < r && EchoWithin(c, w, acts, n, j, now)
  {
    j :| k <= j < r && EchoWithin(c, w, acts[..r], n, j, now);
    SamePrefix(acts, r, j);
  }

  /** So when nothing the polls of the issue can say holds a marker, no poll that starts after the
      report ever commits a certificate. */
  lemma NoCertificateAfterExpiry(c: Config, w: World, acts: seq<Action>, n: int, k: nat, p: nat)
    requires Initial(c, w) && NoOverlap(c, w, acts) && k < |acts| && Unmarked(c, n)
    requires ReportsExpiry(c, Run(c, w, acts[..k]), acts[k], n)
    requires p in c.polls && c.polls[p].EnrollPoll? && c.polls[p].issue == n
    requires p in Run(c, w, acts[..k]).pcs && Run(c, w, acts[..k]).pcs[p] == Ready
    ensures !Issued(c, Run(c, w, acts), p)
  {
    if Issued(c, Run(c, w, acts), p) {
      var j, r := CertificateAfterExpiryNeedsEcho(c, w, acts, n, k, p);
      EchoIsOwnText(c, w, acts[..j], acts[j], n);
      assert false;
    }
  }
}
