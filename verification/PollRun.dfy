/** One poll of one issue against a client that may fail and be interfered with at every call: what
    it commits, and which part of its plan it carries out. Shared by the two pipelines that work
    on issues. */
module PollRun {
  import opened Wrappers
  import opened Ledger
  import opened Updates
  import opened Blobs
  import opened Store
  import opened Steps
  import Challenge
  import Polls
  import Protocol

  /** `after` is what the first `k` effects of `plan` make of an issue; a poll that reports no
      error has gone through them all. */
  predicate Did(before: IssueState, after: IssueState, plan: seq<Effect>, k: nat, now: int, ok: bool) {
    && k <= |plan|
    && after == PerformAll(before, plan[..k], now)
    && (ok ==> k == |plan|)
  }

  lemma {:induction false} PerformAppend(s: IssueState, a: seq<Effect>, b: seq<Effect>, now: int)
    ensures PerformAll(s, a + b, now) == PerformAll(PerformAll(s, a, now), b, now)
  {
    if b == [] {
      assert a + b == a;
    } else {
      assert (a + b)[..|a + b| - 1] == a + b[..|b| - 1];
      PerformAppend(s, a, b[..|b| - 1], now);
    }
  }

  lemma DidOne(s: IssueState, e: Effect, now: int)
    ensures Did(s, Perform(s, e, now), [e], 1, now, true) && Did(s, s, [e], 0, now, false)
  {
    assert [e][..1] == [e];
  }

  /** A plan cut off early is a longer plan cut off early. */
  lemma DidPart(s: IssueState, t: IssueState, a: seq<Effect>, b: seq<Effect>, k: nat, now: int)
    requires Did(s, t, a, k, now, false)
    ensures Did(s, t, a + b, k, now, false)
  {
    assert (a + b)[..k] == a[..k];
  }

  /** Two plans one after the other. */
  lemma DidBoth(s: IssueState, t: IssueState, u: IssueState, a: seq<Effect>, b: seq<Effect>, k: nat, now: int, ok: bool)
    requires Did(s, t, a, |a|, now, true) && Did(t, u, b, k, now, ok)
    ensures Did(s, u, a + b, |a| + k, now, ok)
  {
    assert a[..|a|] == a;
    PerformAppend(s, a, b[..k], now);
    assert (a + b)[..|a| + k] == a + b[..k];
  }

  /** A comment and a label. */
  method CommentAndLabel(gh: Client, n: int, body: string, add: set<string>, remove: set<string>)
    returns (ok: bool, ghost k: nat)
    requires gh.Valid()
    modifies gh
    ensures gh.Valid() && OthersOnly(old(gh.Snap()), gh.Snap()) && gh.clock == old(gh.clock)
    ensures Did(old(gh.IssueOf(n)), gh.IssueOf(n), [Effect.PostComment(body)] + [Effect.SetLabels(add, remove)], k,
                gh.clock, ok)
    ensures forall m :: m != n ==> gh.IssueOf(m) == old(gh.IssueOf(m))
    ensures gh.faults >= old(gh.faults) && (ok <==> gh.faults == old(gh.faults)) && gh.puts == old(gh.puts)
    ensures old(gh.Quiet()) ==> ok && gh.Quiet() && gh.Snap() == old(gh.Snap())
  {
    ghost var s := gh.IssueOf(n);
    ghost var a, b := Effect.PostComment(body), Effect.SetLabels(add, remove);
    DidOne(s, a, gh.clock);
    ok := gh.PostComment(n, body);
    if !ok {
      DidPart(s, s, [a], [b], 0, gh.clock);
      return false, 0;
    }
    ghost var middle, t := gh.Snap(), gh.IssueOf(n);
    DidOne(t, b, gh.clock);
    ok := gh.SetLabels(n, add, remove);
    OthersOnlyTransitive(old(gh.Snap()), middle, gh.Snap());
    k := if ok then 2 else 1;
    DidBoth(s, t, gh.IssueOf(n), [a], [b], k - 1, gh.clock, ok);
  }

  /** A comment, a label, and the issue closed. */
  method Deliver(gh: Client, n: int, body: string, add: set<string>, remove: set<string>)
    returns (ok: bool, ghost k: nat)
    requires gh.Valid()
    modifies gh
    ensures gh.Valid() && OthersOnly(old(gh.Snap()), gh.Snap()) && gh.clock == old(gh.clock)
    ensures Did(old(gh.IssueOf(n)), gh.IssueOf(n),
                [Effect.PostComment(body)] + [Effect.SetLabels(add, remove)] + [Effect.CloseIssue], k, gh.clock, ok)
    ensures forall m :: m != n ==> gh.IssueOf(m) == old(gh.IssueOf(m))
    ensures gh.faults >= old(gh.faults) && (ok <==> gh.faults == old(gh.faults)) && gh.puts == old(gh.puts)
    ensures old(gh.Quiet()) ==> ok && gh.Quiet() && gh.Snap() == old(gh.Snap())
  {
    ghost var s := gh.IssueOf(n);
    ghost var two := [Effect.PostComment(body)] + [Effect.SetLabels(add, remove)];
    ok, k := CommentAndLabel(gh, n, body, add, remove);
    if !ok {
      DidPart(s, gh.IssueOf(n), two, [Effect.CloseIssue], k, gh.clock);
      return;
    }
    ghost var middle, t := gh.Snap(), gh.IssueOf(n);
    DidOne(t, Effect.CloseIssue, gh.clock);
    ok := gh.CloseIssue(n);
    OthersOnlyTransitive(old(gh.Snap()), middle, gh.Snap());
    k := if ok then 3 else 2;
    DidBoth(s, t, gh.IssueOf(n), two, [Effect.CloseIssue], k - 2, gh.clock, ok);
  }

  /** What a poll settles on: a commit to make first, or none; then the effects on the issue; and
      whether it reports no error. */
  datatype Course = Course(commit: Option<(string, Update)>, plan: seq<Effect>, ok: bool)

  const NOTHING := Course(None, [], true)
  const ERROR := Course(None, [], false)

  /** We wrote once since `a`, atomically; others may have written before and after. */
  ghost predicate CommittedSince(lc: Codec, a: Snapshot, b: Snapshot, appID: string, u: Update) {
    exists m :: CommittedOnce(lc, a, m, appID, u) && OthersOnly(m, b)
  }

  /** The clauses of what a poll did, named so that a proof can ask for the one it needs. */
  datatype Part = OnIssue | OnLedger | OnError | OnLabels

  ghost predicate RanPart(p: Part, lc: Codec, a: Snapshot, b: Snapshot, s: IssueState, t: IssueState, now: int,
                          c: Course, committed: bool, k: nat, ok: bool) {
    match p
    case OnIssue => Did(s, t, c.plan, k, now, ok)
    case OnLedger =>
      if c.commit.Some? && committed then CommittedSince(lc, a, b, c.commit.value.0, c.commit.value.1)
          else OthersOnly(a, b)
    case OnError => (ok ==> c.ok) && (c.commit.Some? && !committed ==> k == 0 && !ok)
    case OnLabels => c.commit.None? ==> Polls.Modest(c.plan)
  }

  /** What a poll did, whatever failed or interfered: its commit, or no write at all; nothing to the
      issue before the commit; and then the first `k` effects of its plan, all of them if it
      reports no error. Only a plan with a commit says that a certificate was issued. */
  ghost predicate Ran(lc: Codec, a: Snapshot, b: Snapshot, s: IssueState, t: IssueState, now: int,
                      c: Course, committed: bool, k: nat, ok: bool) {
    forall p: Part :: RanPart(p, lc, a, b, s, t, now, c, committed, k, ok)
  }

  lemma RanNothing(lc: Codec, a: Snapshot, b: Snapshot, s: IssueState, now: int, c: Course, ok: bool)
    requires OthersOnly(a, b) && (ok ==> c.ok && c.commit.None?) && (c.commit.None? ==> c.plan == [])
    ensures Ran(lc, a, b, s, s, now, c, false, 0, ok)
  {
    assert c.plan[..0] == [];
    forall p: Part
      ensures RanPart(p, lc, a, b, s, s, now, c, false, 0, ok)
    {}
  }

  lemma RanTalk(lc: Codec, a: Snapshot, m: Snapshot, b: Snapshot, s: IssueState, t: IssueState, now: int, c: Course,
                k: nat, ok: bool)
    requires OthersOnly(a, m) && OthersOnly(m, b) && c.ok && c.commit.None? && Polls.Modest(c.plan)
    requires Did(s, t, c.plan, k, now, ok)
    ensures Ran(lc, a, b, s, t, now, c, false, k, ok)
  {
    OthersOnlyTransitive(a, m, b);
    forall p: Part
      ensures RanPart(p, lc, a, b, s, t, now, c, false, k, ok)
    {}
  }

  lemma RanCommitted(lc: Codec, start: Snapshot, a: Snapshot, m: Snapshot, b: Snapshot, s: IssueState, t: IssueState,
                     now: int, c: Course, k: nat, ok: bool)
    requires c.ok && c.commit.Some?
    requires OthersOnly(start, a) && CommittedOnce(lc, a, m, c.commit.value.0, c.commit.value.1) && OthersOnly(m, b)
    requires Did(s, t, c.plan, k, now, ok)
    ensures Ran(lc, start, b, s, t, now, c, true, k, ok)
  {
    OthersThenCommit(lc, start, a, m, c.commit.value.0, c.commit.value.1);
    forall p: Part
      ensures RanPart(p, lc, start, b, s, t, now, c, true, k, ok)
    {}
  }

  /** What a poll did since `m`, when others alone had acted before. */
  lemma RanLater(lc: Codec, a: Snapshot, m: Snapshot, b: Snapshot, s: IssueState, t: IssueState, now: int, c: Course,
                 committed: bool, k: nat, ok: bool)
    requires OthersOnly(a, m) && Ran(lc, m, b, s, t, now, c, committed, k, ok)
    ensures Ran(lc, a, b, s, t, now, c, committed, k, ok)
    ensures c.commit.Some? && committed ==> CommittedSince(lc, m, b, c.commit.value.0, c.commit.value.1)
  {
    forall p: Part
      ensures RanPart(p, lc, a, b, s, t, now, c, committed, k, ok)
    {
      assert RanPart(p, lc, m, b, s, t, now, c, committed, k, ok);
      if p == OnLedger {
        LedgerLater(lc, a, m, b, c, committed);
      }
    }
    assert RanPart(OnLedger, lc, m, b, s, t, now, c, committed, k, ok);
  }

  lemma LedgerLater(lc: Codec, a: Snapshot, m: Snapshot, b: Snapshot, c: Course, committed: bool)
    requires OthersOnly(a, m)
    requires if c.commit.Some? && committed then CommittedSince(lc, m, b, c.commit.value.0, c.commit.value.1)
               else OthersOnly(m, b)
    ensures if c.commit.Some? && committed then CommittedSince(lc, a, b, c.commit.value.0, c.commit.value.1)
              else OthersOnly(a, b)
  {
    if c.commit.Some? && committed {
      var (appID, u) := c.commit.value;
      var x :| CommittedOnce(lc, m, x, appID, u) && OthersOnly(x, b);
      OthersThenCommit(lc, a, m, x, appID, u);
    } else {
      OthersOnlyTransitive(a, m, b);
    }
  }

  /** When no call failed, a poll whose course is no error errs only because its write was given up:
      five conflicts, or a ledger that could not be read again or has lost the certificate. */
  ghost predicate ErrsForCause(lc: Codec, a: View, b: View, c: Course, committed: bool, ok: bool) {
    && b.faults >= a.faults
    && (ok ==> b.faults == a.faults)
    && (b.faults == a.faults && !ok && c.ok ==>
          && c.commit.Some? && !committed
          && (b.puts == a.puts + 5 || OnDisk(lc, b, c.commit.value.0).None?
              || !Applies(c.commit.value.1, OnDisk(lc, b, c.commit.value.0).value)))
  }

  /** Calls that did not fail before `m` are no cause. */
  lemma ErrsLater(lc: Codec, a: View, m: View, b: View, c: Course, committed: bool, ok: bool)
    requires ErrsForCause(lc, m, b, c, committed, ok) && m.puts == a.puts
    requires m.faults >= a.faults && (m.faults > a.faults ==> !ok)
    ensures ErrsForCause(lc, a, b, c, committed, ok)
  {}

  /** A commit loop that gave up: nothing was written, and nothing is said. */
  lemma GaveUp(lc: Codec, start: Snapshot, a: View, b: View, s: IssueState, now: int, c: Course, given: Option<Ledger>,
               sha: string, r: CommitResult)
    requires OthersOnly(start, a.snap) && c.ok && c.commit.Some? && r != Committed
    requires Applies(c.commit.value.1, given)
    requires LoopSpec(lc, a, b, c.commit.value.0, c.commit.value.1, given, sha, r)
    ensures Ran(lc, start, b.snap, s, s, now, c, false, 0, false) && ErrsForCause(lc, a, b, c, false, false)
  {
    OthersOnlyTransitive(start, a.snap, b.snap);
    RanNothing(lc, start, b.snap, s, now, c, false);
  }

  /** One that wrote, and what was done to the issue after it, up to the first call that failed. */
  lemma WroteAndSaid(lc: Codec, start: Snapshot, a: View, m: View, b: View, s: IssueState, t: IssueState, now: int,
                     c: Course, given: Option<Ledger>, sha: string, k: nat, ok: bool)
    requires OthersOnly(start, a.snap) && c.ok && c.commit.Some?
    requires LoopSpec(lc, a, m, c.commit.value.0, c.commit.value.1, given, sha, Committed)
    requires OthersOnly(m.snap, b.snap) && b.faults >= m.faults && (ok <==> b.faults == m.faults)
    requires Did(s, t, c.plan, k, now, ok)
    ensures Ran(lc, start, b.snap, s, t, now, c, true, k, ok) && ErrsForCause(lc, a, b, c, true, ok)
  {
    RanCommitted(lc, start, a.snap, m.snap, b.snap, s, t, now, c, k, ok);
  }

  /** With nobody else about a commit is the update of the files as they were, and nothing else is
      written. */
  lemma AloneCommits(lc: Codec, a: Snapshot, b: Snapshot, appID: string, u: Update)
    requires CommittedSince(lc, a, b, appID, u) && |b.writes| == |a.writes| + 1
    ensures Texts(b.blobs) == Applied(lc, Texts(a.blobs), Commit(0, appID, u))
  {
    var m :| CommittedOnce(lc, a, m, appID, u) && OthersOnly(m, b);
    assert b.writes[|m.writes|..] == [];
    var ws := m.writes[|a.writes|..];
    assert ws[..|ws| - 1] == [];
    Protocol.AppliedWrites(lc, Texts(a.blobs), Commit(0, appID, u), ws[|ws| - 1].text);
  }

  lemma AloneKeeps(a: Snapshot, b: Snapshot)
    requires OthersOnly(a, b) && |b.writes| == |a.writes|
    ensures Texts(b.blobs) == Texts(a.blobs)
  {
    assert b.writes[|a.writes|..] == [];
  }

  /** The files after a course that nobody disturbs. */
  function FilesAfterCourse(lc: Codec, before: Files, c: Course): Files {
    if c.commit.None? then before else Applied(lc, before, Commit(0, c.commit.value.0, c.commit.value.1))
  }

  /** Nobody disturbed the poll: its commit, if any, is the one write there was, and it reports what its
      course says. */
  predicate CarriedOut(a: View, b: View, c: Course, committed: bool, ok: bool) {
    && b.quiet && ok == c.ok && (c.commit.Some? ==> committed)
    && |b.snap.writes| == |a.snap.writes| + if c.commit.Some? then 1 else 0
  }

  /** With nobody else about a poll carries out its course to the end. */
  lemma RanAlone(lc: Codec, a: Snapshot, b: Snapshot, s: IssueState, t: IssueState, now: int, c: Course,
                 committed: bool, k: nat, ok: bool)
    requires Ran(lc, a, b, s, t, now, c, committed, k, ok) && ok == c.ok && (!c.ok ==> c.plan == [])
    requires c.commit.Some? ==> committed
    requires |b.writes| == |a.writes| + if c.commit.Some? then 1 else 0
    ensures t == PerformAll(s, c.plan, now) && Texts(b.blobs) == FilesAfterCourse(lc, Texts(a.blobs), c)
  {
    assert RanPart(OnIssue, lc, a, b, s, t, now, c, committed, k, ok);
    assert RanPart(OnLedger, lc, a, b, s, t, now, c, committed, k, ok);
    assert c.plan[..|c.plan|] == c.plan;
    if c.commit.Some? {
      AloneCommits(lc, a, b, c.commit.value.0, c.commit.value.1);
    } else {
      AloneKeeps(a, b);
    }
  }

  /** `held` was the ledger at some moment of a poll, and if the poll committed it did so later. */
  ghost predicate ReadBeforeCommit(lc: Codec, a: Snapshot, b: Snapshot, appID: string, held: Option<Ledger>,
                                   c: Course, committed: bool) {
    exists m ::
      && OthersOnly(a, m) && Load(lc, TextOf(Texts(m.blobs), appID)) == Some(held)
      && (c.commit.Some? && committed ==> CommittedSince(lc, m, b, c.commit.value.0, c.commit.value.1))
  }

  /** What a poll did after it had loaded the ledger. */
  lemma RanFromLoad(lc: Codec, start: Snapshot, a: View, m: View, b: View, s: IssueState, t: IssueState, now: int,
                    c: Course, appID: string, held: Option<Ledger>, committed: bool, k: nat, ok: bool)
    requires OthersOnly(start, m.snap) && OnDisk(lc, m, appID) == Some(held) && m.puts == a.puts && m.faults == a.faults
    requires Ran(lc, m.snap, b.snap, s, t, now, c, committed, k, ok) && ErrsForCause(lc, m, b, c, committed, ok)
    ensures Ran(lc, start, b.snap, s, t, now, c, committed, k, ok) && ErrsForCause(lc, a, b, c, committed, ok)
    ensures ReadBeforeCommit(lc, start, b.snap, appID, held, c, committed)
  {
    RanLater(lc, start, m.snap, b.snap, s, t, now, c, committed, k, ok);
    ErrsLater(lc, a, m, b, c, committed, ok);
  }

  /** A poll that only talks: a refusal or a challenge. */
  method Talk(lc: Codec, gh: Client, n: int, body: string, tag: string, ghost start: Snapshot)
    returns (ok: bool, ghost c: Course, ghost k: nat)
    requires gh.Valid() && OthersOnly(start, gh.Snap()) && tag != Polls.LABEL_ISSUED
    modifies gh
    ensures gh.Valid() && gh.clock == old(gh.clock)
    ensures c == Course(None, [Effect.PostComment(body)] + [Effect.SetLabels({tag}, {})], true)
    ensures Ran(lc, start, gh.Snap(), old(gh.IssueOf(n)), gh.IssueOf(n), gh.clock, c, false, k, ok)
    ensures forall m :: m != n ==> gh.IssueOf(m) == old(gh.IssueOf(m))
    ensures gh.faults >= old(gh.faults) && (ok <==> gh.faults == old(gh.faults)) && gh.puts == old(gh.puts)
    ensures old(gh.Quiet()) ==> ok && gh.Quiet() && gh.Snap() == old(gh.Snap())
  {
    c := Course(None, [Effect.PostComment(body)] + [Effect.SetLabels({tag}, {})], true);
    ok, k := CommentAndLabel(gh, n, body, {tag}, {});
    RanTalk(lc, start, old(gh.Snap()), gh.Snap(), old(gh.IssueOf(n)), gh.IssueOf(n), gh.clock, c, k, ok);
  }

  // ---- what an issue shows afterwards ----

  /** One more comment and one more label; the issue stays open, or closed. */
  predicate Says(s: IssueState, t: IssueState, text: string, tag: string, now: int) {
    t == IssueState(s.comments + [Challenge.Comment(text, now)], s.labels + {tag}, s.closed)
  }

  /** One more comment and one more label, another label gone, and the issue closed. */
  predicate Ends(s: IssueState, t: IssueState, text: string, tag: string, gone: set<string>, now: int) {
    t == IssueState(s.comments + [Challenge.Comment(text, now)], (s.labels - gone) + {tag}, true)
  }

  lemma PlanOfTwo(s: IssueState, text: string, add: set<string>, remove: set<string>, now: int)
    ensures PerformAll(s, [Effect.PostComment(text)] + [Effect.SetLabels(add, remove)], now)
            == IssueState(s.comments + [Challenge.Comment(text, now)], s.labels - remove + add, s.closed)
  {
    var a, b := Effect.PostComment(text), Effect.SetLabels(add, remove);
    DidOne(s, a, now);
    DidOne(Perform(s, a, now), b, now);
    PerformAppend(s, [a], [b], now);
    assert [a][..1] == [a] && [b][..1] == [b];
  }

  lemma PlanOfThree(s: IssueState, text: string, add: set<string>, remove: set<string>, now: int)
    ensures PerformAll(s, [Effect.PostComment(text)] + [Effect.SetLabels(add, remove)] + [Effect.CloseIssue], now)
            == IssueState(s.comments + [Challenge.Comment(text, now)], s.labels - remove + add, true)
  {
    var two, t := [Effect.PostComment(text)] + [Effect.SetLabels(add, remove)], Effect.CloseIssue;
    PlanOfTwo(s, text, add, remove, now);
    DidOne(PerformAll(s, two, now), t, now);
    PerformAppend(s, two, [t], now);
    assert [t][..1] == [t];
  }
}
