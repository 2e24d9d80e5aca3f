/** The run that an echoed marker allows. A refusal repeats the text of the repo field; when that
    text is a marker, the bot's own comment carries a second challenge, which no bot drew. An expired
    request is open again, and the next poll issues for whoever can show the echoed nonce. */
module PollReopened {
  import opened Wrappers
  import opened Ledger
  import opened Updates
  import opened Strings
  import opened Store
  import opened Polls
  import opened Polling
  import opened PollOnce
  import opened PollTwice
  import opened PollChallenge
  import opened PollComments
  import opened PollExpiry
  import Challenge
  import Enroll
  import Form
  import History
  import Protocol

  // ---- the words ----

  /** The text of a repo field that is a whole marker. */
  function MarkerText(nonce: string): string {
    Challenge.MARKER_PREFIX + nonce + Challenge.MARKER_SUFFIX
  }

  /** Text that %q puts between quotes and otherwise leaves as it stands: printable ASCII without
      quotes and backslashes. */
  predicate NeedsNoEscape(s: string) {
    forall i :: 0 <= i < |s| ==> ' ' <= s[i] <= '~' && s[i] != '"' && s[i] != '\\'
  }

  /** A refusal of a bad slug repeats the slug through %q, with other words before and after it. */
  ghost predicate EchoesSlug(o: Oracles, before: string, after: string) {
    forall repo: string :: NeedsNoEscape(repo) ==>
      o.refusal(BadForm(Form.BadSlug(repo))) == before + "\"" + repo + "\"" + after
  }

  /** A marker is such a text: it keeps its form in the refusal. */
  lemma MarkerNeedsNoEscape(nonce: string)
    requires Challenge.IsNonce(nonce)
    ensures NeedsNoEscape(MarkerText(nonce))
  {
    assert NeedsNoEscape(Challenge.MARKER_PREFIX) && NeedsNoEscape(Challenge.MARKER_SUFFIX);
    assert NeedsNoEscape(nonce);
  }

  /** A marker is read wherever it stands in a comment without an earlier "<". */
  lemma EchoedMarker(before: string, nonce: string, after: string)
    requires Challenge.IsNonce(nonce) && Form.Lacks(before, '<')
    ensures Challenge.ParseNonce(before + MarkerText(nonce) + after) == Some(nonce)
  {
    MarkerHere(before, Challenge.MARKER_PREFIX, nonce, Challenge.MARKER_SUFFIX, after);
    var body := before + MarkerText(nonce) + after;
    forall j | 0 <= j < |before|
      ensures !Challenge.MarkerAt(body, j)
    {
      AtChar(body, Challenge.MARKER_PREFIX, j, 0);
      assert body[j] == before[j];
    }
    assert Challenge.MarkerAt(body, |before|);
    Challenge.FindMarkerWorks(body, 0);
  }

  lemma MarkerHere(before: string, prefix: string, nonce: string, suffix: string, after: string)
    ensures var body := before + (prefix + nonce + suffix) + after;
            var n := |before| + |prefix|;
            && body[|before|..n] == prefix && body[n..n + |nonce|] == nonce
            && body[n + |nonce|..n + |nonce| + |suffix|] == suffix
  {
    assert before + (prefix + nonce + suffix) + after == before + prefix + nonce + suffix + after;
  }

  /** It is one line of plain text, and not a slug: it holds a space. */
  lemma MarkerIsNoSlug(nonce: string)
    requires Challenge.IsNonce(nonce)
    ensures !Form.IsSlug(MarkerText(nonce)) && Form.PlainText(MarkerText(nonce))
    ensures !HasPrefix(MarkerText(nonce), Form.FENCE)
  {
    var text := MarkerText(nonce);
    assert text[0] == '<' && text[4] == ' ' && text[|text| - 1] == '>';
    AtChar(text, Form.FENCE, 0, 0);
    Form.LacksConcat(Challenge.MARKER_PREFIX, nonce, '#');
    Form.LacksConcat(Challenge.MARKER_PREFIX + nonce, Challenge.MARKER_SUFFIX, '#');
    Form.LacksConcat(Challenge.MARKER_PREFIX, nonce, '\n');
    Form.LacksConcat(Challenge.MARKER_PREFIX + nonce, Challenge.MARKER_SUFFIX, '\n');
  }

  /** The issue body: a filled-in certificate request with a marker for a repo. */
  function EchoingBody(inner: string, nonce: string): string {
    Form.Rendered(inner, MarkerText(nonce), Form.Fenced("text"), Form.Bare, "\n")
  }

  /** It is refused for its slug, in a comment that carries the marker. */
  lemma RefusedWithMarker(o: Oracles, inner: string, nonce: string, before: string, after: string)
    requires Form.IsPem(inner) && Challenge.IsNonce(nonce) && EchoesSlug(o, before, after) && Form.Lacks(before, '<')
    ensures Enroll.ResolvedWith(o, EchoingBody(inner, nonce), None, false) ==
              Enroll.TurnedAway(BadForm(Form.BadSlug(MarkerText(nonce))))
    ensures Challenge.ParseNonce(o.refusal(BadForm(Form.BadSlug(MarkerText(nonce))))) == Some(nonce)
  {
    MarkerIsNoSlug(nonce);
    Form.FormRoundTrip(inner, MarkerText(nonce), Form.Fenced("text"), Form.Bare, "\n");
    MarkerNeedsNoEscape(nonce);
    EchoedInQuotes(before, "\"", nonce, after);
  }

  lemma EchoedInQuotes(before: string, quote: string, nonce: string, after: string)
    requires Challenge.IsNonce(nonce) && Form.Lacks(before + quote, '<')
    ensures Challenge.ParseNonce(before + quote + MarkerText(nonce) + quote + after) == Some(nonce)
  {
    EchoedMarker(before + quote, nonce, quote + after);
    Regrouped(before + quote + MarkerText(nonce), quote, after);
  }

  lemma Regrouped(a: string, b: string, c: string)
    ensures a + b + c == a + (b + c)
  {}

  // ---- runs put together ----

  /** The clauses of having got somewhere, named so that a proof can ask for the one it needs. */
  datatype Fact = Arrives | NeverOverlaps

  ghost predicate Holds(f: Fact, c: Config, w: World, acts: seq<Action>, t: World) {
    match f
    case Arrives => t == Run(c, w, acts)
    case NeverOverlaps => NoOverlap(c, w, acts)
  }

  /** The run leads from `w` to `t`, and its polls do not overlap. */
  ghost predicate Reached(c: Config, w: World, acts: seq<Action>, t: World) {
    forall f: Fact :: Holds(f, c, w, acts, t)
  }

  lemma ReachedBy(c: Config, w: World, acts: seq<Action>, t: World)
    requires t == Run(c, w, acts) && NoOverlap(c, w, acts)
    ensures Reached(c, w, acts, t)
  {
    forall f: Fact
      ensures Holds(f, c, w, acts, t)
    {}
  }

  lemma ReachedThen(c: Config, w: World, a: seq<Action>, m: World, b: seq<Action>, t: World)
    requires Reached(c, w, a, m) && Reached(c, m, b, t)
    ensures Reached(c, w, a + b, t)
  {
    assert Holds(Arrives, c, w, a, m) && Holds(Arrives, c, m, b, t);
    assert Holds(NeverOverlaps, c, w, a, m) && Holds(NeverOverlaps, c, m, b, t);
    RunAppend(c, w, a, b);
    NoOverlapAppend(c, w, a, b);
    ReachedBy(c, w, a + b, t);
  }

  lemma OneStep(c: Config, w: World, a: Action)
    requires !a.Start?
    ensures Reached(c, w, [a], Step(c, w, a))
  {
    assert [a][..0] == [] && Run(c, w, []) == w;
    StretchAlone(c, w, [a]);
    ReachedBy(c, w, [a], Step(c, w, a));
  }

  // ---- the stretches of the run ----

  /** A poll posts its challenge; another finds it expired; a third echoes a marker. Each is then cut
      off, which only shortens the run. */
  function Challenges(p: nat): seq<Action> {
    [Start(p), ReadComments(p), Act(p), Cut(p)]
  }

  function Reports(p: nat): seq<Action> {
    [Start(p), ReadComments(p), Cut(p)]
  }

  function Echoes(p: nat): seq<Action> {
    [Start(p), Act(p), Cut(p)]
  }

  /** The same world, with one more comment on an issue and one poll over. */
  ghost predicate Commented(w: World, t: World, p: nat, n: int, body: string) {
    && t == w.(issues := t.issues, pcs := w.pcs[p := Over(true)])
    && IssueAt(t, n) == IssueAt(w, n).(comments := IssueAt(w, n).comments + [Challenge.Comment(body, w.clock)])
  }

  /** The next comment of a plan is posted, and then the poll is cut off. */
  lemma SpeaksAndStops(c: Config, w: World, p: nat, todo: seq<Effect>)
    requires Runs(c, w, p) && todo != [] && todo[0].PostComment?
    ensures Commented(w, Step(c, Step(c, Going(w, p, Doing(todo)), Act(p)), Cut(p)), p, c.polls[p].issue, todo[0].body)
  {}

  lemma FindsNoChallenge(c: Config, w: World, p: nat)
    requires Runs(c, w, p) && w.pcs[p] == Ready && Claiming(c, p) && c.polls[p].EnrollPoll?
    requires IssueAt(w, c.polls[p].issue).comments == [] && !Labelled(c, w, p)
    ensures Step(c, Step(c, w, Start(p)), ReadComments(p)) == Going(w, p, Doing(ChallengePlan(c.o, c.polls[p].nonce)))
  {
    var w1 := Step(c, w, Start(p));
    assert w1 == Going(w, p, Reading);
    assert IssueAt(w1, c.polls[p].issue) == IssueAt(w, c.polls[p].issue);
  }

  lemma PostsChallengeFirst(c: Config, w: World, p: nat) returns (t: World)
    requires Alone(c, w, p)
    requires Runs(c, w, p) && w.pcs[p] == Ready && Claiming(c, p) && c.polls[p].EnrollPoll?
    requires IssueAt(w, c.polls[p].issue).comments == [] && !Labelled(c, w, p)
    ensures Reached(c, w, Challenges(p), t)
    ensures Commented(w, t, p, c.polls[p].issue, Challenge.Posted(c.o.challenge, c.polls[p].nonce))
  {
    var acts := Challenges(p);
    RunThree(c, w, acts[0], acts[1], acts[2]);
    assert acts == [acts[0], acts[1], acts[2]] + [acts[3]];
    RunOneMore(c, w, [acts[0], acts[1], acts[2]], acts[3]);
    FindsNoChallenge(c, w, p);
    SpeaksAndStops(c, w, p, ChallengePlan(c.o, c.polls[p].nonce));
    t := Run(c, w, Challenges(p));
    StretchAlone(c, w, Challenges(p));
    ReachedBy(c, w, Challenges(p), t);
  }

  lemma ReportsTheExpiry(c: Config, w: World, p: nat)
    requires Alone(c, w, p)
    requires Runs(c, w, p) && w.pcs[p] == Ready && Claiming(c, p) && c.polls[p].EnrollPoll?
    requires StageIn(w, c.polls[p].issue) == Expire && !Labelled(c, w, p)
    ensures Reached(c, w, Reports(p), Going(w, p, Over(true)))
    ensures Reached(c, w, [Start(p)], Going(w, p, Reading))
    ensures ReportsExpiry(c, Going(w, p, Reading), ReadComments(p), c.polls[p].issue)
  {
    FindsExpired(c, w, p);
    RunThree(c, w, Start(p), ReadComments(p), Cut(p));
    StretchAlone(c, w, Reports(p));
    ReachedBy(c, w, Reports(p), Going(w, p, Over(true)));
    assert [Start(p)][..0] == [] && Run(c, w, []) == w;
    StretchAlone(c, w, [Start(p)]);
    ReachedBy(c, w, [Start(p)], Going(w, p, Reading));
  }

  lemma FindsExpired(c: Config, w: World, p: nat)
    requires Runs(c, w, p) && w.pcs[p] == Ready && Claiming(c, p) && c.polls[p].EnrollPoll?
    requires StageIn(w, c.polls[p].issue) == Expire && !Labelled(c, w, p)
    ensures Step(c, w, Start(p)) == Going(w, p, Reading)
    ensures Step(c, Step(c, Going(w, p, Reading), ReadComments(p)), Cut(p)) == Going(w, p, Over(true))
    ensures ReportsExpiry(c, Going(w, p, Reading), ReadComments(p), c.polls[p].issue)
  {
    var w1 := Going(w, p, Reading);
    assert IssueAt(w1, c.polls[p].issue) == IssueAt(w, c.polls[p].issue);
    assert Step(c, w1, ReadComments(p)) == Going(w1, p, Doing(RefusalPlan(c.o, ChallengeExpired)));
  }

  lemma EchoesItsRefusal(c: Config, w: World, p: nat) returns (t: World)
    requires Alone(c, w, p)
    requires Runs(c, w, p) && w.pcs[p] == Ready && c.polls[p].EnrollPoll? && c.polls[p].resolved.TurnedAway?
    requires !Labelled(c, w, p)
    ensures Reached(c, w, Echoes(p), t)
    ensures Commented(w, t, p, c.polls[p].issue, c.o.refusal(c.polls[p].resolved.r))
  {
    RunThree(c, w, Start(p), Act(p), Cut(p));
    var w1 := Step(c, w, Start(p));
    assert w1 == Going(w, p, Doing(RefusalPlan(c.o, c.polls[p].resolved.r)));
    SpeaksAndStops(c, w, p, RefusalPlan(c.o, c.polls[p].resolved.r));
    t := Run(c, w, Echoes(p));
    StretchAlone(c, w, Echoes(p));
    ReachedBy(c, w, Echoes(p), t);
  }

  // ---- the run ----

  /** Nobody is under way. */
  predicate Idle(w: World) {
    forall p :: p in w.pcs ==> !Active(w.pcs[p])
  }

  lemma IdleIsAlone(c: Config, w: World, p: nat)
    requires Idle(w)
    ensures Alone(c, w, p)
  {}

  /** The polls of the run, all of one request that is unlabelled and without comments: `a` posts the
      challenge, `b` finds it expired, `r` is refused in words that hold a marker, and `q` is in
      order. None has started. */
  predicate Cast(c: Config, w: World, a: nat, b: nat, r: nat, q: nat) {
    && Runs(c, w, a) && Runs(c, w, b) && Runs(c, w, r) && Runs(c, w, q)
    && SameIssue(c, a, b) && SameIssue(c, a, r) && SameIssue(c, a, q) && b != r && b != q && r != q
    && (forall p :: p in w.pcs ==> w.pcs[p] == Ready)
    && IssueAt(w, c.polls[a].issue).comments == [] && !Labelled(c, w, a)
    && Challenge.IsNonce(c.polls[a].nonce)
    && Claiming(c, a) && Claiming(c, b) && Claiming(c, q)
    && c.polls[r].resolved.TurnedAway?
  }

  predicate Claiming(c: Config, p: nat) {
    p in c.polls && JobOf(c.polls[p]).Some?
  }

  /** Just over 72 hours later. */
  function TooLate(w: World): Action {
    Tick(w.clock + Challenge.VALIDITY + 1)
  }

  function ShowFile(repo: string, nonce: string): seq<Action> {
    [Show(repo), PutFile(repo, Challenge.FILE_PATH, nonce)]
  }

  function UpToExpiry(w: World, a: nat): seq<Action> {
    Challenges(a) + [TooLate(w)]
  }

  function UpToEcho(w: World, a: nat, b: nat, r: nat): seq<Action> {
    UpToExpiry(w, a) + Reports(b) + Echoes(r)
  }

  /** The whole run. */
  function Reopening(w: World, a: nat, b: nat, r: nat, q: nat, repo: string, nonce: string): seq<Action> {
    UpToEcho(w, a, b, r) + ShowFile(repo, nonce) + OneIssue(q)
  }

  /** The challenge has been posted, and is over 72 hours old. */
  lemma Expires(c: Config, w: World, a: nat, b: nat, r: nat, q: nat) returns (t: World)
    requires Cast(c, w, a, b, r, q)
    ensures Reached(c, w, UpToExpiry(w, a), t)
    ensures t == w.(issues := t.issues, pcs := w.pcs[a := Over(true)], clock := w.clock + Challenge.VALIDITY + 1)
    ensures var n := c.polls[a].issue;
            IssueAt(t, n) == IssueAt(w, n).(comments :=
                                            [Challenge.Comment(Challenge.Posted(c.o.challenge, c.polls[a].nonce),
                                                               w.clock)])
  {
    IdleIsAlone(c, w, a);
    var m := PostsChallengeFirst(c, w, a);
    t := m.(clock := w.clock + Challenge.VALIDITY + 1);
    OneStep(c, m, TooLate(w));
    ReachedThen(c, w, Challenges(a), m, [TooLate(w)], t);
  }

  lemma StageAfterOne(c: Config, nonce: string, posted: int, now: int)
    requires Challenge.IsNonce(nonce) && now > posted + Challenge.VALIDITY
    ensures StageOf([Challenge.Comment(Challenge.Posted(c.o.challenge, nonce), posted)], now) == Expire
  {
    var body := Challenge.Posted(c.o.challenge, nonce);
    Challenge.CommentRoundTrip(c.o.challenge, nonce, "");
    assert body + "" == body;
    LastOfOneMore([], Challenge.Comment(body, posted));
    assert [] + [Challenge.Comment(body, posted)] == [Challenge.Comment(body, posted)];
  }

  lemma StageAfterEcho(comments: seq<Challenge.Comment>, echo: string, nonce: string, now: int)
    requires Challenge.ParseNonce(echo) == Some(nonce)
    ensures StageOf(comments + [Challenge.Comment(echo, now)], now) == Await(nonce)
  {
    LastOfOneMore(comments, Challenge.Comment(echo, now));
  }

  /** Another poll has said so. */
  lemma Reported(c: Config, w: World, a: nat, b: nat, r: nat, q: nat) returns (m: World, t: World)
    requires Cast(c, w, a, b, r, q)
    ensures Reached(c, w, UpToExpiry(w, a) + Reports(b), t)
    ensures Reached(c, w, UpToExpiry(w, a) + [Start(b)], m)
    ensures ReportsExpiry(c, m, ReadComments(b), c.polls[a].issue) && m.pcs == w.pcs[a := Over(true)][b := Reading]
    ensures t == w.(issues := t.issues, pcs := w.pcs[a := Over(true)][b := Over(true)], clock := t.clock)
    ensures var n := c.polls[a].issue;
            IssueAt(t, n) == IssueAt(w, n).(comments :=
                                            [Challenge.Comment(Challenge.Posted(c.o.challenge, c.polls[a].nonce),
                                                               w.clock)])
  {
    var s := Expires(c, w, a, b, r, q);
    StageAfterOne(c, c.polls[a].nonce, w.clock, s.clock);
    IdleIsAlone(c, s, b);
    ReportsTheExpiry(c, s, b);
    m, t := Going(s, b, Reading), Going(s, b, Over(true));
    ReachedThen(c, w, UpToExpiry(w, a), s, [Start(b)], m);
    ReachedThen(c, w, UpToExpiry(w, a), s, Reports(b), t);
  }

  /** And a third has echoed a marker. */
  lemma Echoed(c: Config, w: World, a: nat, b: nat, r: nat, q: nat) returns (m: World, t: World)
    requires Cast(c, w, a, b, r, q)
    ensures Reached(c, w, UpToEcho(w, a, b, r), t)
    ensures Reached(c, w, UpToExpiry(w, a) + [Start(b)], m)
    ensures ReportsExpiry(c, m, ReadComments(b), c.polls[a].issue) && m.pcs == w.pcs[a := Over(true)][b := Reading]
    ensures t == w.(issues := t.issues, pcs := w.pcs[a := Over(true)][b := Over(true)][r := Over(true)],
                    clock := t.clock)
    ensures var n := c.polls[a].issue;
            IssueAt(t, n) == IssueAt(w, n).(comments :=
              [Challenge.Comment(Challenge.Posted(c.o.challenge, c.polls[a].nonce), w.clock)]
              + [Challenge.Comment(c.o.refusal(c.polls[r].resolved.r), t.clock)])
  {
    var s;
    m, s := Reported(c, w, a, b, r, q);
    IdleIsAlone(c, s, r);
    t := EchoesItsRefusal(c, s, r);
    ReachedThen(c, w, UpToExpiry(w, a) + Reports(b), s, Echoes(r), t);
  }

  // ---- and the certificate ----

  /** The nonce of the echo is shown in the repo of the last poll. */
  lemma ShowsFile(c: Config, w: World, repo: string, nonce: string) returns (t: World)
    requires Challenge.IsNonce(nonce)
    ensures Reached(c, w, ShowFile(repo, nonce), t) && FileMatches(t, repo, nonce)
    ensures t == w.(files := t.files, hidden := t.hidden)
  {
    var m := Step(c, w, Show(repo));
    t := Step(c, m, PutFile(repo, Challenge.FILE_PATH, nonce));
    OneStep(c, w, Show(repo));
    OneStep(c, m, PutFile(repo, Challenge.FILE_PATH, nonce));
    ReachedThen(c, w, [Show(repo)], m, [PutFile(repo, Challenge.FILE_PATH, nonce)], t);
    assert [Show(repo)] + [PutFile(repo, Challenge.FILE_PATH, nonce)] == ShowFile(repo, nonce);
    Challenge.NonceIsSolid(nonce);
    TrimSolid("", nonce, "");
    assert "" + nonce + "" == nonce;
  }

  /** The ledgers let the last poll's repo in. */
  ghost predicate LetIn(c: Config, w: World, q: nat)
    requires Claiming(c, q) && c.polls[q].EnrollPoll?
  {
    && q in w.proto.bots && w.proto.bots[q].phase == Protocol.Start && Some(w.proto.bots[q].job) == JobOf(c.polls[q])
    && Decide(LedgerOf(c.lc, w.proto.Files(), c.polls[q].resolved.n.appID), c.polls[q].resolved.n.repo)
       in {NewClaim, Allowed}
  }

  /** The last poll issues for the echoed nonce. */
  lemma IssuesForEcho(c: Config, w: World, q: nat, nonce: string) returns (t: World)
    requires Sane(c, w) && Idle(w) && Runs(c, w, q) && w.pcs[q] == Ready
    requires Claiming(c, q) && c.polls[q].EnrollPoll? && LetIn(c, w, q) && !Labelled(c, w, q)
    requires StageOf(IssueAt(w, c.polls[q].issue).comments, w.clock) == Await(nonce)
    requires FileMatches(w, RepoOf(c.polls[q]), nonce)
    ensures Reached(c, w, OneIssue(q), t) && Issued(c, t, q) && t.issues == w.issues
    ensures q in t.evidence && t.evidence[q].prior.nonce == nonce
  {
    IssuesAndStops(c, w, q);
    t := Run(c, w, OneIssue(q));
    IdleIsAlone(c, w, q);
    OneIssueAlone(c, w, q);
    ReachedBy(c, w, OneIssue(q), t);
  }

  lemma SaneWhenReached(c: Config, w: World, acts: seq<Action>, t: World)
    requires Initial(c, w) && History.GoodJobs(w.proto) && Reached(c, w, acts, t)
    ensures Sane(c, t)
  {
    assert Holds(Arrives, c, w, acts, t);
    Reachable(c, w, acts);
  }

  /** The run up to the last poll, and what that poll finds. */
  lemma ReopenedFor(c: Config, w: World, a: nat, b: nat, r: nat, q: nat, nonce: string) returns (m: World, t: World)
    requires Cast(c, w, a, b, r, q) && Challenge.IsNonce(nonce) && LetIn(c, w, q)
    requires Challenge.ParseNonce(c.o.refusal(c.polls[r].resolved.r)) == Some(nonce)
    ensures Reached(c, w, UpToEcho(w, a, b, r) + ShowFile(RepoOf(c.polls[q]), nonce), t)
    ensures Reached(c, w, UpToExpiry(w, a) + [Start(b)], m)
    ensures ReportsExpiry(c, m, ReadComments(b), c.polls[a].issue) && q in m.pcs && m.pcs[q] == Ready
    ensures Idle(t) && Runs(c, t, q) && t.pcs[q] == Ready && LetIn(c, t, q) && !Labelled(c, t, q)
    ensures StageOf(IssueAt(t, c.polls[q].issue).comments, t.clock) == Await(nonce)
    ensures FileMatches(t, RepoOf(c.polls[q]), nonce)
    ensures !AtMostOneMarked(IssueAt(t, c.polls[q].issue).comments)
  {
    var s;
    m, s := Echoed(c, w, a, b, r, q);
    t := ShowsFile(c, s, RepoOf(c.polls[q]), nonce);
    ReachedThen(c, w, UpToEcho(w, a, b, r), s, ShowFile(RepoOf(c.polls[q]), nonce), t);
    LastIsReady(c, w, t, a, b, r, q);
    ReadsEcho(c, c.polls[a].nonce, w.clock, c.o.refusal(c.polls[r].resolved.r), nonce, s.clock);
    assert IssueAt(t, c.polls[q].issue) == IssueAt(s, c.polls[a].issue);
  }

  /** The last poll has not started, and the request still has no label. */
  lemma LastIsReady(c: Config, w: World, t: World, a: nat, b: nat, r: nat, q: nat)
    requires Cast(c, w, a, b, r, q) && LetIn(c, w, q) && t.proto == w.proto
    requires t.pcs == w.pcs[a := Over(true)][b := Over(true)][r := Over(true)]
    requires IssueAt(t, c.polls[a].issue).labels == IssueAt(w, c.polls[a].issue).labels
    ensures Idle(t) && Runs(c, t, q) && t.pcs[q] == Ready && LetIn(c, t, q) && !Labelled(c, t, q)
  {}

  /** The comments of the issue then: the poll's own challenge, and the echo. */
  lemma ReadsEcho(c: Config, own: string, posted: int, echo: string, nonce: string, now: int)
    requires Challenge.IsNonce(own) && Challenge.ParseNonce(echo) == Some(nonce)
    ensures var comments := [Challenge.Comment(Challenge.Posted(c.o.challenge, own), posted)] +
              [Challenge.Comment(echo, now)];
            StageOf(comments, now) == Await(nonce) && !AtMostOneMarked(comments)
  {
    StageAfterEcho([Challenge.Comment(Challenge.Posted(c.o.challenge, own), posted)], echo, nonce, now);
    TwoMarks(c, own, posted, Challenge.Comment(echo, now));
  }

  lemma TwoMarks(c: Config, nonce: string, posted: int, echo: Challenge.Comment)
    requires Challenge.IsNonce(nonce) && Marked(echo)
    ensures !AtMostOneMarked([Challenge.Comment(Challenge.Posted(c.o.challenge, nonce), posted)] + [echo])
  {
    var body := Challenge.Posted(c.o.challenge, nonce);
    Challenge.CommentRoundTrip(c.o.challenge, nonce, "");
    assert body + "" == body;
    OneMoreComment([Challenge.Comment(body, posted)], echo);
    assert Marked([Challenge.Comment(body, posted)][0]);
  }

  /** Where the expiry is reported in the whole run. */
  const REPORT := 6

  lemma ReportIsAt(c: Config, w: World, a: nat, b: nat, r: nat, q: nat, repo: string, nonce: string)
    ensures var all := Reopening(w, a, b, r, q, repo, nonce);
            |all| > REPORT && all[..REPORT] == UpToExpiry(w, a) + [Start(b)] && all[REPORT] == ReadComments(b)
  {}

  /** The code's own words are enough: a request whose repo field is a marker gets a refusal that
      repeats it. Then a request that has been reported expired shows two markers, and a poll that
      had not started issues a certificate for the nonce in the refusal, which need not be one that
      any poll drew. No two polls overlap. */
  lemma EchoReopensRequest(c: Config, w: World, a: nat, b: nat, r: nat, q: nat, inner: string, nonce: string,
                           before: string, after: string)
    requires Initial(c, w) && History.GoodJobs(w.proto) && Cast(c, w, a, b, r, q) && LetIn(c, w, q)
    requires Form.IsPem(inner) && Challenge.IsNonce(nonce) && EchoesSlug(c.o, before, after) && Form.Lacks(before, '<')
    requires c.polls[r].resolved == Enroll.ResolvedWith(c.o, EchoingBody(inner, nonce), None, false)
    ensures var all := Reopening(w, a, b, r, q, RepoOf(c.polls[q]), nonce);
            var m, end := Run(c, w, all[..REPORT]), Run(c, w, all);
            && NoOverlap(c, w, all)
            && |all| > REPORT && ReportsExpiry(c, m, all[REPORT], c.polls[q].issue) && q in m.pcs && m.pcs[q] == Ready
            && !AtMostOneMarked(IssueAt(end, c.polls[q].issue).comments)
            && Issued(c, end, q) && q in end.evidence && end.evidence[q].prior.nonce == nonce
  {
    RefusedWithMarker(c.o, inner, nonce, before, after);
    var m, s := ReopenedFor(c, w, a, b, r, q, nonce);
    var prelude := UpToEcho(w, a, b, r) + ShowFile(RepoOf(c.polls[q]), nonce);
    SaneWhenReached(c, w, prelude, s);
    var t := IssuesForEcho(c, s, q, nonce);
    ReachedThen(c, w, prelude, s, OneIssue(q), t);
    ReportIsAt(c, w, a, b, r, q, RepoOf(c.polls[q]), nonce);
    assert Holds(Arrives, c, w, UpToExpiry(w, a) + [Start(b)], m);
    assert Holds(Arrives, c, w, prelude + OneIssue(q), t) && Holds(NeverOverlaps, c, w, prelude + OneIssue(q), t);
  }
}
