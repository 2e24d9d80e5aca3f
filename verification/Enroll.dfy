/** internal/enroll: one poll of a certificate request, from the form to the delivered leaf. */
module Enroll {
  import opened Wrappers
  import opened Ledger
  import opened Updates
  import opened Blobs
  import opened Store
  import opened Steps
  import opened Polls
  import opened PollRun
  import AppId
  import Challenge
  import Form
  import Protocol
  import Random
  import Serial

  // ---- steps 1 to 5: what is asked for ----

  datatype Resolved = ReadFailed | TurnedAway(r: Refusal) | Claims(n: Named)

  const INFO_PATH := "appinfo/info.xml"

  function ResolvedWith(o: Oracles, body: string, info: Option<string>, accessible: bool): Resolved {
    match ReadForm(o, body)
    case Unnamed(r) => TurnedAway(r)
    case Named(repo, appID, key) =>
      match Reconcile(o, repo, appID, info, accessible)
      case Some(r) => TurnedAway(r)
      case None => Claims(Named(repo, appID, key))
  }

  /** The files of GitHub as the bot's token sees them. */
  datatype Visible = Visible(files: map<(string, string), string>, hidden: set<string>) {
    function File(repo: string, path: string): Option<string> {
      if repo in hidden || (repo, path) !in files then None else Some(files[(repo, path)])
    }
  }

  function ResolvedIn(o: Oracles, body: string, v: Visible): Resolved {
    match ReadForm(o, body)
    case Unnamed(r) => TurnedAway(r)
    case Named(repo, _, _) => ResolvedWith(o, body, v.File(repo, INFO_PATH), repo !in v.hidden)
  }

  /** What the form and its CSR ask for: the repo of the form, and the common name and key of the CSR. */
  predicate AsksFor(o: Oracles, body: string, n: Named) {
    && n.Named? && Form.FormOf(body).Ok? && n.repo == Form.FormOf(body).form.repo
    && o.parseCsr(Form.FormOf(body).form.csr).Some?
    && var request := o.parseCsr(Form.FormOf(body).form.csr).value;
       n.appID == request.commonName && AppId.Valid(n.appID) && n.publicKey == request.publicKey
  }

  predicate AboutForm(r: Refusal) {
    r.BadForm? || r.BadCsr? || r.BadName?
  }

  /** When each refusal is due. */
  ghost predicate Due(o: Oracles, body: string, v: Visible, r: Refusal) {
    match r
    case BadForm(why) => !why.Ok? && Form.FormOf(body) == why
    case BadCsr => Form.FormOf(body).Ok? && o.parseCsr(Form.FormOf(body).form.csr).None?
    case BadName(name) =>
      && Form.FormOf(body).Ok? && o.parseCsr(Form.FormOf(body).form.csr).Some?
      && name == o.parseCsr(Form.FormOf(body).form.csr).value.commonName && !AppId.Valid(name)
    case _ => exists n :: AsksFor(o, body, n) && DueFor(o, n, v, r)
  }

  /** When the repo of a well-formed request does not declare its app. */
  ghost predicate DueFor(o: Oracles, n: Named, v: Visible, r: Refusal)
    requires n.Named?
  {
    var info := v.File(n.repo, "appinfo/info.xml");
    match r
    case NoAccess(repo) => repo == n.repo && info.None? && n.repo in v.hidden
    case NoInfo(repo) => repo == n.repo && info.None? && n.repo !in v.hidden
    case NoId(repo) => repo == n.repo && info.Some? && o.extractId(info.value).None?
    case BadId(id) => info.Some? && o.extractId(info.value) == Some(id) && forall x :: !StandsFor(id, x)
    case Mismatch(own, other) =>
      own == n.appID && other != own && info.Some? && o.extractId(info.value).Some?
      && StandsFor(o.extractId(info.value).value, other)
    case _ => false
  }

  /** What is asked for is unique. */
  lemma AsksForOne(o: Oracles, body: string)
    ensures ReadForm(o, body).Named? ==> AsksFor(o, body, ReadForm(o, body))
    ensures forall n :: AsksFor(o, body, n) ==> n == ReadForm(o, body)
  {}

  lemma DueForIff(o: Oracles, n: Named, v: Visible)
    requires n.Named? && AppId.Valid(n.appID)
    ensures var r := Reconcile(o, n.repo, n.appID, v.File(n.repo, "appinfo/info.xml"), n.repo !in v.hidden);
            && (r.None? <==> Polls.Declares(o, v.File(n.repo, "appinfo/info.xml"), n.appID))
            && forall why :: r == Some(why) <==> DueFor(o, n, v, why)
  {
    var info := v.File(n.repo, "appinfo/info.xml");
    ReconciledIff(o, n.repo, n.appID, info, n.repo !in v.hidden);
  }

  lemma UnnamedIff(o: Oracles, body: string, v: Visible)
    requires ReadForm(o, body).Unnamed?
    ensures forall n :: !AsksFor(o, body, n)
    ensures forall r :: ReadForm(o, body).r == r <==> Due(o, body, v, r)
  {
    AsksForOne(o, body);
    forall r
      ensures ReadForm(o, body).r == r <==> Due(o, body, v, r)
    {
      if !AboutForm(r) {
        assert !Due(o, body, v, r);
      }
    }
  }

  lemma NamedIff(o: Oracles, body: string, v: Visible)
    requires ReadForm(o, body).Named?
    ensures forall n :: AsksFor(o, body, n) <==> n == ReadForm(o, body)
    ensures forall r :: DueFor(o, ReadForm(o, body), v, r) <==> Due(o, body, v, r)
  {
    AsksForOne(o, body);
  }

  /** A request is accepted if and only if it asks for an app that its repo declares, and each refusal is
      given if and only if it is due. */
  lemma ResolvedIff(o: Oracles, body: string, v: Visible)
    ensures forall n :: ResolvedIn(o, body, v) == Claims(n) <==>
              AsksFor(o, body, n) && Polls.Declares(o, v.File(n.repo, "appinfo/info.xml"), n.appID)
    ensures forall r :: ResolvedIn(o, body, v) == TurnedAway(r) <==> Due(o, body, v, r)
    ensures ResolvedIn(o, body, v) != ReadFailed
  {
    if ReadForm(o, body).Named? {
      NamedIff(o, body, v);
      DueForIff(o, ReadForm(o, body), v);
    } else {
      UnnamedIff(o, body, v);
    }
  }

  ghost function VisibleTo(gh: Client): Visible
    reads gh`files, gh`inaccessibleRepos
  {
    Visible(gh.files, gh.inaccessibleRepos)
  }

  /** Form, CSR and reconciliation. A repo that reads as absent is probed, so that a hidden one gets
      its own refusal. */
  method Resolve(o: Oracles, gh: Client, body: string) returns (r: Resolved)
    requires gh.Valid()
    modifies gh`ledgers, gh`nextSHA, gh`files, gh`failNextPutWithConflict, gh`script, gh`faults,
             gh`writes
    ensures gh.Valid() && OthersOnly(old(gh.Snap()), gh.Snap())
    ensures gh.faults >= old(gh.faults) && (r == ReadFailed <==> gh.faults > old(gh.faults))
    ensures r.TurnedAway? ==> LabelFor(r.r) != LABEL_ISSUED
    ensures r.Claims? ==>
              AsksFor(o, body, r.n) && Polls.Declares(o, VisibleTo(gh).File(r.n.repo, "appinfo/info.xml"), r.n.appID)
    ensures r == ReadFailed || exists info, accessible :: r == ResolvedWith(o, body, info, accessible)
    ensures old(gh.Quiet()) ==> gh.Quiet() && gh.Snap() == old(gh.Snap()) && gh.files == old(gh.files)
    ensures old(gh.Quiet()) ==> r == ResolvedIn(o, body, VisibleTo(gh))
    ensures old(gh.Quiet()) ==>
              && (forall n :: r == Claims(n) <==>
                    AsksFor(o, body, n) && Polls.Declares(o, VisibleTo(gh).File(n.repo, "appinfo/info.xml"), n.appID))
              && (forall why :: r == TurnedAway(why) <==> Due(o, body, VisibleTo(gh), why))
  {
    r := ReadAndReconcile(o, gh, body);
    ResolvedIff(o, body, VisibleTo(gh));
  }

  /** Its steps, one after the other. */
  method ReadAndReconcile(o: Oracles, gh: Client, body: string) returns (r: Resolved)
    requires gh.Valid()
    modifies gh`ledgers, gh`nextSHA, gh`files, gh`failNextPutWithConflict, gh`script, gh`faults,
             gh`writes
    ensures gh.Valid() && OthersOnly(old(gh.Snap()), gh.Snap())
    ensures gh.faults >= old(gh.faults) && (r == ReadFailed <==> gh.faults > old(gh.faults))
    ensures r.TurnedAway? ==> LabelFor(r.r) != LABEL_ISSUED
    ensures r.Claims? ==>
              AsksFor(o, body, r.n) && Polls.Declares(o, VisibleTo(gh).File(r.n.repo, "appinfo/info.xml"), r.n.appID)
    ensures r == ReadFailed || exists info, accessible :: r == ResolvedWith(o, body, info, accessible)
    ensures old(gh.Quiet()) ==> gh.Quiet() && gh.Snap() == old(gh.Snap()) && gh.files == old(gh.files)
    ensures old(gh.Quiet()) ==> r == ResolvedIn(o, body, VisibleTo(gh))
  {
    OthersOnlySelf(gh.Snap());
    AsksForOne(o, body);
    var form := Form.ParseForm(body);
    if !form.Ok? {
      r := TurnedAway(BadForm(form));
      assert r == ResolvedWith(o, body, None, false);
      return;
    }
    var req := o.parseCsr(form.form.csr);
    if req.None? {
      r := TurnedAway(BadCsr);
      assert r == ResolvedWith(o, body, None, false);
      return;
    }
    var id := AppId.ValidateStrict(req.value.commonName);
    if id.None? {
      r := TurnedAway(BadName(req.value.commonName));
      assert r == ResolvedWith(o, body, None, false);
      return;
    }
    var repo, appID, named := form.form.repo, id.value, Named(form.form.repo, id.value, req.value.publicKey);
    var got := gh.GetFile(repo, INFO_PATH);
    if got == GetFailed {
      return ReadFailed;
    }
    if got == NotFound {
      ghost var middle := gh.Snap();
      var accessible := gh.RepoAccessible(repo);
      OthersOnlyTransitive(old(gh.Snap()), middle, gh.Snap());
      if accessible.None? {
        return ReadFailed;
      }
      r := TurnedAway(if accessible.value then NoInfo(repo) else NoAccess(repo));
      assert r == ResolvedWith(o, body, None, accessible.value);
      return;
    }
    var refusal := Reconcile(o, repo, appID, Some(got.content), true);
    r := if refusal.Some? then TurnedAway(refusal.value) else Claims(named);
    assert r == ResolvedWith(o, body, Some(got.content), true);
    ReconciledIff(o, repo, appID, Some(got.content), true);
  }

  // ---- steps 6 and 7: control of the repository ----

  datatype Control = CheckFailed | NeedsChallenge | ChallengeOver | Waiting | Proven

  function ControlIn(comments: seq<Challenge.Comment>, now: int, repo: string, v: Visible): Control {
    match StageOf(comments, now)
    case PostNew => NeedsChallenge
    case Expire => ChallengeOver
    case Await(nonce) =>
      var file := v.File(repo, Challenge.FILE_PATH);
      if file.Some? && Challenge.Match(nonce, file.value) then Proven else Waiting
  }

  /** The challenge file is read only while a posted challenge is still good. `file` is what it held. */
  method CheckControl(gh: Client, n: int, repo: string) returns (r: Control, ghost file: string)
    requires gh.Valid()
    modifies gh`ledgers, gh`nextSHA, gh`files, gh`failNextPutWithConflict, gh`script, gh`faults,
             gh`writes
    ensures gh.Valid() && OthersOnly(old(gh.Snap()), gh.Snap())
    ensures gh.faults >= old(gh.faults) && (r == CheckFailed <==> gh.faults > old(gh.faults))
    ensures r == NeedsChallenge ==> StageOf(gh.CommentsOn(n), gh.clock) == PostNew
    ensures r == ChallengeOver ==> StageOf(gh.CommentsOn(n), gh.clock) == Expire
    ensures r == Proven ==>
              && StageOf(gh.CommentsOn(n), gh.clock).Await? &&
                   Challenge.Match(StageOf(gh.CommentsOn(n), gh.clock).nonce, file)
              && VisibleTo(gh).File(repo, Challenge.FILE_PATH) == Some(file)
    ensures old(gh.Quiet()) ==> gh.Quiet() && gh.Snap() == old(gh.Snap()) && gh.files == old(gh.files)
    ensures old(gh.Quiet()) ==> r == ControlIn(gh.CommentsOn(n), gh.clock, repo, VisibleTo(gh))
  {
    var comments := gh.OwnComments(n);
    if comments.None? {
      return CheckFailed, "";
    }
    var prior := Challenge.PriorChallenge(comments.value);
    if prior.None? {
      return NeedsChallenge, "";
    }
    if Challenge.Expired(prior.value.postedAt, gh.clock) {
      return ChallengeOver, "";
    }
    ghost var middle := gh.Snap();
    var got := gh.GetFile(repo, Challenge.FILE_PATH);
    OthersOnlyTransitive(old(gh.Snap()), middle, gh.Snap());
    match got
    case GetFailed => return CheckFailed, "";
    case NotFound => return Waiting, "";
    case Found(content, _) =>
      return if Challenge.Match(prior.value.nonce, content) then Proven else Waiting, content;
  }

  // ---- step 9: the leaf ----

  /** certtmpl.Leaf: the validity is cut to the issuer's, and the serial drawn. */
  method LeafFor(o: Oracles, rand: Random.Reader, n: Named, now: int) returns (t: Option<Template>)
    requires n.Named? && Form.IsSlug(n.repo)
    modifies rand
    ensures t.Some? ==> IsTemplateFor(o, n, now, t.value)
    ensures t.Some? <==> AppId.Valid(n.appID) && Serial.FirstNonZeroBlock(old(rand.stream)).0.Some?
    ensures t.Some? ==> t.value.serial == Serial.FirstNonZeroBlock(old(rand.stream)).0.value
    ensures t.Some? ==> t.value == LeafTemplate(o, n, now, t.value.serial)
  {
    if AppId.ValidateStrict(n.appID).None? {
      return None;
    }
    Serial.DrawnSerialSurvives(rand.stream);
    var serial := Serial.RandomSerial(rand);
    if serial.None? {
      return None;
    }
    var notAfter := now + LEAF_VALIDITY;
    if notAfter > o.issuerNotAfter {
      notAfter := o.issuerNotAfter;
    }
    TemplateIsFor(o, n, now, serial.value);
    return Some(Template(serial.value, n.appID, Form.OwnerOf(n.repo), ORIGIN_GITHUB, now, notAfter, n.publicKey));
  }

  // ---- a whole poll ----

  /** The course of a poll when nothing fails and nobody interferes. `texts` are the ledger files and
      `stream` the random bytes to come. */
  function CourseOf(lc: Codec, o: Oracles, issue: Issue, comments: seq<Challenge.Comment>, now: int, v: Visible,
                    texts: Files, stream: seq<Random.Byte>): Course
  {
    if LABEL_ISSUED in issue.labels then NOTHING
    else
      CourseOfResolved(lc, o, issue, ResolvedIn(o, issue.body, v), comments, now, v, texts, stream)
  }

  function CourseOfResolved(lc: Codec, o: Oracles, issue: Issue, resolved: Resolved, comments: seq<Challenge.Comment>,
                            now: int, v: Visible, texts: Files, stream: seq<Random.Byte>): Course
    requires resolved.Claims? ==> resolved.n.Named?
  {
    match resolved
    case ReadFailed => ERROR
    case TurnedAway(r) => Course(None, RefusalPlan(o, r), true)
    case Claims(n) => CourseOfControl(lc, o, issue, n, ControlIn(comments, now, n.repo, v), now, texts, stream)
  }

  function CourseOfControl(lc: Codec, o: Oracles, issue: Issue, n: Named, control: Control, now: int,
                           texts: Files, stream: seq<Random.Byte>): Course
    requires n.Named?
  {
    match control
    case CheckFailed => ERROR
    case Waiting => NOTHING
    case ChallengeOver => Course(None, RefusalPlan(o, ChallengeExpired), true)
    case NeedsChallenge =>
      if |stream| < Challenge.NONCE_BYTES then ERROR
      else Course(None, ChallengePlan(o, Challenge.HexEncode(stream[..Challenge.NONCE_BYTES])), true)
    case Proven => CourseOfLedger(lc, o, issue, n, now, texts, stream)
  }

  function CourseOfLedger(lc: Codec, o: Oracles, issue: Issue, n: Named, now: int, texts: Files,
                          stream: seq<Random.Byte>): Course
    requires n.Named?
  {
    match Load(lc, TextOf(texts, n.appID))
    case None => ERROR
    case Some(existing) => CourseOfOwner(o, issue, n, now, existing, stream)
  }

  function CourseOfOwner(o: Oracles, issue: Issue, n: Named, now: int, existing: Option<Ledger>,
                         stream: seq<Random.Byte>): Course
    requires n.Named?
  {
    match Rejection(Decide(existing, n.repo), n.appID)
    case Some(r) => Course(None, RefusalPlan(o, r), true)
    case None => CourseOfIssue(o, issue, n, now, stream)
  }

  function CourseOfIssue(o: Oracles, issue: Issue, n: Named, now: int, stream: seq<Random.Byte>): Course
    requires n.Named?
  {
    if Form.IndexOfSlash(n.repo) < 0 || AppId.ValidateStrict(n.appID).None? then ERROR
    else
      match SignedLeaf(o, n, now, stream)
      case None => ERROR
      case Some(leaf) =>
        Course(Some((n.appID, Append(n.repo, now, EntryFor(o, issue, leaf)))),
               IssuedPlan(o.delivery(n.appID, leaf.der)), true)
  }

  /** What the pipeline commits is what an issuing bot of the protocol decides on the same ledger. */
  lemma CommitIsBotChoice(o: Oracles, issue: Issue, n: Named, now: int, existing: Option<Ledger>,
                          stream: seq<Random.Byte>)
    requires n.Named?
    ensures var c := CourseOfOwner(o, issue, n, now, existing, stream);
            c.commit.Some? ==>
              && c.commit.value.0 == n.appID && c.commit.value.1.Append?
              && var u := c.commit.value.1;
                 Protocol.Begin(Protocol.Issue(n.appID, u.repo, u.now, u.entry), existing) == Protocol.Go(u)
    ensures Decide(existing, n.repo) !in {NewClaim, Allowed} ==>
              CourseOfOwner(o, issue, n, now, existing, stream).commit.None?
  {}

  /** What is committed is a claim of the repo that Decide allows on the ledger held. */
  ghost predicate Granted(n: Named, c: Course, held: Option<Ledger>)
    requires n.Named? && c.commit.Some?
  {
    && c.commit.value.0 == n.appID
    && c.commit.value.1.Append? && c.commit.value.1.repo == n.repo
    && (held.Some? ==> !held.value.reserved && held.value.owner.repo == n.repo)
  }

  /** A commit is a claim granted on the ledger held, which was read before it, of a leaf signed for this
      request. */
  ghost predicate Justified(lc: Codec, o: Oracles, issue: Issue, n: Named, now: int, start: Snapshot, end: Snapshot,
                            c: Course, held: Option<Ledger>, committed: bool)
    requires n.Named? && c.commit.Some?
  {
    && Granted(n, c, held) && Certified(o, issue, n, now, c)
    && ReadBeforeCommit(lc, start, end, n.appID, held, c, committed)
  }

  lemma CommitIsGranted(o: Oracles, issue: Issue, n: Named, now: int, held: Option<Ledger>, stream: seq<Random.Byte>)
    requires n.Named?
    ensures var c := CourseOfOwner(o, issue, n, now, held, stream); c.commit.Some? ==> Granted(n, c, held)
  {}

  /** The commit records a leaf signed for this request, and the plan delivers that leaf. */
  ghost predicate Certified(o: Oracles, issue: Issue, n: Named, now: int, c: Course)
    requires n.Named? && c.commit.Some?
  {
    exists text :: c.plan == IssuedPlan(text) && Records(o, issue, n, now, c.commit.value, text)
  }

  lemma CourseIsCertified(o: Oracles, issue: Issue, n: Named, now: int, stream: seq<Random.Byte>)
    requires n.Named? && Form.IsSlug(n.repo)
    ensures var c := CourseOfIssue(o, issue, n, now, stream); c.commit.Some? ==> Certified(o, issue, n, now, c)
  {
    var c := CourseOfIssue(o, issue, n, now, stream);
    if c.commit.Some? {
      var serial := Serial.FirstNonZeroBlock(stream).0.value;
      Serial.DrawnSerialSurvives(stream);
      TemplateIsFor(o, n, now, serial);
      var leaf := SignedLeaf(o, n, now, stream).value;
      assert IsEntryFor(o, issue, leaf, c.commit.value.1.entry);
      assert Records(o, issue, n, now, c.commit.value, o.delivery(n.appID, leaf.der));
    }
  }

  lemma JustifiedBy(lc: Codec, o: Oracles, issue: Issue, n: Named, stream: seq<Random.Byte>, start: Snapshot,
                    m: Snapshot, end: Snapshot, s: IssueState, t: IssueState, now: int, c: Course,
                    held: Option<Ledger>, committed: bool, k: nat, ok: bool)
    requires n.Named? && c == CourseOfOwner(o, issue, n, now, held, stream)
    requires OthersOnly(start, m) && Load(lc, TextOf(Texts(m.blobs), n.appID)) == Some(held)
    requires Ran(lc, m, end, s, t, now, c, committed, k, ok) && (c.commit.Some? ==> Certified(o, issue, n, now, c))
    ensures c.commit.Some? ==> Justified(lc, o, issue, n, now, start, end, c, held, committed)
  {
    CommitIsGranted(o, issue, n, now, held, stream);
    RanLater(lc, start, m, end, s, t, now, c, committed, k, ok);
  }

  /** Steps 9 to 11: sign, record, deliver. */
  method IssueLeaf(lc: Codec, o: Oracles, gh: Client, rand: Random.Reader, issue: Issue, n: Named,
                   existing: LedgerObject?, prevSHA: string, ghost start: Snapshot)
    returns (ok: bool, ghost c: Course, ghost committed: bool, ghost k: nat)
    requires gh.Valid() && OthersOnly(start, gh.Snap())
    requires n.Named? && Form.IsSlug(n.repo)
    requires Holds(lc, gh.ledgers, gh.nextSHA, n.appID, Held(existing), prevSHA)
    modifies gh, rand, existing
    ensures gh.Valid() && gh.clock == old(gh.clock)
    ensures c == CourseOfIssue(o, issue, n, gh.clock, old(rand.stream))
    ensures Ran(lc, start, gh.Snap(), old(gh.IssueOf(issue.number)), gh.IssueOf(issue.number), gh.clock, c, committed,
                k, ok)
    ensures c.commit.Some? ==> Certified(o, issue, n, gh.clock, c)
    ensures forall m :: m != issue.number ==> gh.IssueOf(m) == old(gh.IssueOf(m))
    ensures ErrsForCause(lc, old(gh.Look()), gh.Look(), c, committed, ok)
    ensures old(gh.Quiet()) && OnDisk(lc, old(gh.Look()), n.appID) == Some(old(Held(existing))) ==>
              CarriedOut(old(gh.Look()), gh.Look(), c, committed, ok)
  {
    Form.OwnerSplitsSlug(n.repo);
    CourseIsCertified(o, issue, n, gh.clock, rand.stream);
    c := CourseOfIssue(o, issue, n, gh.clock, rand.stream);
    ghost var s := gh.IssueOf(issue.number);
    RanNothing(lc, start, gh.Snap(), s, gh.clock, c, false);
    var template := LeafFor(o, rand, n, gh.clock);
    if template.None? {
      return false, c, false, 0;
    }
    var leaf := o.sign(template.value);
    if leaf.None? {
      return false, c, false, 0;
    }
    var entry := EntryFor(o, issue, leaf.value);
    ok, committed, k := CommitAndDeliver(lc, gh, issue.number, n, entry, o.delivery(n.appID, leaf.value.der),
                                         existing, prevSHA, c, start);
  }

  /** Steps 10 and 11. */
  method CommitAndDeliver(lc: Codec, gh: Client, number: int, n: Named, entry: Certificate, text: string,
                          existing: LedgerObject?, prevSHA: string, ghost c: Course, ghost start: Snapshot)
    returns (ok: bool, ghost committed: bool, ghost k: nat)
    requires gh.Valid() && OthersOnly(start, gh.Snap())
    requires n.Named? && Holds(lc, gh.ledgers, gh.nextSHA, n.appID, Held(existing), prevSHA)
    requires c == Course(Some((n.appID, Append(n.repo, gh.clock, entry))), IssuedPlan(text), true)
    modifies gh, existing
    ensures gh.Valid() && gh.clock == old(gh.clock)
    ensures Ran(lc, start, gh.Snap(), old(gh.IssueOf(number)), gh.IssueOf(number), gh.clock, c, committed, k, ok)
    ensures forall m :: m != number ==> gh.IssueOf(m) == old(gh.IssueOf(m))
    ensures ErrsForCause(lc, old(gh.Look()), gh.Look(), c, committed, ok)
    ensures old(gh.Quiet()) && OnDisk(lc, old(gh.Look()), n.appID) == Some(old(Held(existing))) ==>
              gh.Quiet() && ok && committed && |gh.writes| == |old(gh.writes)| + 1
  {
    ghost var a, s, given := gh.Look(), gh.IssueOf(number), Held(existing);
    var r := CommitLedger(lc, gh, n.appID, n.repo, entry, existing, prevSHA);
    if r != Committed {
      GaveUp(lc, start, a, gh.Look(), s, gh.clock, c, given, prevSHA, r);
      return false, false, 0;
    }
    ghost var m := gh.Look();
    ok, k := Deliver(gh, number, text, {LABEL_ISSUED}, {LABEL_AWAITING_CHALLENGE});
    WroteAndSaid(lc, start, a, m, gh.Look(), s, gh.IssueOf(number), gh.clock, c, given, prevSHA, k, ok);
    committed := true;
  }

  /** What a poll that issues has read: the challenge file and the ledger. */
  datatype Grounds = Grounds(file: string, held: Option<Ledger>) {
    /** The file is the answer to a posted challenge that is still good. */
    ghost predicate Hold(comments: seq<Challenge.Comment>, now: int) {
      StageOf(comments, now).Await? && Challenge.Match(StageOf(comments, now).nonce, file)
    }
  }

  // ---- what a poll comes to, in terms of the request, the files and the ledger alone ----

  /** Nothing is said, and nothing written. */
  predicate Silent(s: IssueState, t: IssueState, before: Files, after: Files) {
    t == s && after == before
  }

  /** What there was to see and to draw from, and what came of it. */
  datatype Scene = Scene(v: Visible, now: int, stream: seq<Random.Byte>, s: IssueState, t: IssueState, before: Files,
                         after: Files, ok: bool)
  {
    predicate Refuses(o: Oracles, r: Refusal, tag: string) {
      ok && after == before && Says(s, t, o.refusal(r), tag, now)
    }

    predicate Waits() { ok && Silent(s, t, before, after) }

    predicate Errs() { !ok && Silent(s, t, before, after) }
  }

  /** The ledger with one more entry, claimed for the repo at this time if there was none. */
  function WithEntry(held: Option<Ledger>, n: Named, now: int, entry: Certificate): Ledger
    requires n.Named?
  {
    match held
    case None => Ledger(n.appID, Owner("github", n.repo), now, false, Some([entry]))
    case Some(l) => l.(certificates := Some(l.Certs() + [entry]))
  }

  /** Step 9 on: a leaf is signed for the serial drawn, recorded and delivered. */
  ghost predicate LeafOutcome(lc: Codec, o: Oracles, issue: Issue, n: Named, held: Option<Ledger>, x: Scene)
    requires n.Named?
  {
    match Serial.FirstNonZeroBlock(x.stream).0
    case None => x.Errs()
    case Some(serial) =>
      exists t :: IsTemplateFor(o, n, x.now, t) && t.serial == serial &&
        match o.sign(t)
        case None => x.Errs()
        case Some(leaf) =>
          && x.ok && Ends(x.s, x.t, o.delivery(n.appID, leaf.der), "issued", {"awaiting-challenge"}, x.now)
          && exists entry :: IsEntryFor(o, issue, leaf, entry)
               && x.after == x.before[n.appID := lc.marshal(WithEntry(held, n, x.now, entry))]
  }

  /** Step 8: reserved for nobody, owned by another repo, or free to go on. */
  ghost predicate OwnerOutcome(lc: Codec, o: Oracles, issue: Issue, n: Named, x: Scene)
    requires n.Named?
  {
    match Load(lc, TextOf(x.before, n.appID))
    case None => x.Errs()
    case Some(held) =>
      if held.Some? && held.value.reserved then x.Refuses(o, Reserved(n.appID), "rejected")
      else if held.Some? && held.value.owner.repo != n.repo then x.Refuses(o, OwnedByOther(n.appID), "rejected")
      else LeafOutcome(lc, o, issue, n, held, x)
  }

  /** Steps 6 and 7, with the last comment that holds a marker, if any. */
  ghost predicate ChallengeOutcome(lc: Codec, o: Oracles, issue: Issue, n: Named, x: Scene)
    requires n.Named?
  {
    && ((forall c :: c in x.s.comments ==> Challenge.ParseNonce(c.body).None?) ==>
          if |x.stream| < 32 then x.Errs()
          else
            && x.ok && x.after == x.before
            && Says(x.s, x.t, Challenge.Posted(o.challenge, Challenge.HexEncode(x.stream[..32])), "awaiting-challenge",
                    x.now))
    && forall i :: Challenge.IsLastMarker(x.s.comments, i) ==>
         var file := x.v.File(n.repo, "/.well-known/owncloud-codesigning-challenge.txt");
         if x.now - x.s.comments[i].createdAt > 72 * 60 * 60 * 1_000_000_000
         then x.Refuses(o, ChallengeExpired, "expired")
         else if file.None? || !Challenge.Match(Challenge.ParseNonce(x.s.comments[i].body).value, file.value)
         then x.Waits()
         else OwnerOutcome(lc, o, issue, n, x)
  }

  /** The label of a refusal that steps 1 to 5 give. */
  function FormLabel(r: Refusal): string {
    if AboutForm(r) then "invalid" else "needs-changes"
  }

  /** What a poll of a certificate request comes to with nobody else about. */
  ghost predicate Outcome(lc: Codec, o: Oracles, issue: Issue, x: Scene) {
    if "issued" in issue.labels then x.Waits()
    else
      && (forall r :: Due(o, issue.body, x.v, r) ==> x.Refuses(o, r, FormLabel(r)))
      && forall n :: AsksFor(o, issue.body, n) && Polls.Declares(o, x.v.File(n.repo, "appinfo/info.xml"), n.appID) ==>
           ChallengeOutcome(lc, o, issue, n, x)
  }

  /** Some refusal is due, or the request is accepted; never both. */
  lemma DueOrAccepted(o: Oracles, body: string, v: Visible)
    ensures (exists r :: Due(o, body, v, r)) <==>
            !exists n :: AsksFor(o, body, n) && Polls.Declares(o, v.File(n.repo, "appinfo/info.xml"), n.appID)
  {
    ResolvedIff(o, body, v);
    var r := ResolvedIn(o, body, v);
    match r
    case ReadFailed =>
    case TurnedAway(why) => assert Due(o, body, v, why);
    case Claims(n) => assert AsksFor(o, body, n);
  }

  // ---- and what the course says comes to that ----

  /** The scene of a course that nobody disturbs. */
  function SceneOf(lc: Codec, v: Visible, now: int, stream: seq<Random.Byte>, s: IssueState, before: Files,
                   c: Course): Scene {
    Scene(v, now, stream, s, PerformAll(s, c.plan, now), before, FilesAfterCourse(lc, before, c), c.ok)
  }

  lemma RefusalScene(lc: Codec, o: Oracles, x: Scene, r: Refusal, tag: string)
    requires x == SceneOf(lc, x.v, x.now, x.stream, x.s, x.before, Course(None, RefusalPlan(o, r), true))
    requires tag == LabelFor(r)
    ensures x.Refuses(o, r, tag)
  {
    PlanOfTwo(x.s, o.refusal(r), {LabelFor(r)}, {}, x.now);
  }

  lemma LeafCourseOutcome(lc: Codec, o: Oracles, issue: Issue, n: Named, held: Option<Ledger>, x: Scene)
    requires n.Named? && AppId.Valid(n.appID) && Form.IsSlug(n.repo)
    requires Load(lc, TextOf(x.before, n.appID)) == Some(held)
    requires x == SceneOf(lc, x.v, x.now, x.stream, x.s, x.before, CourseOfIssue(o, issue, n, x.now, x.stream))
    ensures LeafOutcome(lc, o, issue, n, held, x)
  {
    Form.OwnerSplitsSlug(n.repo);
    var drawn := Serial.FirstNonZeroBlock(x.stream).0;
    if drawn.Some? {
      Serial.DrawnSerialSurvives(x.stream);
      TemplateIsFor(o, n, x.now, drawn.value);
      var t := LeafTemplate(o, n, x.now, drawn.value);
      if o.sign(t).Some? {
        var leaf := o.sign(t).value;
        PlanOfThree(x.s, o.delivery(n.appID, leaf.der), {"issued"}, {"awaiting-challenge"}, x.now);
        var entry := EntryFor(o, issue, leaf);
        assert IsEntryFor(o, issue, leaf, entry);
        AppendWrites(lc, x.before, n, x.now, entry, held);
      }
      assert IsTemplateFor(o, n, x.now, t) && t.serial == drawn.value;
    }
  }

  lemma AppendWrites(lc: Codec, before: Files, n: Named, now: int, entry: Certificate, held: Option<Ledger>)
    requires n.Named? && Load(lc, TextOf(before, n.appID)) == Some(held)
    ensures Applied(lc, before, Commit(0, n.appID, Append(n.repo, now, entry)))
            == before[n.appID := lc.marshal(WithEntry(held, n, now, entry))]
  {
    if held.None? {
      assert [] + [entry] == [entry];
    }
  }

  lemma OwnerCourseOutcome(lc: Codec, o: Oracles, issue: Issue, n: Named, x: Scene)
    requires n.Named? && AppId.Valid(n.appID) && Form.IsSlug(n.repo)
    requires x == SceneOf(lc, x.v, x.now, x.stream, x.s, x.before,
                          CourseOfLedger(lc, o, issue, n, x.now, x.before, x.stream))
    ensures OwnerOutcome(lc, o, issue, n, x)
  {
    var loaded := Load(lc, TextOf(x.before, n.appID));
    if loaded.Some? {
      var held := loaded.value;
      if held.Some? && held.value.reserved {
        RefusalScene(lc, o, x, Reserved(n.appID), "rejected");
      } else if held.Some? && held.value.owner.repo != n.repo {
        RefusalScene(lc, o, x, OwnedByOther(n.appID), "rejected");
      } else {
        LeafCourseOutcome(lc, o, issue, n, held, x);
      }
    }
  }

  lemma OneLastMarker(comments: seq<Challenge.Comment>, i: int, j: int)
    requires Challenge.IsLastMarker(comments, i) && Challenge.IsLastMarker(comments, j)
    ensures i == j
  {}

  /** The stage in terms of the last comment that holds a marker. */
  lemma StageByMarker(comments: seq<Challenge.Comment>, now: int)
    ensures StageOf(comments, now) == PostNew <==> forall c :: c in comments ==> Challenge.ParseNonce(c.body).None?
    ensures forall i :: Challenge.IsLastMarker(comments, i) ==>
              StageOf(comments, now) ==
                if now - comments[i].createdAt > 72 * 60 * 60 * 1_000_000_000 then Expire
                else Await(Challenge.ParseNonce(comments[i].body).value)
  {
    if Challenge.LastChallenge(comments).Some? {
      var i := Challenge.LastChallengeIsLast(comments);
      assert comments[i] in comments;
      forall j | Challenge.IsLastMarker(comments, j)
        ensures j == i
      {
        OneLastMarker(comments, i, j);
      }
    }
  }

  lemma ChallengeCourseOutcome(lc: Codec, o: Oracles, issue: Issue, n: Named, x: Scene)
    requires n.Named? && AppId.Valid(n.appID) && Form.IsSlug(n.repo)
    requires x == SceneOf(lc, x.v, x.now, x.stream, x.s, x.before,
                          CourseOfControl(lc, o, issue, n, ControlIn(x.s.comments, x.now, n.repo, x.v), x.now, x.before,
                                          x.stream))
    ensures ChallengeOutcome(lc, o, issue, n, x)
  {
    StageByMarker(x.s.comments, x.now);
    var control := ControlIn(x.s.comments, x.now, n.repo, x.v);
    match control
    case CheckFailed =>
    case Waiting =>
    case NeedsChallenge =>
      if |x.stream| >= 32 {
        PlanOfTwo(x.s, Challenge.Posted(o.challenge, Challenge.HexEncode(x.stream[..32])), {"awaiting-challenge"}, {},
                  x.now);
      }
    case ChallengeOver => RefusalScene(lc, o, x, ChallengeExpired, "expired");
    case Proven => OwnerCourseOutcome(lc, o, issue, n, x);
  }

  /** A course that reports an error settles on nothing. */
  lemma OwnerFailureIsError(o: Oracles, issue: Issue, n: Named, now: int, existing: Option<Ledger>,
                            stream: seq<Random.Byte>)
    requires n.Named?
    ensures var course := CourseOfOwner(o, issue, n, now, existing, stream); !course.ok ==> course == ERROR
  {}

  lemma ControlFailureIsError(lc: Codec, o: Oracles, issue: Issue, n: Named, control: Control, now: int,
                              texts: Files, stream: seq<Random.Byte>)
    requires n.Named?
    ensures var course := CourseOfControl(lc, o, issue, n, control, now, texts, stream); !course.ok ==>
              course == ERROR
  {
    var loaded := Load(lc, TextOf(texts, n.appID));
    if loaded.Some? {
      OwnerFailureIsError(o, issue, n, now, loaded.value, stream);
    }
  }

  lemma FailureIsError(lc: Codec, o: Oracles, issue: Issue, comments: seq<Challenge.Comment>, now: int,
                       v: Visible, texts: Files, stream: seq<Random.Byte>)
    ensures var course := CourseOf(lc, o, issue, comments, now, v, texts, stream); !course.ok ==> course == ERROR
  {
    var resolved := ResolvedIn(o, issue.body, v);
    if resolved.Claims? {
      var n := resolved.n;
      ControlFailureIsError(lc, o, issue, n, ControlIn(comments, now, n.repo, v), now, texts, stream);
    }
  }

  lemma TurnedAwayOutcome(lc: Codec, o: Oracles, issue: Issue, r: Refusal, x: Scene)
    requires "issued" !in issue.labels && ResolvedIn(o, issue.body, x.v) == TurnedAway(r)
    requires x == SceneOf(lc, x.v, x.now, x.stream, x.s, x.before, Course(None, RefusalPlan(o, r), true))
    ensures Outcome(lc, o, issue, x)
  {
    ResolvedIff(o, issue.body, x.v);
    assert Due(o, issue.body, x.v, r);
    RefusalScene(lc, o, x, r, FormLabel(r));
  }

  lemma AcceptedOutcome(lc: Codec, o: Oracles, issue: Issue, n: Named, x: Scene)
    requires "issued" !in issue.labels && ResolvedIn(o, issue.body, x.v) == Claims(n)
    requires n.Named? && AppId.Valid(n.appID) && Form.IsSlug(n.repo) && ChallengeOutcome(lc, o, issue, n, x)
    ensures Outcome(lc, o, issue, x)
  {
    ResolvedIff(o, issue.body, x.v);
  }

  /** The course of a poll comes to its outcome. */
  lemma CourseOutcome(lc: Codec, o: Oracles, issue: Issue, x: Scene)
    requires x == SceneOf(lc, x.v, x.now, x.stream, x.s, x.before,
                          CourseOf(lc, o, issue, x.s.comments, x.now, x.v, x.before, x.stream))
    ensures Outcome(lc, o, issue, x)
  {
    if "issued" !in issue.labels {
      var resolved := ResolvedIn(o, issue.body, x.v);
      match resolved
      case ReadFailed =>
        ResolvedIff(o, issue.body, x.v);
      case TurnedAway(r) =>
        TurnedAwayOutcome(lc, o, issue, r, x);
      case Claims(n) =>
        AsksForOne(o, issue.body);
        ChallengeCourseOutcome(lc, o, issue, n, x);
        AcceptedOutcome(lc, o, issue, n, x);
    }
  }

  /** What a poll did when nobody disturbed it. */
  lemma PollOutcome(lc: Codec, o: Oracles, issue: Issue, a: View, b: View, c: Course, committed: bool, k: nat, x: Scene)
    requires c == CourseOf(lc, o, issue, x.s.comments, x.now, x.v, x.before, x.stream)
    requires Ran(lc, a.snap, b.snap, x.s, x.t, x.now, c, committed, k, x.ok) && CarriedOut(a, b, c, committed, x.ok)
    requires x.before == Texts(a.snap.blobs) && x.after == Texts(b.snap.blobs)
    ensures Outcome(lc, o, issue, x)
  {
    FailureIsError(lc, o, issue, x.s.comments, x.now, x.v, x.before, x.stream);
    RanAlone(lc, a.snap, b.snap, x.s, x.t, x.now, c, committed, k, x.ok);
    CourseOutcome(lc, o, issue, x);
  }

  /** enroll.Process. With nobody else about it comes to the Outcome of the request, though a conflict is
      pending. Whatever happens, it issues nothing unless the file it fetched answers a posted challenge
      that is still good and the ledger it loaded is free or owned by the repo; it writes at most one
      atomic update, errs only for a cause, and touches no other issue. */
  method Process(lc: Codec, o: Oracles, gh: Client, rand: Random.Reader, issue: Issue)
    returns (ok: bool, ghost c: Course, ghost committed: bool, ghost k: nat, ghost g: Grounds)
    requires gh.Valid()
    modifies gh, rand
    ensures gh.Valid() && gh.clock == old(gh.clock)
    ensures Ran(lc, old(gh.Snap()), gh.Snap(), old(gh.IssueOf(issue.number)), gh.IssueOf(issue.number), gh.clock, c,
                committed, k, ok)
    ensures ErrsForCause(lc, old(gh.Look()), gh.Look(), c, committed, ok)
    ensures forall m :: m != issue.number ==> gh.IssueOf(m) == old(gh.IssueOf(m))
    ensures c.commit.Some? ==>
              && "issued" !in issue.labels && g.Hold(old(gh.CommentsOn(issue.number)), gh.clock)
              && exists n :: AsksFor(o, issue.body, n)
                   && Justified(lc, o, issue, n, gh.clock, old(gh.Snap()), gh.Snap(), c, g.held, committed)
    ensures old(gh.Quiet()) ==>
              Outcome(lc, o, issue, Scene(old(VisibleTo(gh)), gh.clock, old(rand.stream), old(gh.IssueOf(issue.number)),
                                          gh.IssueOf(issue.number), old(Texts(gh.ledgers)), Texts(gh.ledgers), ok))
  {
    ok, c, committed, k, g := Poll(lc, o, gh, rand, issue);
    if old(gh.Quiet()) {
      PollOutcome(lc, o, issue, old(gh.Look()), gh.Look(), c, committed, k,
                  Scene(old(VisibleTo(gh)), gh.clock, old(rand.stream), old(gh.IssueOf(issue.number)),
                        gh.IssueOf(issue.number), old(Texts(gh.ledgers)), Texts(gh.ledgers), ok));
    }
  }

  /** Its steps, one after the other. */
  method Poll(lc: Codec, o: Oracles, gh: Client, rand: Random.Reader, issue: Issue)
    returns (ok: bool, ghost c: Course, ghost committed: bool, ghost k: nat, ghost g: Grounds)
    requires gh.Valid()
    modifies gh, rand
    ensures gh.Valid() && gh.clock == old(gh.clock)
    ensures Ran(lc, old(gh.Snap()), gh.Snap(), old(gh.IssueOf(issue.number)), gh.IssueOf(issue.number), gh.clock, c,
                committed, k, ok)
    ensures ErrsForCause(lc, old(gh.Look()), gh.Look(), c, committed, ok)
    ensures forall m :: m != issue.number ==> gh.IssueOf(m) == old(gh.IssueOf(m))
    ensures c.commit.Some? ==>
              && "issued" !in issue.labels && g.Hold(old(gh.CommentsOn(issue.number)), gh.clock)
              && exists n :: AsksFor(o, issue.body, n)
                   && Justified(lc, o, issue, n, gh.clock, old(gh.Snap()), gh.Snap(), c, g.held, committed)
    ensures old(gh.Quiet()) ==>
              && CarriedOut(old(gh.Look()), gh.Look(), c, committed, ok)
              && c == CourseOf(lc, o, issue, old(gh.CommentsOn(issue.number)), gh.clock, old(VisibleTo(gh)),
                               old(Texts(gh.ledgers)), old(rand.stream))
  {
    OthersOnlySelf(gh.Snap());
    committed, k, g := false, 0, Grounds("", None);
    if LABEL_ISSUED in issue.labels {
      RanNothing(lc, gh.Snap(), gh.Snap(), gh.IssueOf(issue.number), gh.clock, NOTHING, true);
      ok, c := true, NOTHING;
    } else {
      var resolved := Resolve(o, gh, issue.body);
      ghost var look := gh.Look();
      ok, c, committed, k, g := ActOnResolved(lc, o, gh, rand, issue, resolved, old(gh.Snap()));
      ErrsLater(lc, old(gh.Look()), look, gh.Look(), c, committed, ok);
    }
  }

  method ActOnResolved(lc: Codec, o: Oracles, gh: Client, rand: Random.Reader, issue: Issue, resolved: Resolved,
                       ghost start: Snapshot)
    returns (ok: bool, ghost c: Course, ghost committed: bool, ghost k: nat, ghost g: Grounds)
    requires gh.Valid() && OthersOnly(start, gh.Snap())
    requires resolved.Claims? ==> resolved.n.Named? && Form.IsSlug(resolved.n.repo)
    requires resolved.TurnedAway? ==> LabelFor(resolved.r) != LABEL_ISSUED
    modifies gh, rand
    ensures gh.Valid() && gh.clock == old(gh.clock)
    ensures Ran(lc, start, gh.Snap(), old(gh.IssueOf(issue.number)), gh.IssueOf(issue.number), gh.clock, c, committed,
                k, ok)
    ensures ErrsForCause(lc, old(gh.Look()), gh.Look(), c, committed, ok) && (resolved == ReadFailed ==> !ok)
    ensures forall m :: m != issue.number ==> gh.IssueOf(m) == old(gh.IssueOf(m))
    ensures c.commit.Some? ==>
              && resolved.Claims? && g.Hold(old(gh.CommentsOn(issue.number)), gh.clock)
              && Justified(lc, o, issue, resolved.n, gh.clock, start, gh.Snap(), c, g.held, committed)
    ensures old(gh.Quiet()) ==>
              && CarriedOut(old(gh.Look()), gh.Look(), c, committed, ok)
              && c == CourseOfResolved(lc, o, issue, resolved, old(gh.CommentsOn(issue.number)), gh.clock,
                                       old(VisibleTo(gh)), old(Texts(gh.ledgers)), old(rand.stream))
  {
    committed, k, g := false, 0, Grounds("", None);
    match resolved {
      case ReadFailed =>
        RanNothing(lc, start, gh.Snap(), gh.IssueOf(issue.number), gh.clock, ERROR, false);
        ok, c := false, ERROR;
      case TurnedAway(r) =>
        ok, c, k := Talk(lc, gh, issue.number, o.refusal(r), LabelFor(r), start);
      case Claims(n) =>
        ok, c, committed, k, g := ProcessClaim(lc, o, gh, rand, issue, n, start);
    }
  }

  /** Steps 6 to 11, for a request whose form and reconciliation are in order. */
  method ProcessClaim(lc: Codec, o: Oracles, gh: Client, rand: Random.Reader, issue: Issue, n: Named,
                      ghost start: Snapshot)
    returns (ok: bool, ghost c: Course, ghost committed: bool, ghost k: nat, ghost g: Grounds)
    requires gh.Valid() && OthersOnly(start, gh.Snap())
    requires n.Named? && Form.IsSlug(n.repo)
    modifies gh, rand
    ensures gh.Valid() && gh.clock == old(gh.clock)
    ensures Ran(lc, start, gh.Snap(), old(gh.IssueOf(issue.number)), gh.IssueOf(issue.number), gh.clock, c, committed,
                k, ok)
    ensures ErrsForCause(lc, old(gh.Look()), gh.Look(), c, committed, ok)
    ensures forall m :: m != issue.number ==> gh.IssueOf(m) == old(gh.IssueOf(m))
    ensures c.commit.Some? ==>
              && g.Hold(old(gh.CommentsOn(issue.number)), gh.clock)
              && Justified(lc, o, issue, n, gh.clock, start, gh.Snap(), c, g.held, committed)
    ensures old(gh.Quiet()) ==>
              && CarriedOut(old(gh.Look()), gh.Look(), c, committed, ok)
              && c == CourseOfControl(lc, o, issue, n,
                                      ControlIn(old(gh.CommentsOn(issue.number)), gh.clock, n.repo, old(VisibleTo(gh))),
                                      gh.clock, old(Texts(gh.ledgers)), old(rand.stream))
  {
    var control, file := CheckControl(gh, issue.number, n.repo);
    OthersOnlyTransitive(start, old(gh.Snap()), gh.Snap());
    ghost var held;
    ghost var look := gh.Look();
    ok, c, committed, k, held := ActOnControl(lc, o, gh, rand, issue, n, control, start);
    ErrsLater(lc, old(gh.Look()), look, gh.Look(), c, committed, ok);
    g := Grounds(file, held);
  }

  method ActOnControl(lc: Codec, o: Oracles, gh: Client, rand: Random.Reader, issue: Issue, n: Named, control: Control,
                      ghost start: Snapshot)
    returns (ok: bool, ghost c: Course, ghost committed: bool, ghost k: nat, ghost held: Option<Ledger>)
    requires gh.Valid() && OthersOnly(start, gh.Snap())
    requires n.Named? && Form.IsSlug(n.repo)
    modifies gh, rand
    ensures gh.Valid() && gh.clock == old(gh.clock)
    ensures Ran(lc, start, gh.Snap(), old(gh.IssueOf(issue.number)), gh.IssueOf(issue.number), gh.clock, c, committed,
                k, ok)
    ensures ErrsForCause(lc, old(gh.Look()), gh.Look(), c, committed, ok)
    ensures forall m :: m != issue.number ==> gh.IssueOf(m) == old(gh.IssueOf(m))
    ensures control == CheckFailed ==> !ok
    ensures c.commit.Some? ==>
              control == Proven && Justified(lc, o, issue, n, gh.clock, start, gh.Snap(), c, held, committed)
    ensures old(gh.Quiet()) ==>
              && CarriedOut(old(gh.Look()), gh.Look(), c, committed, ok)
              && c == CourseOfControl(lc, o, issue, n, control, gh.clock, old(Texts(gh.ledgers)), old(rand.stream))
  {
    committed, held := false, None;
    match control {
      case CheckFailed =>
        RanNothing(lc, start, gh.Snap(), gh.IssueOf(issue.number), gh.clock, ERROR, false);
        return false, ERROR, false, 0, None;
      case Waiting =>
        RanNothing(lc, start, gh.Snap(), gh.IssueOf(issue.number), gh.clock, NOTHING, true);
        return true, NOTHING, false, 0, None;
      case ChallengeOver =>
        RefusalsAreModest(ChallengeExpired);
        ok, c, k := Talk(lc, gh, issue.number, o.refusal(ChallengeExpired), LABEL_EXPIRED, start);
      case NeedsChallenge =>
        ok, c, k := PostChallenge(lc, o, gh, rand, issue.number, start);
      case Proven =>
        ok, c, committed, k, held := LoadAndProcess(lc, o, gh, rand, issue, n, start);
    }
  }

  /** postChallenge */
  method PostChallenge(lc: Codec, o: Oracles, gh: Client, rand: Random.Reader, n: int, ghost start: Snapshot)
    returns (ok: bool, ghost c: Course, ghost k: nat)
    requires gh.Valid() && OthersOnly(start, gh.Snap())
    modifies gh, rand
    ensures gh.Valid() && gh.clock == old(gh.clock)
    ensures c == if |old(rand.stream)| < Challenge.NONCE_BYTES then ERROR
                 else Course(None, ChallengePlan(o, Challenge.HexEncode(old(rand.stream)[..Challenge.NONCE_BYTES])),
                             true)
    ensures Ran(lc, start, gh.Snap(), old(gh.IssueOf(n)), gh.IssueOf(n), gh.clock, c, false, k, ok)
    ensures forall m :: m != n ==> gh.IssueOf(m) == old(gh.IssueOf(m))
    ensures gh.faults >= old(gh.faults) && (ok ==> gh.faults == old(gh.faults)) && gh.puts == old(gh.puts)
    ensures gh.faults == old(gh.faults) ==> ok == c.ok
    ensures old(gh.Quiet()) ==> gh.Quiet() && gh.faults == old(gh.faults) && gh.Snap() == old(gh.Snap())
  {
    var nonce := Challenge.Generate(rand);
    if nonce.None? {
      RanNothing(lc, start, gh.Snap(), gh.IssueOf(n), gh.clock, ERROR, false);
      return false, ERROR, 0;
    }
    var body := Challenge.CommentBody(o.challenge, nonce.value);
    RefusalsAreModest(ChallengeExpired);
    ok, c, k := Talk(lc, gh, n, body, LABEL_AWAITING_CHALLENGE, start);
  }

  /** Steps 8 to 11 on the ledger as loaded. */
  method ProcessOwner(lc: Codec, o: Oracles, gh: Client, rand: Random.Reader, issue: Issue, n: Named,
                      existing: LedgerObject?, prevSHA: string, ghost start: Snapshot)
    returns (ok: bool, ghost c: Course, ghost committed: bool, ghost k: nat)
    requires gh.Valid() && OthersOnly(start, gh.Snap())
    requires n.Named? && Form.IsSlug(n.repo)
    requires Holds(lc, gh.ledgers, gh.nextSHA, n.appID, Held(existing), prevSHA)
    modifies gh, rand, existing
    ensures gh.Valid() && gh.clock == old(gh.clock)
    ensures c == CourseOfOwner(o, issue, n, gh.clock, old(Held(existing)), old(rand.stream))
    ensures Ran(lc, start, gh.Snap(), old(gh.IssueOf(issue.number)), gh.IssueOf(issue.number), gh.clock, c, committed,
                k, ok)
    ensures c.commit.Some? ==> Certified(o, issue, n, gh.clock, c)
    ensures forall m :: m != issue.number ==> gh.IssueOf(m) == old(gh.IssueOf(m))
    ensures ErrsForCause(lc, old(gh.Look()), gh.Look(), c, committed, ok)
    ensures old(gh.Quiet()) && OnDisk(lc, old(gh.Look()), n.appID) == Some(old(Held(existing))) ==>
              CarriedOut(old(gh.Look()), gh.Look(), c, committed, ok)
  {
    var current := if existing == null then None else Some(existing.Value());
    var refusal := Rejection(Decide(current, n.repo), n.appID);
    if refusal.Some? {
      RefusalsAreModest(Reserved(n.appID));
      ok, c, k := Talk(lc, gh, issue.number, o.refusal(refusal.value), LABEL_REJECTED, start);
      committed := false;
    } else {
      ok, c, committed, k := IssueLeaf(lc, o, gh, rand, issue, n, existing, prevSHA, start);
    }
  }

  /** Loads the ledger and goes on. */
  method LoadAndProcess(lc: Codec, o: Oracles, gh: Client, rand: Random.Reader, issue: Issue, n: Named,
                        ghost start: Snapshot)
    returns (ok: bool, ghost c: Course, ghost committed: bool, ghost k: nat, ghost held: Option<Ledger>)
    requires gh.Valid() && OthersOnly(start, gh.Snap())
    requires n.Named? && Form.IsSlug(n.repo)
    modifies gh, rand
    ensures gh.Valid() && gh.clock == old(gh.clock)
    ensures Ran(lc, start, gh.Snap(), old(gh.IssueOf(issue.number)), gh.IssueOf(issue.number), gh.clock, c, committed,
                k, ok)
    ensures ErrsForCause(lc, old(gh.Look()), gh.Look(), c, committed, ok)
    ensures forall m :: m != issue.number ==> gh.IssueOf(m) == old(gh.IssueOf(m))
    ensures old(gh.Quiet()) ==>
              && CarriedOut(old(gh.Look()), gh.Look(), c, committed, ok)
              && c == CourseOfLedger(lc, o, issue, n, gh.clock, old(Texts(gh.ledgers)), old(rand.stream))
    ensures c.commit.Some? ==>
              Justified(lc, o, issue, n, gh.clock, start, gh.Snap(), c, held, committed)
  {
    var loaded, existing, prevSHA := LoadLedger(lc, gh, n.appID);
    OthersOnlyTransitive(start, old(gh.Snap()), gh.Snap());
    if !loaded {
      RanNothing(lc, start, gh.Snap(), gh.IssueOf(issue.number), gh.clock, ERROR, false);
      return false, ERROR, false, 0, None;
    }
    ghost var m, s, look, stream := gh.Snap(), gh.IssueOf(issue.number), gh.Look(), rand.stream;
    held := Held(existing);
    OthersOnlySelf(m);
    ok, c, committed, k := ProcessOwner(lc, o, gh, rand, issue, n, existing, prevSHA, m);
    JustifiedBy(lc, o, issue, n, stream, start, m, gh.Snap(), s, gh.IssueOf(issue.number), gh.clock, c, held,
                committed, k, ok);
    RanLater(lc, start, m, gh.Snap(), s, gh.IssueOf(issue.number), gh.clock, c, committed, k, ok);
    ErrsLater(lc, old(gh.Look()), look, gh.Look(), c, committed, ok);
  }
}
