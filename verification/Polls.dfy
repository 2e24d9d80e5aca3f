/** What one poll of an issue decides, step by step, and what it then does to the issue: shared by
    the pipelines of internal/enroll and internal/revoke and by the model of many polls. */
module Polls {
  import opened Wrappers
  import opened Ledger
  import opened Updates
  import opened Store
  import AppId
  import Challenge
  import Digits
  import Form
  import Random
  import Serial
  import Strings

  const LABEL_INVALID := "invalid"
  const LABEL_NEEDS_CHANGES := "needs-changes"
  const LABEL_AWAITING_CHALLENGE := "awaiting-challenge"
  const LABEL_EXPIRED := "expired"
  const LABEL_REJECTED := "rejected"
  const LABEL_ISSUED := "issued"
  const LABEL_REVOKED := "revoked"

  /** An issue as a poll finds it. */
  datatype Issue = Issue(number: int, body: string, login: string, userId: Int64, labels: seq<string>)

  // ---- foreign code ----

  /** A parsed and checked certificate signing request. */
  datatype Request = Request(commonName: string, publicKey: string)

  /** A certificate to be signed: the three names of its subject, its validity and its key. */
  datatype Template = Template(serial: nat, commonName: string, organization: string, organizationalUnit: string,
                               notBefore: int, notAfter: int, publicKey: string)

  /** A signed certificate, parsed again. */
  datatype Leaf = Leaf(serial: int, commonName: string, notBefore: int, notAfter: int, der: string)

  /** The certificate embedded in a verified CMS blob. */
  datatype SignerCert = SignerCert(commonName: string, der: string)

  datatype Verdict = Verified(cert: SignerCert) | Unverifiable | VerifierFailed

  /** Why an issue is turned away. */
  datatype Refusal =
    | BadForm(why: Form.Parsed)
    | BadCsr
    | BadName(commonName: string)
    | NoAccess(repo: string)
    | NoInfo(repo: string)
    | NoId(repo: string)
    | BadId(rawId: string)
    | Mismatch(csrId: string, infoId: string)
    | ChallengeExpired
    | Reserved(appID: string)
    | OwnedByOther(appID: string)
    | NoCms
    | BadCms
    | NotIssued(fingerprint: string, appID: string)
    | RevokedAlready

  /** The library calls of the pipelines, and the wording of their comments. */
  datatype Oracles = Oracles(
    parseCsr: string -> Option<Request>,
    extractId: string -> Option<string>,
    sign: Template -> Option<Leaf>,
    verifyCms: string -> Verdict,
    fingerprint: string -> string,
    issuerNotAfter: int,
    challenge: Challenge.Wording,
    refusal: Refusal -> string,
    delivery: (string, string) -> string,
    revoked: (string, string, int) -> string)

  function LabelFor(r: Refusal): string {
    match r
    case BadForm(_) => LABEL_INVALID
    case BadCsr => LABEL_INVALID
    case BadName(_) => LABEL_INVALID
    case NoAccess(_) => LABEL_NEEDS_CHANGES
    case NoInfo(_) => LABEL_NEEDS_CHANGES
    case NoId(_) => LABEL_NEEDS_CHANGES
    case BadId(_) => LABEL_NEEDS_CHANGES
    case Mismatch(_, _) => LABEL_NEEDS_CHANGES
    case ChallengeExpired => LABEL_EXPIRED
    case Reserved(_) => LABEL_REJECTED
    case OwnedByOther(_) => LABEL_REJECTED
    case NoCms => LABEL_INVALID
    case BadCms => LABEL_INVALID
    case NotIssued(_, _) => LABEL_INVALID
    case RevokedAlready => LABEL_REVOKED
  }

  // ---- what a poll does to its issue ----

  /** terminal: a comment and a label. */
  function RefusalPlan(o: Oracles, r: Refusal): seq<Effect> {
    [PostComment(o.refusal(r))] + [SetLabels({LabelFor(r)}, {})]
  }

  function ChallengePlan(o: Oracles, nonce: string): seq<Effect> {
    [PostComment(Challenge.Posted(o.challenge, nonce))] + [SetLabels({LABEL_AWAITING_CHALLENGE}, {})]
  }

  function IssuedPlan(text: string): seq<Effect> {
    [PostComment(text)] + [SetLabels({LABEL_ISSUED}, {LABEL_AWAITING_CHALLENGE})] + [CloseIssue]
  }

  function RevokedPlan(text: string): seq<Effect> {
    [PostComment(text)] + [SetLabels({LABEL_REVOKED}, {})] + [CloseIssue]
  }

  /** A plan that never says a certificate was issued. */
  predicate Modest(plan: seq<Effect>) {
    forall i :: 0 <= i < |plan| && plan[i].SetLabels? ==> LABEL_ISSUED !in plan[i].add
  }

  lemma RefusalsAreModest(r: Refusal)
    ensures LabelFor(r) != LABEL_ISSUED && LABEL_REVOKED != LABEL_ISSUED && LABEL_AWAITING_CHALLENGE != LABEL_ISSUED
  {}

  // ---- issuance: steps 1 to 5 ----

  /** What the form and its CSR ask for. */
  datatype Named = Unnamed(r: Refusal) | Named(repo: string, appID: string, publicKey: string)

  function ReadForm(o: Oracles, body: string): Named {
    match Form.FormOf(body)
    case Ok(form) =>
      var req := o.parseCsr(form.csr);
      if req.None? then Unnamed(BadCsr)
      else if AppId.ValidateStrict(req.value.commonName).None? then Unnamed(BadName(req.value.commonName))
      else Named(form.repo, req.value.commonName, req.value.publicKey)
    case why => Unnamed(BadForm(why))
  }

  /** Whether the repo's info.xml names the same app. */
  function Reconcile(o: Oracles, repo: string, appID: string, info: Option<string>, accessible: bool): Option<Refusal> {
    if info.None? then Some(if accessible then NoInfo(repo) else NoAccess(repo))
    else
      var rawId := o.extractId(info.value);
      if rawId.None? then Some(NoId(repo))
      else
        var infoId := AppId.Canonicalize(rawId.value);
        if infoId.None? then Some(BadId(rawId.value))
        else if appID != infoId.value then Some(Mismatch(appID, infoId.value))
        else None
  }

  /** The repo's info.xml names the same app, up to ASCII case. */
  predicate Declares(o: Oracles, info: Option<string>, appID: string) {
    info.Some? && o.extractId(info.value).Some? && AppId.EqualUpToCase(o.extractId(info.value).value, appID)
  }

  /** A request is accepted if and only if its repo declares the app, and each refusal is given exactly
      when it is due: no file, for want of access or of the file; no id; an id that stands for no
      appId; one that stands for another. */
  lemma ReconciledIff(o: Oracles, repo: string, appID: string, info: Option<string>, accessible: bool)
    requires AppId.Valid(appID)
    ensures var r := Reconcile(o, repo, appID, info, accessible);
            && (r.None? <==> Declares(o, info, appID))
            && (r == Some(NoAccess(repo)) <==> info.None? && !accessible)
            && (r == Some(NoInfo(repo)) <==> info.None? && accessible)
            && (r == Some(NoId(repo)) <==> info.Some? && o.extractId(info.value).None?)
            && (forall id :: r == Some(BadId(id)) <==>
                  info.Some? && o.extractId(info.value) == Some(id) && forall x :: !StandsFor(id, x))
            && (forall x :: r == Some(Mismatch(appID, x)) <==>
                  && info.Some? && o.extractId(info.value).Some?
                  && StandsFor(o.extractId(info.value).value, x) && x != appID)
  {
    if info.Some? && o.extractId(info.value).Some? {
      StandsForCanonical(o.extractId(info.value).value);
      assert StandsFor(o.extractId(info.value).value, appID) <==> Declares(o, info, appID);
    }
  }

  // ---- issuance: steps 6 and 7 ----

  datatype Stage = PostNew | Expire | Await(nonce: string)

  /** What the bot's own comments say about the challenge. */
  function StageOf(comments: seq<Challenge.Comment>, now: int): Stage {
    match Challenge.LastChallenge(comments)
    case None => PostNew
    case Some(prior) => if Challenge.Expired(prior.postedAt, now) then Expire else Await(prior.nonce)
  }

  // ---- issuance: step 8 ----

  function Rejection(d: Decision, appID: string): Option<Refusal> {
    match d
    case RejectedReserved => Some(Reserved(appID))
    case RejectedMismatch => Some(OwnedByOther(appID))
    case _ => None
  }

  // ---- issuance: step 9 ----

  /** Two years of 365 days, in nanoseconds. */
  const LEAF_VALIDITY := 63_072_000_000_000_000

  function NotAfter(notBefore: int, issuerNotAfter: int): int {
    if notBefore + LEAF_VALIDITY > issuerNotAfter then issuerNotAfter else notBefore + LEAF_VALIDITY
  }

  function LeafTemplate(o: Oracles, n: Named, now: int, serial: nat): Template
    requires n.Named? && Form.IndexOfSlash(n.repo) >= 0
  {
    Template(serial, n.appID, Form.OwnerOf(n.repo), ORIGIN_GITHUB, now, NotAfter(now, o.issuerNotAfter), n.publicKey)
  }

  /** What a leaf is to certify: the appId as its common name and the owner of the repo as its
      organization, valid from now for two years, or until its issuer expires if that is sooner, for the
      requester's key, under a serial in [1, 2^128). */
  predicate IsTemplateFor(o: Oracles, n: Named, now: int, t: Template)
    requires n.Named?
  {
    && t.commonName == n.appID && t.organizationalUnit == "github" && t.publicKey == n.publicKey
    && |t.organization| < |n.repo| && n.repo[..|t.organization|] == t.organization
    && n.repo[|t.organization|] == '/' && '/' !in t.organization
    && t.notBefore == now
    && (var twoYears := 2 * 365 * 24 * 60 * 60 * 1_000_000_000;
        && t.notAfter <= now + twoYears && t.notAfter <= o.issuerNotAfter
        && (t.notAfter == now + twoYears || t.notAfter == o.issuerNotAfter))
    && 1 <= t.serial < 0x1_0000_0000_0000_0000_0000_0000_0000_0000
  }

  lemma TemplateIsFor(o: Oracles, n: Named, now: int, serial: nat)
    requires n.Named? && Form.IsSlug(n.repo) && 1 <= serial < Serial.SERIAL_LIMIT
    ensures Form.IndexOfSlash(n.repo) >= 0 && IsTemplateFor(o, n, now, LeafTemplate(o, n, now, serial))
  {
    Form.OwnerSplitsSlug(n.repo);
    var owner := Form.OwnerOf(n.repo);
    assert n.repo[|owner|] == '/';
  }

  /** The entry for a leaf: its own serial, fingerprint and validity, and this issue's author and
      reference. */
  predicate IsEntryFor(o: Oracles, issue: Issue, leaf: Leaf, e: Certificate) {
    && e.serial == Serial.FormatSerial(leaf.serial) && e.fingerprint == o.fingerprint(leaf.der)
    && e.notBefore == leaf.notBefore && e.notAfter == leaf.notAfter
    && e.requester.origin == "github" && e.requester.login == issue.login && e.requester.userId == issue.userId
    && e.issueRef == "#" + Digits.Decimal(issue.number)
    && e.status == "active" && e.revokedFrom.None? && e.reason == "" && e.actor == ""
  }

  function IssueRef(number: int): string {
    "#" + Digits.Decimal(number)
  }

  function EntryFor(o: Oracles, issue: Issue, leaf: Leaf): Certificate {
    Certificate(Serial.FormatSerial(leaf.serial), o.fingerprint(leaf.der), leaf.notBefore, leaf.notAfter,
                Requester(ORIGIN_GITHUB, issue.login, issue.userId), IssueRef(issue.number),
                STATUS_ACTIVE, None, "", "")
  }

  /** A claim of the repo named, with an entry for a leaf signed for it. */
  ghost predicate Records(o: Oracles, issue: Issue, n: Named, now: int, c: (string, Update), text: string)
    requires n.Named?
  {
    && c.0 == n.appID && c.1.Append? && c.1.repo == n.repo && c.1.now == now
    && exists t, leaf :: IsTemplateFor(o, n, now, t) && o.sign(t) == Some(leaf)
         && IsEntryFor(o, issue, leaf, c.1.entry) && text == o.delivery(n.appID, leaf.der)
  }

  /** The signed leaf for the serial that the random stream yields. */
  function SignedLeaf(o: Oracles, n: Named, now: int, stream: seq<Random.Byte>): Option<Leaf>
    requires n.Named? && Form.IndexOfSlash(n.repo) >= 0
  {
    var serial :- Serial.FirstNonZeroBlock(stream).0;
    o.sign(LeafTemplate(o, n, now, serial))
  }

  // ---- revocation ----

  const BEGIN_CMS := "-----BEGIN CMS-----"
  const BEGIN_PKCS7 := "-----BEGIN PKCS7-----"
  const END_CMS := "-----END CMS-----"
  const END_PKCS7 := "-----END PKCS7-----"

  /** The earlier of two markers: its position and length, or -1. */
  function FirstOf(s: string, a: string, b: string): (r: (int, nat))
    ensures r.0 >= 0 ==> r.0 + r.1 <= |s|
  {
    var i, j := Strings.Index(s, a), Strings.Index(s, b);
    if i >= 0 && (j < 0 || i <= j) then (i, |a|) else (j, |b|)
  }

  /** From the first opening line of either kind to the first closing line of either kind after it. */
  function FindEither(body: string, openA: string, openB: string, closeA: string, closeB: string): Option<string> {
    var (i, n) := FirstOf(body, openA, openB);
    if i < 0 then None
    else
      var (j, m) := FirstOf(body[i + n..], closeA, closeB);
      if j < 0 then None else Some(body[i..i + n + j + m])
  }

  /** cmsBlockRE */
  function FindCms(body: string): Option<string> {
    FindEither(body, BEGIN_CMS, BEGIN_PKCS7, END_CMS, END_PKCS7)
  }

  lemma FirstOfIs(s: string, a: string, b: string, i: nat, n: nat)
    requires (Strings.At(s, a, i) && n == |a|) || (Strings.At(s, b, i) && n == |b|)
    requires !(Strings.At(s, a, i) && Strings.At(s, b, i))
    requires NoneBefore(s, i, a, b)
    ensures FirstOf(s, a, b) == (i, n)
  {
    Strings.IndexIsFirst(s, a);
    Strings.IndexIsFirst(s, b);
  }

  /** A CMS or PKCS7 opening line, and a closing line. */
  predicate CmsLines(opening: string, closing: string) {
    && (opening == "-----BEGIN CMS-----" || opening == "-----BEGIN PKCS7-----")
    && (closing == "-----END CMS-----" || closing == "-----END PKCS7-----")
  }

  /** `sub` is one of the two, and they never stand at the same place. */
  ghost predicate OneOf(sub: string, a: string, b: string) {
    && (sub == a || sub == b)
    && forall s, k: int :: !(Strings.At(s, a, k) && Strings.At(s, b, k))
  }

  /** Neither of the two starts before `i`. */
  ghost predicate NoneBefore(s: string, i: nat, a: string, b: string) {
    forall j :: 0 <= j < i ==> !Strings.At(s, a, j) && !Strings.At(s, b, j)
  }

  lemma FirstIsHere(before: string, sub: string, after: string, a: string, b: string)
    requires OneOf(sub, a, b)
    requires NoneBefore(before + (sub + after), |before|, a, b)
    ensures FirstOf(before + (sub + after), a, b) == (|before|, |sub|)
  {
    var s := before + (sub + after);
    assert s[|before|..|before| + |sub|] == sub;
    FirstOfIs(s, a, b, |before|, |sub|);
  }

  /** A block is found whole, whichever of the two opening and closing lines it has. */
  lemma EitherFound(before: string, opening: string, inner: string, closing: string, after: string,
                    openA: string, openB: string, closeA: string, closeB: string)
    requires OneOf(opening, openA, openB) && OneOf(closing, closeA, closeB)
    requires NoneBefore(before + (opening + (inner + (closing + after))), |before|, openA, openB)
    requires NoneBefore(inner + (closing + after), |inner|, closeA, closeB)
    ensures FindEither(before + (opening + (inner + (closing + after))), openA, openB, closeA, closeB)
            == Some(opening + inner + closing)
  {
    var rest := inner + (closing + after);
    FirstIsHere(before, opening, rest, openA, openB);
    FirstIsHere(inner, closing, after, closeA, closeB);
    Slices(before, opening, inner, closing, after);
  }

  lemma Slices(a: string, b: string, c: string, d: string, e: string)
    ensures (a + (b + (c + (d + e))))[|a| + |b|..] == c + (d + e)
    ensures (a + (b + (c + (d + e))))[|a|..|a| + |b| + |c| + |d|] == b + c + d
  {
    assert a + (b + (c + (d + e))) == a + (b + c + d) + e;
  }

  lemma KindsDiffer()
    ensures forall s, k: int :: !(Strings.At(s, BEGIN_CMS, k) && Strings.At(s, BEGIN_PKCS7, k))
    ensures forall s, k: int :: !(Strings.At(s, END_CMS, k) && Strings.At(s, END_PKCS7, k))
  {
    forall s, k: int
      ensures !(Strings.At(s, BEGIN_CMS, k) && Strings.At(s, BEGIN_PKCS7, k))
      ensures !(Strings.At(s, END_CMS, k) && Strings.At(s, END_PKCS7, k))
    {
      Strings.AtChar(s, BEGIN_CMS, k, 11);
      Strings.AtChar(s, BEGIN_PKCS7, k, 11);
      Strings.AtChar(s, END_CMS, k, 9);
      Strings.AtChar(s, END_PKCS7, k, 9);
    }
  }

  /** `before`, a block of an opening line, `inner` and a closing line, and `after`: the block is the
      first to open, and nothing closes it earlier. */
  ghost predicate FirstBlock(before: string, opening: string, inner: string, closing: string, after: string) {
    && CmsLines(opening, closing)
    && NoneBefore(before + (opening + (inner + (closing + after))), |before|, BEGIN_CMS, BEGIN_PKCS7)
    && NoneBefore(inner + (closing + after), |inner|, END_CMS, END_PKCS7)
  }

  /** The block of a revocation request is found whole, of either kind and with either closing line,
      whatever surrounds it. */
  lemma CmsFound(before: string, opening: string, inner: string, closing: string, after: string)
    requires FirstBlock(before, opening, inner, closing, after)
    ensures FindCms(before + (opening + (inner + (closing + after)))) == Some(opening + inner + closing)
  {
    KindsDiffer();
    EitherFound(before, opening, inner, closing, after, BEGIN_CMS, BEGIN_PKCS7, END_CMS, END_PKCS7);
  }

  /** Nothing else is ever found. */
  lemma OnlyBlocksFound(body: string) returns (before: string, opening: string, inner: string, closing: string,
                                               after: string)
    requires FindCms(body).Some?
    ensures body == before + (opening + (inner + (closing + after)))
    ensures FirstBlock(before, opening, inner, closing, after) && FindCms(body).value == opening + inner + closing
  {
    opening, before, inner := SplitFirst(body, BEGIN_CMS, BEGIN_PKCS7);
    var rest := inner;
    closing, inner, after := SplitFirst(rest, END_CMS, END_PKCS7);
    CmsFound(before, opening, inner, closing, after);
  }

  /** What is found first cuts the text in three. */
  lemma SplitFirst(s: string, a: string, b: string) returns (sub: string, before: string, after: string)
    requires FirstOf(s, a, b).0 >= 0
    ensures s == before + (sub + after) && (sub == a || sub == b) && NoneBefore(s, |before|, a, b)
    ensures FirstOf(s, a, b) == (|before|, |sub|) && after == s[|before| + |sub|..]
  {
    Strings.IndexIsFirst(s, a);
    Strings.IndexIsFirst(s, b);
    var (i, n) := FirstOf(s, a, b);
    before, sub, after := s[..i], s[i..i + n], s[i + n..];
  }

  /** Which certificate a revocation request is about. */
  datatype Presented = NotPresented(r: Refusal) | Unknown | Presented(appID: string, fingerprint: string)

  function ReadRequest(o: Oracles, body: string): Presented {
    var block := FindCms(body);
    if block.None? then NotPresented(NoCms)
    else
      match o.verifyCms(block.value)
      case Unverifiable => NotPresented(BadCms)
      case VerifierFailed => Unknown
      case Verified(cert) =>
        var appID := AppId.Canonicalize(cert.commonName);
        if appID.None? then NotPresented(BadName(cert.commonName))
        else Presented(appID.value, o.fingerprint(cert.der))
  }

  /** The appId that a common name stands for. */
  predicate StandsFor(commonName: string, appID: string) {
    AppId.Valid(appID) && AppId.EqualUpToCase(commonName, appID)
  }

  /** There is one at most, the one that Canonicalize gives. */
  lemma StandsForCanonical(commonName: string)
    ensures forall x :: StandsFor(commonName, x) <==> AppId.Canonicalize(commonName) == Some(x)
  {
    forall x
      ensures StandsFor(commonName, x) <==> AppId.Canonicalize(commonName) == Some(x)
    {
      AppId.EqualIffCanonical(commonName, x);
    }
  }

  /** What is read from a revocation request, each result exactly when it is due: no block, a block that
      does not verify, a verifier that fails, a name that stands for no appId, and the certificate. */
  lemma RequestReads(o: Oracles, body: string)
    ensures ReadRequest(o, body) == NotPresented(NoCms) <==> FindCms(body).None?
    ensures ReadRequest(o, body) == NotPresented(BadCms) <==>
              FindCms(body).Some? && o.verifyCms(FindCms(body).value) == Unverifiable
    ensures ReadRequest(o, body) == Unknown <==>
              FindCms(body).Some? && o.verifyCms(FindCms(body).value) == VerifierFailed
    ensures forall name :: ReadRequest(o, body) == NotPresented(BadName(name)) <==>
              && FindCms(body).Some? && o.verifyCms(FindCms(body).value).Verified?
              && o.verifyCms(FindCms(body).value).cert.commonName == name
              && forall x :: !StandsFor(name, x)
    ensures forall x, fp :: ReadRequest(o, body) == Presented(x, fp) <==>
              && FindCms(body).Some? && o.verifyCms(FindCms(body).value).Verified?
              && var cert := o.verifyCms(FindCms(body).value).cert;
                 StandsFor(cert.commonName, x) && fp == o.fingerprint(cert.der)
  {
    if FindCms(body).Some? && o.verifyCms(FindCms(body).value).Verified? {
      StandsForCanonical(o.verifyCms(FindCms(body).value).cert.commonName);
    }
  }
}
