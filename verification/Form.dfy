/** internal/enroll/form.go: the certificate-request issue body. */
module Form {
  import opened Wrappers
  import opened Strings

  const BEGIN_CSR := "-----BEGIN CERTIFICATE REQUEST-----"
  const END_CSR := "-----END CERTIFICATE REQUEST-----"
  const REPO_MARKER := "### App repository (owner/name)"
  const NEXT_HEADING := "\n### "
  const FENCE := "```"

  datatype Form = Form(csr: string, repo: string)

  datatype Parsed = Ok(form: Form) | NoCsr | MissingRepo | BadSlug(repo: string)

  // ---- parsing ----

  /** csrBlockRE: from the first opening line to the first closing line after it. */
  function FindBlock(body: string, opening: string, closing: string): Option<string> {
    var i := Index(body, opening);
    if i < 0 then None
    else
      var j := Index(body[i + |opening|..], closing);
      if j < 0 then None else Some(body[i..i + |opening| + j + |closing|])
  }

  /** The first block to open: nothing opens before it, and nothing closes it earlier. */
  predicate BlockAt(body: string, opening: string, closing: string, before: string, inner: string, after: string) {
    && body == before + (opening + (inner + (closing + after)))
    && (forall j :: 0 <= j < |before| ==> !At(body, opening, j))
    && (forall j :: 0 <= j < |inner| ==> !At(inner + (closing + after), closing, j))
  }

  ghost predicate IsBlock(body: string, opening: string, closing: string, block: string) {
    exists before, inner, after ::
      BlockAt(body, opening, closing, before, inner, after) && block == opening + inner + closing
  }

  lemma BlockAtIsFound(body: string, opening: string, closing: string, before: string, inner: string, after: string)
    requires BlockAt(body, opening, closing, before, inner, after)
    ensures FindBlock(body, opening, closing) == Some(opening + inner + closing)
  {
    var rest := inner + (closing + after);
    assert body[|before|..|before| + |opening|] == opening;
    IndexIs(body, opening, |before|);
    assert body[|before| + |opening|..] == rest;
    assert rest[|inner|..|inner| + |closing|] == closing;
    IndexIs(rest, closing, |inner|);
    assert body == before + (opening + inner + closing) + after;
  }

  /** The block is found if there is one, and nothing else is. */
  lemma BlockIff(body: string, opening: string, closing: string)
    ensures forall block :: FindBlock(body, opening, closing) == Some(block) <==> IsBlock(body, opening, closing, block)
  {
    forall before, inner, after | BlockAt(body, opening, closing, before, inner, after)
      ensures FindBlock(body, opening, closing) == Some(opening + inner + closing)
    {
      BlockAtIsFound(body, opening, closing, before, inner, after);
    }
    if FindBlock(body, opening, closing).Some? {
      FoundIsBlock(body, opening, closing);
    }
  }

  lemma FoundIsBlock(body: string, opening: string, closing: string)
    requires FindBlock(body, opening, closing).Some?
    ensures IsBlock(body, opening, closing, FindBlock(body, opening, closing).value)
  {
    IndexIsFirst(body, opening);
    var i := Index(body, opening);
    var rest := body[i + |opening|..];
    IndexIsFirst(rest, closing);
    var j := Index(rest, closing);
    var before, inner, after := body[..i], rest[..j], rest[j + |closing|..];
    CutAt(body, opening, i);
    CutAt(rest, closing, j);
    assert BlockAt(body, opening, closing, before, inner, after);
    BlockAtIsFound(body, opening, closing, before, inner, after);
  }

  lemma CutAt(s: string, sub: string, i: nat)
    requires At(s, sub, i)
    ensures i + |sub| <= |s| && s == s[..i] + (sub + s[i + |sub|..])
  {}

  /** `\s` of package regexp. */
  predicate IsRegexpSpace(c: char) {
    c == '\t' || c == '\n' || c == '\U{0C}' || c == '\r' || c == ' '
  }

  /** The one slash of `^[^\s/]+/[^\s/]+$` stands at `i`. */
  predicate SlashAt(s: string, i: int) {
    && 0 < i < |s| - 1
    && s[i] == '/'
    && forall k :: 0 <= k < |s| && k != i ==> s[k] != '/' && !IsRegexpSpace(s[k])
  }

  predicate IsSlug(s: string) {
    exists i | 0 <= i < |s| :: SlashAt(s, i)
  }

  /** The text under a heading, up to the next one. */
  function SectionText(body: string, marker: string): string {
    var i := Index(body, marker);
    if i < 0 then ""
    else
      var rest := body[i + |marker|..];
      var j := Index(rest, NEXT_HEADING);
      if j < 0 then rest else rest[..j]
  }

  /** `text` stands between the first marker of the body and the next heading, or the end. */
  predicate Between(body: string, marker: string, before: string, text: string, after: string) {
    && body == before + marker + (text + after)
    && (forall k :: 0 <= k < |before| ==> !At(body, marker, k))
    && (forall k :: 0 <= k < |text| ==> !At(text + after, "\n### ", k))
    && (after == "" || HasPrefix(after, "\n### "))
  }

  /** What the section under a marker is, without saying how it is found. */
  ghost predicate IsSection(body: string, marker: string, text: string) {
    if forall k :: 0 <= k ==> !At(body, marker, k) then text == ""
    else exists before, after :: Between(body, marker, before, text, after)
  }

  lemma CutAtHeading(rest: string) returns (n: nat)
    ensures n <= |rest| && rest == rest[..n] + rest[n..]
    ensures rest[..n] == if Index(rest, NEXT_HEADING) < 0 then rest else rest[..Index(rest, NEXT_HEADING)]
    ensures forall k :: 0 <= k < n ==> !At(rest, NEXT_HEADING, k)
    ensures rest[n..] == "" || HasPrefix(rest[n..], NEXT_HEADING)
  {
    IndexIsFirst(rest, NEXT_HEADING);
    var j := Index(rest, NEXT_HEADING);
    n := if j < 0 then |rest| else j;
    if j >= 0 {
      assert rest[n..][0..|NEXT_HEADING|] == rest[n..n + |NEXT_HEADING|];
    }
  }

  lemma SectionTextIsSection(body: string, marker: string)
    ensures IsSection(body, marker, SectionText(body, marker))
  {
    IndexIsFirst(body, marker);
    var i := Index(body, marker);
    if i >= 0 {
      var rest := body[i + |marker|..];
      var n := CutAtHeading(rest);
      ThreeParts(body, marker, i);
      assert Between(body, marker, body[..i], rest[..n], rest[n..]);
      assert SectionText(body, marker) == rest[..n];
    }
  }

  lemma ThreeParts(s: string, sub: string, i: nat)
    requires At(s, sub, i)
    ensures s == s[..i] + sub + s[i + |sub|..]
  {}

  lemma BetweenIsSection(body: string, marker: string, before: string, text: string, after: string)
    requires Between(body, marker, before, text, after)
    ensures SectionText(body, marker) == text
  {
    assert body[|before|..|before| + |marker|] == marker;
    IndexIs(body, marker, |before|);
    var rest := text + after;
    assert body[|before| + |marker|..] == rest;
    if after == "" {
      assert rest == text;
      NowhereIn(rest, NEXT_HEADING);
    } else {
      assert rest[|text|..|text| + |NEXT_HEADING|] == after[..|NEXT_HEADING|];
      IndexIs(rest, NEXT_HEADING, |text|);
    }
  }

  /** The section is there for every body, and there is only one. */
  lemma SectionIsUnique(body: string, marker: string, text: string)
    ensures IsSection(body, marker, text) <==> text == SectionText(body, marker)
  {
    SectionTextIsSection(body, marker);
    IndexIsFirst(body, marker);
    if IsSection(body, marker, text) && Index(body, marker) >= 0 {
      var before, after :| Between(body, marker, before, text, after);
      BetweenIsSection(body, marker, before, text, after);
    }
  }

  method SectionBody(body: string, marker: string) returns (rest: string)
    ensures IsSection(body, marker, rest)
  {
    SectionTextIsSection(body, marker);
    var i := Index(body, marker);
    if i < 0 {
      return "";
    }
    rest := body[i + |marker|..];
    var j := Index(rest, NEXT_HEADING);
    if j >= 0 {
      rest := rest[..j];
    }
  }

  /** The lines inside a fence: all but the first, and but the last if that closes it. */
  function InsideFence(lines: seq<string>): seq<string>
    requires lines != []
  {
    var inner := lines[1..];
    if inner != [] && TrimSpace(inner[|inner| - 1]) == FENCE then inner[..|inner| - 1] else inner
  }

  function Unfenced(s: string): string {
    var t := TrimSpace(s);
    if !HasPrefix(t, FENCE) then t else TrimSpace(JoinLines(InsideFence(Lines(t))))
  }

  ghost predicate Closes(line: string) {
    OneLine(line) && IsTrimmed(line, FENCE)
  }

  /** No closing fence on the last line of `s`. */
  ghost predicate LeftOpen(s: string) {
    && !Closes(s)
    && forall above, last :: s == above + "\n" + last && OneLine(last) ==> !Closes(last)
  }

  /** `core` is what a fenced text holds below its first line and above a closing fence, if there is
      one on its last line. */
  ghost predicate FencedIn(t: string, core: string) {
    exists first :: OneLine(first) && InsideOf(t, first, core)
  }

  ghost predicate InsideOf(t: string, first: string, core: string) {
    || (t == first && core == "")
    || (t == first + "\n" + core && LeftOpen(core))
    || (exists last :: Closes(last) && ((core == "" && t == first + "\n" + last) ||
                                        t == first + "\n" + (core + "\n" + last)))
  }

  /** What is left of a section without its fence, without saying how it is found. */
  ghost predicate IsUnfenced(s: string, text: string) {
    exists t :: IsTrimmed(s, t) &&
      if HasPrefix(t, FENCE) then exists core :: FencedIn(t, core) && IsTrimmed(core, text) else text == t
  }

  lemma ClosesIffTrims(line: string)
    requires OneLine(line)
    ensures Closes(line) <==> TrimSpace(line) == FENCE
  {
    TrimIsUnique(line, FENCE);
  }

  /** Whatever way a text is fenced, dropping the fence lines gives its inside. */
  lemma InsideIsCore(t: string, first: string, core: string)
    requires OneLine(first) && InsideOf(t, first, core)
    ensures JoinLines(InsideFence(Lines(t))) == core
  {
    if t == first && core == "" {
      LinesOfOne(first);
      assert [first][1..] == [];
    } else if t == first + "\n" + core && LeftOpen(core) {
      OpenInside(t, first, core);
    } else {
      var last :| Closes(last) && ((core == "" && t == first + "\n" + last) ||
                                   t == first + "\n" + (core + "\n" + last));
      ClosedInside(t, first, core, last);
    }
  }

  lemma OpenInside(t: string, first: string, core: string)
    requires OneLine(first) && t == first + "\n" + core && LeftOpen(core)
    ensures JoinLines(InsideFence(Lines(t))) == core
  {
    LinesOfMore(first, core);
    LinesJoin(core);
    var lines := Lines(core);
    var last := lines[|lines| - 1];
    ClosesIffTrims(last);
    if |lines| == 1 {
      assert last == core;
    } else {
      JoinLast(lines);
    }
    assert ([first] + lines)[1..] == lines;
  }

  lemma ClosedInside(t: string, first: string, core: string, last: string)
    requires OneLine(first) && Closes(last)
    requires (core == "" && t == first + "\n" + last) || t == first + "\n" + (core + "\n" + last)
    ensures JoinLines(InsideFence(Lines(t))) == core
  {
    ClosesIffTrims(last);
    if core == "" && t == first + "\n" + last {
      LinesOfMore(first, last);
      LinesOfOne(last);
      assert ([first] + [last])[1..] == [last] && [last][..0] == [];
    } else {
      LinesOfMore(first, core + "\n" + last);
      LinesOfLast(core, last);
      LinesJoin(core);
      var inner := Lines(core) + [last];
      assert ([first] + inner)[1..] == inner && inner[..|inner| - 1] == Lines(core);
    }
  }

  lemma InsideExists(t: string) returns (first: string, core: string)
    ensures OneLine(first) && InsideOf(t, first, core)
  {
    FirstLineSplits(t);
    var i := Index(t, "\n");
    if i < 0 {
      first, core := t, "";
    } else {
      first := t[..i];
      core := InsideOfRest(t, first, t[i + 1..]);
    }
  }

  lemma InsideOfRest(t: string, first: string, rest: string) returns (core: string)
    requires t == first + "\n" + rest
    ensures InsideOf(t, first, core)
  {
    if LeftOpen(rest) {
      core := rest;
    } else if Closes(rest) {
      core := "";
    } else {
      var above, last :| rest == above + "\n" + last && OneLine(last) && Closes(last);
      core := above;
    }
  }

  /** There is one text without its fence, for every section, and StripFences finds it. */
  lemma UnfencedIsUnique(s: string, text: string)
    ensures IsUnfenced(s, text) <==> text == Unfenced(s)
  {
    var t := TrimSpace(s);
    TrimIsUnique(s, t);
    if HasPrefix(t, FENCE) {
      var first, core := InsideExists(t);
      InsideIsCore(t, first, core);
      TrimIsUnique(core, Unfenced(s));
      assert FencedIn(t, core);
    }
    if IsUnfenced(s, text) {
      OnlyOneUnfenced(s, text);
    }
  }

  lemma OnlyOneUnfenced(s: string, text: string)
    requires IsUnfenced(s, text)
    ensures text == Unfenced(s)
  {
    var t :| IsTrimmed(s, t) && if HasPrefix(t, FENCE) then exists core :: FencedIn(t, core) && IsTrimmed(core, text)
        else text == t;
    TrimIsUnique(s, t);
    if HasPrefix(t, FENCE) {
      var core :| FencedIn(t, core) && IsTrimmed(core, text);
      var first :| OneLine(first) && InsideOf(t, first, core);
      InsideIsCore(t, first, core);
      TrimIsUnique(core, text);
    }
  }

  method StripFences(s: string) returns (r: string)
    ensures IsUnfenced(s, r)
  {
    UnfencedIsUnique(s, Unfenced(s));
    var t := TrimSpace(s);
    if !HasPrefix(t, FENCE) {
      return t;
    }
    var lines := Lines(t);
    lines := lines[1..];
    if |lines| > 0 && TrimSpace(lines[|lines| - 1]) == FENCE {
      lines := lines[..|lines| - 1];
    }
    r := TrimSpace(JoinLines(lines));
  }

  /** The specification of ParseForm. */
  function FormOf(body: string): Parsed {
    var csr := FindBlock(body, BEGIN_CSR, END_CSR);
    if csr.None? then NoCsr
    else
      var repo := TrimSpace(Unfenced(SectionText(body, REPO_MARKER)));
      if repo == "" then MissingRepo
      else if !IsSlug(repo) then BadSlug(repo)
      else Ok(Form(csr.value, repo))
  }

  /** What stands in the repo field: the section under its heading, without its fence, trimmed. */
  ghost predicate IsRepoField(body: string, repo: string) {
    exists section, text ::
      IsSection(body, "### App repository (owner/name)", section) && IsUnfenced(section, text) && IsTrimmed(text, repo)
  }

  lemma RepoFieldIff(body: string)
    ensures forall repo :: IsRepoField(body, repo) <==> repo == TrimSpace(Unfenced(SectionText(body, REPO_MARKER)))
  {
    var section := SectionText(body, REPO_MARKER);
    var text := Unfenced(section);
    SectionIsUnique(body, REPO_MARKER, section);
    UnfencedIsUnique(section, text);
    forall repo
      ensures IsRepoField(body, repo) <==> repo == TrimSpace(text)
    {
      TrimIsUnique(text, repo);
      if IsRepoField(body, repo) {
        var section', text' :| IsSection(body, REPO_MARKER, section') && IsUnfenced(section', text') &&
            IsTrimmed(text', repo);
        SectionIsUnique(body, REPO_MARKER, section');
        UnfencedIsUnique(section', text');
      }
    }
  }

  /** Each result of the form exactly when it is due: the block is looked for first, and the repo field
      must be filled in, and with a slug. */
  lemma FormIff(body: string)
    ensures var r := FormOf(body);
            && (r == NoCsr <==>
                  forall csr :: !IsBlock(body, "-----BEGIN CERTIFICATE REQUEST-----",
                                         "-----END CERTIFICATE REQUEST-----", csr))
            && (r == MissingRepo <==> r != NoCsr && IsRepoField(body, ""))
            && (forall repo :: r == BadSlug(repo) <==>
                  r != NoCsr && IsRepoField(body, repo) && repo != "" && !IsSlug(repo))
            && (forall csr, repo :: r == Ok(Form(csr, repo)) <==>
                  && IsBlock(body, "-----BEGIN CERTIFICATE REQUEST-----", "-----END CERTIFICATE REQUEST-----", csr)
                  && IsRepoField(body, repo) && IsSlug(repo))
  {
    BlockIff(body, BEGIN_CSR, END_CSR);
    RepoFieldIff(body);
  }

  method ParseForm(body: string) returns (r: Parsed)
    ensures r == FormOf(body)
  {
    var csr := FindBlock(body, BEGIN_CSR, END_CSR);
    if csr.None? {
      return NoCsr;
    }
    var section := SectionBody(body, REPO_MARKER);
    SectionIsUnique(body, REPO_MARKER, section);
    var repo := StripFences(section);
    UnfencedIsUnique(section, repo);
    repo := TrimSpace(repo);
    if repo == "" {
      return MissingRepo;
    }
    if !IsSlug(repo) {
      return BadSlug(repo);
    }
    return Ok(Form(csr.value, repo));
  }

  // ---- ownerOf ----

  function IndexOfSlash(s: string): (i: int)
    ensures -1 <= i < |s|
    ensures i >= 0 ==> s[i] == '/' && forall k :: 0 <= k < i ==> s[k] != '/'
    ensures i < 0 ==> forall k :: 0 <= k < |s| ==> s[k] != '/'
  {
    if s == "" then -1
    else if s[0] == '/' then 0
    else
      var i := IndexOfSlash(s[1..]);
      if i < 0 then -1 else i + 1
  }

  /** Slicing at -1 would panic. */
  function OwnerOf(repo: string): string
    requires IndexOfSlash(repo) >= 0
  {
    repo[..IndexOfSlash(repo)]
  }

  predicate NoSlash(s: string) {
    forall i :: 0 <= i < |s| ==> s[i] != '/'
  }

  /** ownerOf cannot panic on a parsed form, and splits the slug at its only slash. */
  lemma OwnerSplitsParsedSlug(body: string)
    requires FormOf(body).Ok?
    ensures var repo := FormOf(body).form.repo;
            && IndexOfSlash(repo) >= 0
            && OwnerOf(repo) != "" && NoSlash(OwnerOf(repo))
            && var name := repo[|OwnerOf(repo)| + 1..];
               name != "" && NoSlash(name) && repo == OwnerOf(repo) + "/" + name
  {
    OwnerSplitsSlug(FormOf(body).form.repo);
  }

  lemma OwnerSplitsSlug(repo: string)
    requires IsSlug(repo)
    ensures IndexOfSlash(repo) >= 0 && |OwnerOf(repo)| < |repo|
    ensures OwnerOf(repo) != "" && NoSlash(OwnerOf(repo))
    ensures var name := repo[|OwnerOf(repo)| + 1..];
            name != "" && NoSlash(name) && repo == OwnerOf(repo) + "/" + name
  {
    var i :| 0 <= i < |repo| && SlashAt(repo, i);
    assert IndexOfSlash(repo) == i;
    assert repo == repo[..i] + [repo[i]] + repo[i + 1..];
  }

  // ---- the rendered form ----

  predicate Lacks(s: string, c: char) {
    forall i :: 0 <= i < |s| ==> s[i] != c
  }

  /** How GitHub renders a field: bare, or in a fence with a language. */
  datatype Fencing = Bare | Fenced(lang: string) {
    predicate Valid() {
      Fenced? ==> forall i :: 0 <= i < |lang| ==> 'a' <= lang[i] <= 'z'
    }

    function Wrap(s: string): string {
      match this
      case Bare => s
      case Fenced(lang) => FENCE + lang + "\n" + s + "\n" + FENCE
    }
  }

  const CSR_HEADING := "### Certificate Signing Request (PEM)\n\n"

  /** A PEM block: nothing between the two lines closes it early, and no number sign. */
  predicate IsPem(inner: string) {
    && (forall i :: 0 <= i < |inner| ==> inner[i] != '#')
    && (forall i :: 0 <= i < |inner| ==> !At(inner + END_CSR, END_CSR, i))
  }

  function PemBlock(inner: string): string {
    BEGIN_CSR + inner + END_CSR
  }

  /** One line of text that trimming leaves alone, a slug or any text without a number sign. */
  predicate PlainText(s: string) {
    Solid(s) && OneLine(s) && (IsSlug(s) || Lacks(s, '#'))
  }

  function CsrField(inner: string, f: Fencing): string {
    CSR_HEADING + f.Wrap(PemBlock(inner)) + "\n\n"
  }

  function RepoField(slug: string, f: Fencing, tail: string): string {
    "\n\n" + f.Wrap(slug) + tail
  }

  /** The issue body of a filled-in certificate request; only white space may follow. */
  function Rendered(inner: string, slug: string, csrFence: Fencing, repoFence: Fencing, tail: string): string {
    CsrField(inner, csrFence) + (REPO_MARKER + RepoField(slug, repoFence, tail))
  }

  // ---- finding the block ----

  lemma AtPrefix(a: string, b: string, sub: string, k: int)
    requires 0 <= k && k + |sub| <= |a|
    ensures At(a + b, sub, k) <==> At(a, sub, k)
  {
    assert (a + b)[k..k + |sub|] == a[k..k + |sub|];
  }

  /** A block is found whole after text that does not hold its first character. */
  lemma BlockFound(before: string, opening: string, inner: string, closing: string, after: string)
    requires opening != "" && forall i :: 0 <= i < |before| ==> before[i] != opening[0]
    requires forall i :: 0 <= i < |inner| ==> !At(inner + closing, closing, i)
    ensures FindBlock(before + (opening + inner + closing) + after, opening, closing) == Some(opening + inner + closing)
  {
    var body := before + (opening + inner + closing) + after;
    var rest := inner + closing + after;
    assert body == before + opening + rest;
    forall k | 0 <= k < |before|
      ensures !At(body, opening, k)
    {
      AtChar(body, opening, k, 0);
      assert body[k] == before[k];
    }
    assert At(body, opening, |before|);
    IndexIs(body, opening, |before|);
    assert body[|before| + |opening|..] == rest;
    forall k | 0 <= k < |inner|
      ensures !At(rest, closing, k)
    {
      AtPrefix(inner + closing, after, closing, k);
    }
    assert At(rest, closing, |inner|);
    IndexIs(rest, closing, |inner|);
    assert body[|before|..|before| + |opening| + |inner| + |closing|] == opening + inner + closing;
  }

  lemma LacksConcat(a: string, b: string, c: char)
    requires Lacks(a, c) && Lacks(b, c)
    ensures Lacks(a + b, c)
  {}

  /** What stands around the text in a wrapped field. */
  function Opening(f: Fencing): string {
    if f.Bare? then "" else FENCE + f.lang + "\n"
  }

  function Closing(f: Fencing): string {
    if f.Bare? then "" else "\n" + FENCE
  }

  lemma WrapParts(f: Fencing, s: string)
    ensures f.Wrap(s) == Opening(f) + s + Closing(f)
  {
    if f.Bare? {
      assert "" + s + "" == s;
    } else {
      assert FENCE + f.lang + "\n" + s + "\n" + FENCE == (FENCE + f.lang + "\n") + s + ("\n" + FENCE);
    }
  }

  lemma OpeningLacks(f: Fencing, c: char)
    requires f.Valid() && (c == '#' || c == '-' || c == ' ')
    ensures Lacks(Opening(f), c) && Lacks(Closing(f), c)
  {
    if f.Fenced? {
      LacksConcat(FENCE, f.lang, c);
    }
  }

  lemma HeadingLacksDash()
    ensures Lacks(CSR_HEADING, '-')
  {}

  lemma CsrFound(inner: string, f: Fencing, rest: string)
    requires f.Valid() && IsPem(inner)
    ensures FindBlock(CsrField(inner, f) + rest, BEGIN_CSR, END_CSR) == Some(PemBlock(inner))
  {
    var before := CSR_HEADING + Opening(f);
    var after := Closing(f) + "\n\n" + rest;
    HeadingLacksDash();
    OpeningLacks(f, '-');
    LacksConcat(CSR_HEADING, Opening(f), '-');
    WrapParts(f, PemBlock(inner));
    Regroup(CSR_HEADING, Opening(f), PemBlock(inner), Closing(f), "\n\n", rest);
    BlockFound(before, BEGIN_CSR, inner, END_CSR, after);
  }

  lemma Regroup(a: string, b: string, c: string, d: string, e: string, f: string)
    ensures a + (b + c + d) + e + f == (a + b) + c + (d + e + f)
  {}

  // ---- finding the section ----

  lemma BlockLacksHash(inner: string)
    requires IsPem(inner)
    ensures Lacks(PemBlock(inner), '#')
  {
    LacksConcat(BEGIN_CSR, inner, '#');
    LacksConcat(BEGIN_CSR + inner, END_CSR, '#');
  }

  /** After the heading's own, the CSR field holds no number sign. */
  lemma CsrFieldHashes(inner: string, f: Fencing)
    requires f.Valid() && IsPem(inner)
    ensures exists more :: CsrField(inner, f) == CSR_HEADING + more && Lacks(more, '#')
  {
    BlockLacksHash(inner);
    OpeningLacks(f, '#');
    WrapParts(f, PemBlock(inner));
    LacksConcat(Opening(f), PemBlock(inner), '#');
    LacksConcat(Opening(f) + PemBlock(inner), Closing(f), '#');
    LacksConcat(f.Wrap(PemBlock(inner)), "\n\n", '#');
    assert CsrField(inner, f) == CSR_HEADING + (f.Wrap(PemBlock(inner)) + "\n\n");
  }

  lemma HeadingHashes(more: string, k: nat)
    requires Lacks(more, '#') && k < |CSR_HEADING + more| && (CSR_HEADING + more)[k] == '#'
    ensures k < 3
  {}

  lemma MarkerFirstInRepoField(inner: string, f: Fencing, rest: string)
    requires f.Valid() && IsPem(inner)
    ensures Index(CsrField(inner, f) + (REPO_MARKER + rest), REPO_MARKER) == |CsrField(inner, f)|
  {
    CsrFieldHashes(inner, f);
    var more :| CsrField(inner, f) == CSR_HEADING + more && Lacks(more, '#');
    MarkerAfterHeading(CsrField(inner, f), more, rest);
  }

  lemma MarkerAfterHeading(field: string, more: string, rest: string)
    requires field == CSR_HEADING + more && Lacks(more, '#')
    ensures Index(field + (REPO_MARKER + rest), REPO_MARKER) == |field|
  {
    var body := field + (REPO_MARKER + rest);
    forall k | 0 <= k < |field|
      ensures !At(body, REPO_MARKER, k)
    {
      AtChar(body, REPO_MARKER, k, 0);
      assert body[k] == field[k];
      if field[k] == '#' {
        HeadingHashes(more, k);
        assert body == CSR_HEADING + (more + (REPO_MARKER + rest));
        OtherHeading(body, more + (REPO_MARKER + rest), k);
      }
    }
    assert body[|field|..|field| + |REPO_MARKER|] == REPO_MARKER;
    IndexIs(body, REPO_MARKER, |field|);
  }

  /** The CSR heading is not the other one, from any of its first characters on. */
  lemma OtherHeading(body: string, rest: string, k: nat)
    requires body == CSR_HEADING + rest && k < 3
    ensures !At(body, REPO_MARKER, k)
  {
    AtChar(body, REPO_MARKER, k, 3 - k);
    AtChar(body, REPO_MARKER, k, 4 - k);
    assert body[3] == CSR_HEADING[3] == ' ' && body[4] == CSR_HEADING[4] == 'C';
  }

  /** No heading follows the slug. */
  lemma NoHeadingAfter(slug: string, f: Fencing, tail: string)
    requires f.Valid() && PlainText(slug) && AllSpace(tail)
    ensures Index(RepoField(slug, f, tail), NEXT_HEADING) < 0
  {
    var rest := RepoField(slug, f, tail);
    var lead := "\n\n" + Opening(f);
    var trail := Closing(f) + tail;
    WrapParts(f, slug);
    assert rest == lead + slug + trail;
    OpeningLacks(f, '#');
    LacksConcat("\n\n", Opening(f), '#');
    LacksConcat(Closing(f), tail, '#');
    forall k | 0 <= k
      ensures !At(rest, NEXT_HEADING, k)
    {
      NoHeadingAt(lead, slug, trail, k);
    }
    NowhereIn(rest, NEXT_HEADING);
  }

  lemma NoHeadingAt(lead: string, text: string, trail: string, k: nat)
    requires Lacks(lead, '#') && Lacks(trail, '#') && (IsSlug(text) || Lacks(text, '#'))
    ensures !At(lead + text + trail, NEXT_HEADING, k)
  {
    if Lacks(text, '#') {
      LacksConcat(lead, text, '#');
      LacksConcat(lead + text, trail, '#');
      AtChar(lead + text + trail, NEXT_HEADING, k, 1);
    } else {
      NoHeadingInSlug(lead, text, trail, k);
    }
  }

  lemma NoHeadingInSlug(lead: string, slug: string, trail: string, k: nat)
    requires Lacks(lead, '#') && Lacks(trail, '#') && IsSlug(slug)
    ensures !At(lead + slug + trail, NEXT_HEADING, k)
  {
    var rest := lead + slug + trail;
    var i :| 0 <= i < |slug| && SlashAt(slug, i);
    AtChar(rest, NEXT_HEADING, k, 0);
    AtChar(rest, NEXT_HEADING, k, 1);
    AtChar(rest, NEXT_HEADING, k, 2);
    AtChar(rest, NEXT_HEADING, k, 3);
    AtChar(rest, NEXT_HEADING, k, 4);
  }

  // ---- the slug ----

  lemma FencedSlugFound(slug: string, lang: string, tail: string)
    requires Fenced(lang).Valid() && PlainText(slug) && AllSpace(tail)
    ensures Unfenced(RepoField(slug, Fenced(lang), tail)) == slug
  {
    var first := FENCE + lang;
    FencedField(slug, lang, tail);
    UnfencedBlock(first, slug, "\n\n", tail);
  }

  lemma FencedField(slug: string, lang: string, tail: string)
    ensures RepoField(slug, Fenced(lang), tail) == "\n\n" + FencedBlock(FENCE + lang, slug) + tail
  {
    assert FENCE + lang + "\n" + slug + "\n" + FENCE == FencedBlock(FENCE + lang, slug);
  }

  function FencedBlock(first: string, slug: string): string {
    first + "\n" + (slug + "\n" + FENCE)
  }

  lemma FencedBlockEnds(first: string, slug: string)
    requires HasPrefix(first, FENCE)
    ensures Solid(FencedBlock(first, slug)) && HasPrefix(FencedBlock(first, slug), FENCE)
  {
    var block := FencedBlock(first, slug);
    assert block[0..3] == first[0..3];
    assert block[0] == block[0..3][0] == '`';
    assert block[|block| - 1] == '`';
  }

  lemma FencedBlockLines(first: string, slug: string)
    requires OneLine(first) && OneLine(slug)
    ensures Lines(FencedBlock(first, slug)) == [first, slug, FENCE]
  {
    LinesOfMore(first, slug + "\n" + FENCE);
    LinesOfMore(slug, FENCE);
    LinesOfOne(FENCE);
    assert [first] + ([slug] + [FENCE]) == [first, slug, FENCE];
  }

  lemma UnfencedBlock(first: string, slug: string, left: string, right: string)
    requires HasPrefix(first, FENCE) && OneLine(first) && PlainText(slug) && AllSpace(left) && AllSpace(right)
    ensures Unfenced(left + FencedBlock(first, slug) + right) == slug
  {
    FencedBlockEnds(first, slug);
    TrimSolid(left, FencedBlock(first, slug), right);
    FencedBlockLines(first, slug);
    InsideThree(first, slug);
    TrimSelf(slug);
  }

  lemma InsideThree(first: string, slug: string)
    ensures InsideFence([first, slug, FENCE]) == [slug] && JoinLines([slug]) == slug
  {
    TrimSelf(FENCE);
    assert [first, slug, FENCE][1..] == [slug, FENCE];
    assert [slug, FENCE][..1] == [slug];
  }

  lemma TrimSelf(s: string)
    requires Solid(s)
    ensures TrimSpace(s) == s
  {
    TrimSolid("", s, "");
    assert "" + s + "" == s;
  }

  lemma BareSlugFound(slug: string, tail: string)
    requires PlainText(slug) && AllSpace(tail)
    ensures Unfenced(RepoField(slug, Bare, tail)) == if HasPrefix(slug, FENCE) then "" else slug
  {
    TrimSolid("\n\n", slug, tail);
    if HasPrefix(slug, FENCE) {
      LinesOfOne(slug);
      assert [slug][1..] == [];
      assert InsideFence([slug]) == [];
    }
  }

  lemma SectionFound(inner: string, csrFence: Fencing, rest: string)
    requires csrFence.Valid() && IsPem(inner) && Index(rest, NEXT_HEADING) < 0
    ensures SectionText(CsrField(inner, csrFence) + (REPO_MARKER + rest), REPO_MARKER) == rest
  {
    MarkerFirstInRepoField(inner, csrFence, rest);
    SectionAfter(CsrField(inner, csrFence), REPO_MARKER, rest);
  }

  lemma SectionAfter(before: string, marker: string, rest: string)
    requires Index(before + (marker + rest), marker) == |before| && Index(rest, NEXT_HEADING) < 0
    ensures SectionText(before + (marker + rest), marker) == rest
  {
    assert (before + (marker + rest))[|before| + |marker|..] == rest;
  }

  /** A rendered certificate request parses to exactly the block and the slug that were filled in,
      fenced or not, and anything else on the line is reported back as it stands. Only a bare text
      that itself starts with a fence is taken for one and reported missing. */
  lemma FormRoundTrip(inner: string, text: string, csrFence: Fencing, repoFence: Fencing, tail: string)
    requires csrFence.Valid() && repoFence.Valid() && IsPem(inner) && PlainText(text) && AllSpace(tail)
    ensures FormOf(Rendered(inner, text, csrFence, repoFence, tail)) ==
            if repoFence.Bare? && HasPrefix(text, FENCE) then MissingRepo
            else if IsSlug(text) then Ok(Form(PemBlock(inner), text))
            else BadSlug(text)
  {
    var rest := RepoField(text, repoFence, tail);
    NoHeadingAfter(text, repoFence, tail);
    CsrFound(inner, csrFence, REPO_MARKER + rest);
    SectionFound(inner, csrFence, rest);
    match repoFence {
      case Bare => BareSlugFound(text, tail);
      case Fenced(lang) => FencedSlugFound(text, lang, tail);
    }
    TrimSelf(text);
    ParsedFrom(CsrField(inner, csrFence) + (REPO_MARKER + rest), inner, text, rest);
  }

  lemma ParsedFrom(body: string, inner: string, text: string, rest: string)
    requires FindBlock(body, BEGIN_CSR, END_CSR) == Some(PemBlock(inner))
    requires SectionText(body, REPO_MARKER) == rest
    requires text != "" && TrimSpace(text) == text
    requires Unfenced(rest) == text || Unfenced(rest) == ""
    ensures FormOf(body) ==
            if Unfenced(rest) != text then MissingRepo
            else if IsSlug(text) then Ok(Form(PemBlock(inner), text))
            else BadSlug(text)
  {
    assert TrimSpace("") == "";
  }

  /** A slug needs no other condition than not to begin or end with an odd space. */
}
