/** The few functions of Go's strings package that the parsers use. */
module Strings {

  /** unicode.IsSpace */
  predicate IsSpace(c: char) {
    '\t' <= c <= '\r' || c == ' ' || c == '\U{85}' || c == '\U{A0}' || c == '\U{1680}' || '\U{2000}' <= c <= '\U{200A}'
    || c == '\U{2028}' || c == '\U{2029}' || c == '\U{202F}' || c == '\U{205F}' || c == '\U{3000}'
  }

  predicate AllSpace(s: string) {
    forall i :: 0 <= i < |s| ==> IsSpace(s[i])
  }

  /** Neither end is a space; in particular not empty. */
  predicate Solid(s: string) {
    s != "" && !IsSpace(s[0]) && !IsSpace(s[|s| - 1])
  }

  function TrimLeft(s: string): string {
    if s == "" || !IsSpace(s[0]) then s else TrimLeft(s[1..])
  }

  function TrimRight(s: string): string {
    if s == "" || !IsSpace(s[|s| - 1]) then s else TrimRight(s[..|s| - 1])
  }

  /** strings.TrimSpace */
  function TrimSpace(s: string): string {
    TrimRight(TrimLeft(s))
  }

  lemma {:induction false} TrimLeftParts(pad: string, s: string)
    requires AllSpace(pad) && s != "" && !IsSpace(s[0])
    ensures TrimLeft(pad + s) == s
  {
    if pad == "" {
      assert pad + s == s;
    } else {
      assert (pad + s)[1..] == pad[1..] + s;
      TrimLeftParts(pad[1..], s);
    }
  }

  lemma {:induction false} TrimRightParts(s: string, pad: string)
    requires AllSpace(pad) && s != "" && !IsSpace(s[|s| - 1])
    ensures TrimRight(s + pad) == s
  {
    if pad == "" {
      assert s + pad == s;
    } else {
      assert (s + pad)[..|s + pad| - 1] == s + pad[..|pad| - 1];
      TrimRightParts(s, pad[..|pad| - 1]);
    }
  }

  /** Trimming takes away the padding and nothing else. */
  lemma TrimSolid(left: string, s: string, right: string)
    requires AllSpace(left) && Solid(s) && AllSpace(right)
    ensures TrimSpace(left + s + right) == s
  {
    assert left + s + right == left + (s + right);
    TrimLeftParts(left, s + right);
    TrimRightParts(s, right);
  }

  lemma PrependTo(s: string, a: string, b: string)
    requires s != "" && s[1..] == a + b
    ensures s == [s[0]] + a + b
  {
    assert s == [s[0]] + s[1..];
  }

  lemma {:induction false} TrimLeftWorks(s: string) returns (pad: string)
    ensures AllSpace(pad) && s == pad + TrimLeft(s)
    ensures TrimLeft(s) != "" ==> !IsSpace(TrimLeft(s)[0])
  {
    if s == "" || !IsSpace(s[0]) {
      pad := "";
    } else {
      var rest := TrimLeftWorks(s[1..]);
      pad := [s[0]] + rest;
      PrependTo(s, rest, TrimLeft(s[1..]));
    }
  }

  lemma {:induction false} TrimRightWorks(s: string) returns (pad: string)
    ensures AllSpace(pad) && s == TrimRight(s) + pad
    ensures TrimRight(s) != "" ==> !IsSpace(TrimRight(s)[|TrimRight(s)| - 1])
  {
    if s == "" || !IsSpace(s[|s| - 1]) {
      pad := "";
    } else {
      var rest := TrimRightWorks(s[..|s| - 1]);
      pad := rest + [s[|s| - 1]];
      assert s == s[..|s| - 1] + [s[|s| - 1]];
    }
  }

  /** A trimmed string is the original without padding: empty when there was nothing else. */
  lemma TrimSpaceWorks(s: string) returns (left: string, right: string)
    ensures AllSpace(left) && AllSpace(right) && s == left + TrimSpace(s) + right
    ensures TrimSpace(s) == "" || Solid(TrimSpace(s))
  {
    left := TrimLeftWorks(s);
    right := TrimRightWorks(TrimLeft(s));
    if TrimSpace(s) != "" {
      assert TrimLeft(s)[0] == TrimSpace(s)[0];
    }
  }

  /** `t` is `s` without the spaces around it. */
  ghost predicate IsTrimmed(s: string, t: string) {
    (t == "" || Solid(t)) && exists left, right :: AllSpace(left) && AllSpace(right) && s == left + t + right
  }

  lemma {:induction false} TrimLeftAllSpace(s: string)
    requires AllSpace(s)
    ensures TrimLeft(s) == ""
  {
    if s != "" {
      TrimLeftAllSpace(s[1..]);
    }
  }

  /** There is one way to trim, and TrimSpace finds it. */
  lemma TrimIsUnique(s: string, t: string)
    ensures IsTrimmed(s, t) <==> t == TrimSpace(s)
  {
    if t == TrimSpace(s) {
      var left, right := TrimSpaceWorks(s);
    }
    if IsTrimmed(s, t) {
      var left, right :| AllSpace(left) && AllSpace(right) && s == left + t + right;
      if t == "" {
        assert AllSpace(s);
        TrimLeftAllSpace(s);
      } else {
        TrimSolid(left, t, right);
      }
    }
  }

  /** `sub` stands at position `k` of `s`. */
  predicate At(s: string, sub: string, k: int) {
    0 <= k && k + |sub| <= |s| && s[k..k + |sub|] == sub
  }

  lemma AtChar(s: string, sub: string, k: int, i: nat)
    requires i < |sub|
    ensures At(s, sub, k) ==> s[k + i] == sub[i]
  {
    if At(s, sub, k) {
      assert s[k + i] == s[k..k + |sub|][i];
    }
  }

  function IndexFrom(s: string, sub: string, k: nat): (i: int)
    requires k <= |s|
    ensures i == -1 || (k <= i && i + |sub| <= |s|)
    decreases |s| - k
  {
    if k + |sub| > |s| then -1
    else if At(s, sub, k) then k
    else if k == |s| then -1
    else IndexFrom(s, sub, k + 1)
  }

  /** strings.Index */
  function Index(s: string, sub: string): (i: int)
    ensures i == -1 || (0 <= i && i + |sub| <= |s|)
  {
    IndexFrom(s, sub, 0)
  }

  lemma {:induction false} IndexFromWorks(s: string, sub: string, k: nat)
    requires k <= |s|
    ensures var i := IndexFrom(s, sub, k);
            && (i >= 0 ==> At(s, sub, i) && forall j :: k <= j < i ==> !At(s, sub, j))
            && (i < 0 ==> forall j :: k <= j ==> !At(s, sub, j))
    decreases |s| - k
  {
    if k + |sub| <= |s| && !At(s, sub, k) && k < |s| {
      IndexFromWorks(s, sub, k + 1);
    }
  }

  /** The first occurrence, or -1 when there is none. */
  lemma IndexIsFirst(s: string, sub: string)
    ensures var i := Index(s, sub);
            && (i >= 0 ==> At(s, sub, i) && forall j :: 0 <= j < i ==> !At(s, sub, j))
            && (i < 0 ==> forall j :: !At(s, sub, j))
  {
    IndexFromWorks(s, sub, 0);
  }

  lemma IndexIs(s: string, sub: string, i: int)
    requires At(s, sub, i) && forall j :: 0 <= j < i ==> !At(s, sub, j)
    ensures Index(s, sub) == i
  {
    IndexIsFirst(s, sub);
  }

  lemma NowhereIn(s: string, sub: string)
    requires forall j :: 0 <= j ==> !At(s, sub, j)
    ensures Index(s, sub) == -1
  {
    IndexIsFirst(s, sub);
  }

  predicate HasPrefix(s: string, prefix: string) {
    At(s, prefix, 0)
  }

  /** strings.Split(s, "\n") */
  function Lines(s: string): (r: seq<string>)
    ensures |r| > 0
    decreases |s|
  {
    var i := Index(s, "\n");
    if i < 0 then [s] else [s[..i]] + Lines(s[i + 1..])
  }

  /** strings.Join(lines, "\n") */
  function JoinLines(lines: seq<string>): string {
    if lines == [] then ""
    else if |lines| == 1 then lines[0]
    else lines[0] + "\n" + JoinLines(lines[1..])
  }

  predicate OneLine(s: string) {
    forall i :: 0 <= i < |s| ==> s[i] != '\n'
  }

  lemma LinesOfOne(s: string)
    requires OneLine(s)
    ensures Lines(s) == [s]
  {
    IndexIsFirst(s, "\n");
    AtChar(s, "\n", Index(s, "\n"), 0);
  }

  lemma LinesOfMore(line: string, rest: string)
    requires OneLine(line)
    ensures Lines(line + "\n" + rest) == [line] + Lines(rest)
  {
    var s := line + "\n" + rest;
    assert At(s, "\n", |line|);
    forall j | 0 <= j < |line|
      ensures !At(s, "\n", j)
    {
      assert s[j] == line[j];
      AtChar(s, "\n", j, 0);
    }
    IndexIs(s, "\n", |line|);
    assert s[..|line|] == line && s[|line| + 1..] == rest;
  }

  lemma FirstLineSplits(s: string)
    ensures var i := Index(s, "\n");
            if i < 0 then OneLine(s) else OneLine(s[..i]) && s == s[..i] + "\n" + s[i + 1..]
  {
    IndexIsFirst(s, "\n");
    var i := Index(s, "\n");
    forall k | 0 <= k < (if i < 0 then |s| else i)
      ensures s[k] != '\n'
    {
      assert s[k..k + 1] == [s[k]];
      assert !At(s, "\n", k);
    }
    if i >= 0 {
      assert s[i..i + 1] == "\n";
      assert s == s[..i] + s[i..i + 1] + s[i + 1..];
    }
  }

  /** Splitting into lines loses nothing, and every line is one. */
  lemma {:induction false} LinesJoin(s: string)
    ensures JoinLines(Lines(s)) == s
    ensures forall i :: 0 <= i < |Lines(s)| ==> OneLine(Lines(s)[i])
    decreases |s|
  {
    FirstLineSplits(s);
    var i := Index(s, "\n");
    if i >= 0 {
      LinesJoin(s[i + 1..]);
      var rest := Lines(s[i + 1..]);
      assert ([s[..i]] + rest)[1..] == rest;
    }
  }

  lemma {:induction false} JoinLast(lines: seq<string>)
    requires |lines| >= 2
    ensures JoinLines(lines) == JoinLines(lines[..|lines| - 1]) + "\n" + lines[|lines| - 1]
  {
    var init, last := lines[..|lines| - 1], lines[|lines| - 1];
    if |lines| == 2 {
      assert lines[1..] == [last];
    } else {
      JoinLast(lines[1..]);
      assert lines[1..][..|lines[1..]| - 1] == init[1..];
      Associate(lines[0], JoinLines(init[1..]), last);
    }
  }

  lemma Associate(a: string, b: string, c: string)
    ensures a + "\n" + (b + "\n" + c) == a + "\n" + b + "\n" + c
  {}

  /** A line put at the end is the last line. */
  lemma {:induction false} LinesOfLast(s: string, last: string)
    requires OneLine(last)
    ensures Lines(s + "\n" + last) == Lines(s) + [last]
    decreases |s|
  {
    FirstLineSplits(s);
    var i := Index(s, "\n");
    if i < 0 {
      LinesOfOne(s);
      LinesOfOne(last);
      LinesOfMore(s, last);
      assert [s] + [last] == Lines(s) + [last];
    } else {
      var first, rest := s[..i], s[i + 1..];
      LinesOfLast(rest, last);
      Associate(first, rest, last);
      LinesOfMore(first, rest + "\n" + last);
      LinesOfMore(first, rest);
      assert [first] + (Lines(rest) + [last]) == ([first] + Lines(rest)) + [last];
    }
  }
}
