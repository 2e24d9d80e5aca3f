/** JSON text as encoding/json writes and reads it: the indenting encoder with HTML escaping
    off, and the decoder, which stops at the end of the first value. Strings follow section 7
    of RFC 8259. */
module Json {
  import opened Wrappers
  import opened Digits

  /** Numbers keep their literal. */
  datatype Value =
    | Null
    | Bool(b: bool)
    | Number(literal: string)
    | Str(s: string)
    | Arr(items: seq<Value>)
    | Obj(fields: seq<Member>)

  datatype Member = Member(name: string, value: Value)

  // ---- writing ----

  function HexEscape(c: nat): string
    requires c < 0x10000
  {
    "\\u" + [DigitChar(c / 16 / 16 / 16), DigitChar(c / 16 / 16 % 16), DigitChar(c / 16 % 16), DigitChar(c % 16)]
  }

  function EscapeChar(c: char): string {
    if c == '\"' then "\\\""
    else if c == '\\' then "\\\\"
    else if c == '\U{08}' then "\\b"
    else if c == '\U{0C}' then "\\f"
    else if c == '\n' then "\\n"
    else if c == '\r' then "\\r"
    else if c == '\t' then "\\t"
    else if c < ' ' || c == '\U{2028}' || c == '\U{2029}' then HexEscape(c as int)
    else [c]
  }

  function Escape(s: string): string {
    if s == "" then "" else EscapeChar(s[0]) + Escape(s[1..])
  }

  function Quote(s: string): string {
    "\"" + Escape(s) + "\""
  }

  function Spaces(n: nat): string {
    if n == 0 then "" else [' '] + Spaces(n - 1)
  }

  /** A line break indented to depth `d`, two spaces a level. */
  function Newline(d: nat): string {
    "\n" + Spaces(2 * d)
  }

  function Write(v: Value, d: nat): string
    decreases v, 1
  {
    match v
    case Null => "null"
    case Bool(b) => if b then "true" else "false"
    case Number(literal) => literal
    case Str(s) => Quote(s)
    case Arr(items) =>
      if items == [] then "[]"
      else "[" + Newline(d + 1) + (WriteItems(items, d + 1) + (Newline(d) + "]"))
    case Obj(fields) =>
      if fields == [] then "{}"
      else "{" + Newline(d + 1) + (WriteFields(fields, d + 1) + (Newline(d) + "}"))
  }

  function WriteItems(items: seq<Value>, d: nat): string
    requires items != []
    decreases items, 0
  {
    Write(items[0], d) + if |items| == 1 then "" else "," + Newline(d) + WriteItems(items[1..], d)
  }

  function WriteFields(fields: seq<Member>, d: nat): string
    requires fields != []
    decreases fields, 0
  {
    var m := fields[0];
    Quote(m.name) + (": " + (Write(m.value, d) +
    if |fields| == 1 then "" else "," + Newline(d) + WriteFields(fields[1..], d)))
  }

  // ---- what the text looks like ----

  /** The characters that section 7 of RFC 8259 has escaped, and the two separators of JavaScript. */
  predicate MustEscape(c: char) {
    c as int < 0x20 || c as int == 0x22 || c as int == 0x5C || c as int == 0x2028 || c as int == 0x2029
  }

  /** Nothing else is escaped: "/", "<", ">" and "&" stand as they are. */
  lemma EscapedIffNeeded(c: char)
    ensures EscapeChar(c) == [c] <==> !MustEscape(c)
    ensures MustEscape(c) ==> |EscapeChar(c)| >= 2 && EscapeChar(c)[0] as int == 0x5C
  {}

  /** The short escapes, and one of each kind of the long ones. */
  lemma EscapeTexts()
    ensures EscapeChar('\"') == "\\\"" && EscapeChar('\\') == "\\\\"
    ensures EscapeChar(8 as char) == "\\b" && EscapeChar(9 as char) == "\\t" && EscapeChar(10 as char) == "\\n"
    ensures EscapeChar(12 as char) == "\\f" && EscapeChar(13 as char) == "\\r"
    ensures EscapeChar(0x1F as char) == "\\u001f" && EscapeChar(0x2028 as char) == "\\u2028"
  {}

  lemma {:induction false} PlainTextStands(s: string)
    requires forall i :: 0 <= i < |s| ==> !MustEscape(s[i])
    ensures Escape(s) == s
  {
    if s != "" {
      EscapedIffNeeded(s[0]);
      PlainTextStands(s[1..]);
      assert s == [s[0]] + s[1..];
    }
  }

  /** A line break, and `n` spaces, and no more. */
  predicate BreaksTo(text: string, k: int, n: nat) {
    && 0 <= k && k + 1 + n < |text| && text[k] == '\n'
    && (forall j :: k < j <= k + n ==> text[j] == ' ') && text[k + 1 + n] != ' '
  }

  lemma {:induction false} SpacesAre(n: nat)
    ensures |Spaces(n)| == n && forall j :: 0 <= j < n ==> Spaces(n)[j] == ' '
  {
    if n > 0 {
      SpacesAre(n - 1);
    }
  }

  lemma BreakIn(before: string, d: nat, after: string)
    requires after != "" && after[0] != ' '
    ensures BreaksTo(before + (Newline(d) + after), |before|, 2 * d)
  {
    SpacesAre(2 * d);
  }

  lemma Bracketed(open: string, inside: string, close: string, d: nat, text: string)
    requires |open| == |close| == 1 && close != " " && inside != "" && inside[0] != ' '
    requires text == open + Newline(d + 1) + (inside + (Newline(d) + close))
    ensures var last := |text| - 2 - 2 * d;
            && last > 1 && BreaksTo(text, 1, 2 * d + 2) && BreaksTo(text, last, 2 * d)
            && text[0] == open[0] && text[|text| - 1] == close[0]
  {
    SpacesAre(2 * d);
    SpacesAre(2 * (d + 1));
    var lead := open + Newline(d + 1) + inside;
    assert text == open + (Newline(d + 1) + (inside + (Newline(d) + close)));
    BreakIn(open, d + 1, inside + (Newline(d) + close));
    assert text == lead + (Newline(d) + close);
    BreakIn(lead, d, close);
  }

  /** The first value of an array, and the first member of an object, starts a line of its own right after
      the bracket, two spaces deeper than the closing bracket, which starts a line at the depth of the
      value. */
  lemma BracketLines(v: Value, d: nat)
    requires WellFormed(v) && ((v.Arr? && v.items != []) || (v.Obj? && v.fields != []))
    ensures var text := Write(v, d);
            var last := |text| - 2 - 2 * d;
            && last > 1 && BreaksTo(text, 1, 2 * d + 2) && BreaksTo(text, last, 2 * d)
            && text[0] == (if v.Arr? then '[' else '{') && text[|text| - 1] == (if v.Arr? then ']' else '}')
  {
    match v
    case Arr(items) =>
      WriteItemsStarts(items, d + 1);
      Bracketed("[", WriteItems(items, d + 1), "]", d, Write(v, d));
    case Obj(fields) =>
      WriteFieldsStarts(fields, d + 1);
      Bracketed("{", WriteFields(fields, d + 1), "}", d, Write(v, d));
  }

  lemma NextLine(first: string, rest: string, d: nat, text: string)
    requires text == first + "," + (Newline(d) + rest) && rest != "" && rest[0] != ' '
    ensures first <= text && |first| < |text| && text[|first|] == ',' && BreaksTo(text, |first| + 1, 2 * d)
  {
    BreakIn(first + ",", d, rest);
  }

  /** So does each further item, after a comma. */
  lemma ItemLine(items: seq<Value>, d: nat)
    requires |items| > 1 && WellFormed(items[0]) && WellFormed(items[1])
    ensures var first := Write(items[0], d);
            var text := WriteItems(items, d);
            first <= text && |first| < |text| && text[|first|] == ',' && BreaksTo(text, |first| + 1, 2 * d)
  {
    var first, rest := Write(items[0], d), WriteItems(items[1..], d);
    WriteItemsStarts(items[1..], d);
    NextLine(first, rest, d, WriteItems(items, d));
  }

  /** And each further member; a name and its value stand on one line, with a colon and a space between. */
  lemma MemberLine(fields: seq<Member>, d: nat)
    requires |fields| > 1
    ensures var first := Quote(fields[0].name) + ": " + Write(fields[0].value, d);
            var text := WriteFields(fields, d);
            first <= text && |first| < |text| && text[|first|] == ',' && BreaksTo(text, |first| + 1, 2 * d)
  {
    var first := Quote(fields[0].name) + ": " + Write(fields[0].value, d);
    var rest := WriteFields(fields[1..], d);
    WriteFieldsStarts(fields[1..], d);
    Regroup(Quote(fields[0].name), ": ", Write(fields[0].value, d), Newline(d), rest);
    NextLine(first, rest, d, WriteFields(fields, d));
  }

  lemma Regroup(a: string, b: string, c: string, gap: string, rest: string)
    ensures a + (b + (c + ("," + gap + rest))) == (a + b + c) + "," + (gap + rest)
  {
    var text := "," + (gap + rest);
    assert "," + gap + rest == text;
    assert a + (b + (c + text)) == (a + b) + (c + text) == (a + b + c) + text;
    assert (a + b + c) + text == (a + b + c) + "," + (gap + rest);
  }

  // ---- reading ----

  predicate IsJsonSpace(c: char) { c == ' ' || c == '\n' || c == '\t' || c == '\r' }

  function SkipSpace(s: string): (r: string)
    ensures |r| <= |s|
    ensures r != "" ==> !IsJsonSpace(r[0])
  {
    if s != "" && IsJsonSpace(s[0]) then SkipSpace(s[1..]) else s
  }

  function HexFour(s: string): Option<nat>
    requires |s| == 4
  {
    var a :- DigitValue(s[0]);
    var b :- DigitValue(s[1]);
    var c :- DigitValue(s[2]);
    var d :- DigitValue(s[3]);
    Some(a * 0x1000 + b * 0x100 + c * 16 + d)
  }

  const REPLACEMENT: char := '\U{FFFD}'

  /** One escape sequence after its backslash: the character and how many characters it took.
      Surrogate pairs combine; a lone surrogate reads as the replacement character. */
  function ReadEscape(s: string): (r: Option<(char, nat)>)
    requires s != ""
    ensures r.Some? ==> 1 <= r.value.1 <= |s|
  {
    if s[0] == '\"' || s[0] == '\\' || s[0] == '/' then Some((s[0], 1))
    else if s[0] == 'b' then Some(('\U{08}', 1))
    else if s[0] == 'f' then Some(('\U{0C}', 1))
    else if s[0] == 'n' then Some(('\n', 1))
    else if s[0] == 'r' then Some(('\r', 1))
    else if s[0] == 't' then Some(('\t', 1))
    else if s[0] == 'u' && |s| >= 5 then
      var c :- HexFour(s[1..5]);
      if 0xD800 <= c < 0xDC00 && |s| >= 11 && s[5..7] == "\\u" then
        match HexFour(s[7..11])
        case Some(low) =>
          if 0xDC00 <= low < 0xE000
          then Some(((0x10000 + (c - 0xD800) * 0x400 + (low - 0xDC00)) as char, 11))
          else Some((REPLACEMENT, 5))
        case None => Some((REPLACEMENT, 5))
      else if 0xD800 <= c < 0xE000 || c > 0xFFFF then Some((REPLACEMENT, 5))
      else Some((c as char, 5))
    else None
  }

  /** The characters of a string up to its closing quote. */
  function ReadChars(s: string): (r: Option<(string, string)>)
    ensures r.Some? ==> |r.value.1| < |s|
    decreases |s|
  {
    if s == "" || s[0] < ' ' then None
    else if s[0] == '\"' then Some(("", s[1..]))
    else if s[0] == '\\' then
      if |s| == 1 then None
      else
        var (c, n) :- ReadEscape(s[1..]);
        var (more, rest) :- ReadChars(s[1 + n..]);
        Some(([c] + more, rest))
    else
      var (more, rest) :- ReadChars(s[1..]);
      Some(([s[0]] + more, rest))
  }

  predicate IsNumberChar(c: char) {
    IsDecimal(c) || c == '-' || c == '+' || c == '.' || c == 'e' || c == 'E'
  }

  function NumberRun(s: string): (n: nat)
    ensures n <= |s|
  {
    if s == "" || !IsNumberChar(s[0]) then 0 else 1 + NumberRun(s[1..])
  }

  function DigitRun(s: string): (n: nat)
    ensures n <= |s|
  {
    if s == "" || !IsDecimal(s[0]) then 0 else 1 + DigitRun(s[1..])
  }

  predicate IsExponent(s: string) {
    s == "" ||
    ((s[0] == 'e' || s[0] == 'E') &&
     var t := if |s| > 1 && (s[1] == '+' || s[1] == '-') then s[2..] else s[1..];
     t != "" && DigitRun(t) == |t|)
  }

  /** The number grammar of section 6 of RFC 8259. */
  predicate IsNumberLiteral(s: string) {
    && (forall i :: 0 <= i < |s| ==> IsNumberChar(s[i]))
    && var t := if s != "" && s[0] == '-' then s[1..] else s;
       var n := DigitRun(t);
       && n > 0
       && (t[0] == '0' ==> n == 1)
       && var u := t[n..];
       if u != "" && u[0] == '.' then
         var m := DigitRun(u[1..]);
         m > 0 && IsExponent(u[1 + m..])
       else IsExponent(u)
  }

  /** The first value of the text and what follows it. */
  function Read(s: string): (r: Option<(Value, string)>)
    ensures r.Some? ==> |r.value.1| < |s|
    decreases |s|, 1
  {
    ReadHere(SkipSpace(s))
  }

  function ReadHere(t: string): (r: Option<(Value, string)>)
    ensures r.Some? ==> |r.value.1| < |t|
    decreases |t|, 0
  {
    if t == "" then None
    else if t[0] == '{' then ReadObject(SkipSpace(t[1..]))
    else if t[0] == '[' then ReadArray(SkipSpace(t[1..]))
    else ReadScalar(t)
  }

  function ReadScalar(t: string): (r: Option<(Value, string)>)
    requires t != ""
    ensures r.Some? ==> |r.value.1| < |t|
  {
    if t[0] == '\"' then
      var (str, rest) :- ReadChars(t[1..]);
      Some((Str(str), rest))
    else if t[0] == 'n' then ReadWord("null", Null, t)
    else if t[0] == 't' then ReadWord("true", Bool(true), t)
    else if t[0] == 'f' then ReadWord("false", Bool(false), t)
    else ReadLiteral(t)
  }

  function ReadWord(word: string, v: Value, t: string): (r: Option<(Value, string)>)
    requires word != ""
    ensures r.Some? ==> |r.value.1| < |t|
  {
    if word <= t then Some((v, t[|word|..])) else None
  }

  function ReadLiteral(t: string): (r: Option<(Value, string)>)
    ensures r.Some? ==> |r.value.1| < |t|
  {
    var n := NumberRun(t);
    if n > 0 && IsNumberLiteral(t[..n]) then Some((Number(t[..n]), t[n..])) else None
  }

  function ReadArray(u: string): (r: Option<(Value, string)>)
    ensures r.Some? ==> |r.value.1| < |u|
    decreases |u|, 3
  {
    if u != "" && u[0] == ']' then Some((Arr([]), u[1..]))
    else
      var (items, rest) :- ReadItems(u);
      Some((Arr(items), rest))
  }

  function ReadItems(u: string): (r: Option<(seq<Value>, string)>)
    ensures r.Some? ==> |r.value.1| < |u|
    decreases |u|, 2
  {
    var (v, rest) :- Read(u);
    ReadMoreItems(v, SkipSpace(rest))
  }

  function ReadMoreItems(v: Value, w: string): (r: Option<(seq<Value>, string)>)
    ensures r.Some? ==> |r.value.1| < |w|
    decreases |w|, 0
  {
    if w == "" then None
    else if w[0] == ']' then Some(([v], w[1..]))
    else if w[0] == ',' then
      var (more, rest) :- ReadItems(SkipSpace(w[1..]));
      Some(([v] + more, rest))
    else None
  }

  function ReadObject(u: string): (r: Option<(Value, string)>)
    ensures r.Some? ==> |r.value.1| < |u|
    decreases |u|, 3
  {
    if u != "" && u[0] == '}' then Some((Obj([]), u[1..]))
    else
      var (fields, rest) :- ReadFields(u);
      Some((Obj(fields), rest))
  }

  function ReadFields(u: string): (r: Option<(seq<Member>, string)>)
    ensures r.Some? ==> |r.value.1| < |u|
    decreases |u|, 2
  {
    if u == "" || u[0] != '\"' then None
    else
      var (name, rest) :- ReadChars(u[1..]);
      ReadValueOf(name, SkipSpace(rest))
  }

  function ReadValueOf(name: string, w: string): (r: Option<(seq<Member>, string)>)
    ensures r.Some? ==> |r.value.1| < |w|
    decreases |w|, 0
  {
    if w == "" || w[0] != ':' then None
    else
      var (v, rest) :- Read(w[1..]);
      ReadMoreFields(Member(name, v), SkipSpace(rest))
  }

  function ReadMoreFields(m: Member, w: string): (r: Option<(seq<Member>, string)>)
    ensures r.Some? ==> |r.value.1| < |w|
    decreases |w|, 0
  {
    if w == "" then None
    else if w[0] == '}' then Some(([m], w[1..]))
    else if w[0] == ',' then
      var (more, rest) :- ReadFields(SkipSpace(w[1..]));
      Some(([m] + more, rest))
    else None
  }

  // ---- the round trip ----

  /** Every number in the value is a number literal. */
  predicate WellFormed(v: Value) {
    match v
    case Number(literal) => IsNumberLiteral(literal)
    case Arr(items) => forall i :: 0 <= i < |items| ==> WellFormed(items[i])
    case Obj(fields) => forall i :: 0 <= i < |fields| ==> WellFormed(fields[i].value)
    case _ => true
  }

  /** What may follow a number without being taken for more of it. */
  predicate EndsNumber(rest: string) {
    rest == "" || !IsNumberChar(rest[0])
  }

  lemma {:induction false} SkipNewline(n: nat, s: string)
    requires s != "" && !IsJsonSpace(s[0])
    ensures SkipSpace(Spaces(n) + s) == s && SkipSpace("\n" + Spaces(n) + s) == s
  {
    if n == 0 {
      assert Spaces(0) + s == s;
    } else {
      SkipNewline(n - 1, s);
      assert Spaces(n) + s == [' '] + (Spaces(n - 1) + s);
      SkipOne(' ', Spaces(n - 1) + s);
    }
    assert "\n" + Spaces(n) + s == ['\n'] + (Spaces(n) + s);
    SkipOne('\n', Spaces(n) + s);
  }

  lemma SkipOne(c: char, s: string)
    requires IsJsonSpace(c)
    ensures SkipSpace([c] + s) == SkipSpace(s)
  {
    assert ([c] + s)[1..] == s;
  }

  lemma SkipLine(d: nat, s: string)
    requires s != "" && !IsJsonSpace(s[0])
    ensures SkipSpace(Newline(d) + s) == s
  {
    SkipNewline(2 * d, s);
  }

  lemma HexDigitsOf(c: nat)
    requires c < 0x10000
    ensures c / 16 / 16 / 16 < 16
    ensures c == c / 16 / 16 / 16 * 0x1000 + c / 16 / 16 % 16 * 0x100 + c / 16 % 16 * 16 + c % 16
  {
    var c1 := c / 16;
    var c2 := c1 / 16;
    assert c == 16 * c1 + c % 16 && c1 == 16 * c2 + c1 % 16 && c2 == 16 * (c2 / 16) + c2 % 16;
  }

  lemma HexFourOf(c: nat)
    requires c < 0x10000
    ensures HexFour(HexEscape(c)[2..]) == Some(c)
  {
    HexDigitsOf(c);
    var a, b, e, f := c / 16 / 16 / 16, c / 16 / 16 % 16, c / 16 % 16, c % 16;
    DigitCharValue(a);
    DigitCharValue(b);
    DigitCharValue(e);
    DigitCharValue(f);
    assert HexEscape(c)[2..] == [DigitChar(a), DigitChar(b), DigitChar(e), DigitChar(f)];
  }

  function Prepend(c: char, r: Option<(string, string)>): Option<(string, string)> {
    match r
    case Some((more, rest)) => Some(([c] + more, rest))
    case None => None
  }

  lemma ReadPlain(c: char, tail: string)
    requires c >= ' ' && c != '\"' && c != '\\'
    ensures ReadChars([c] + tail) == Prepend(c, ReadChars(tail))
  {
    assert ([c] + tail)[1..] == tail;
  }

  lemma ReadBackslash(c: char, escape: string, tail: string)
    requires escape != "" && ReadEscape(escape + tail) == Some((c, |escape|))
    ensures ReadChars("\\" + escape + tail) == Prepend(c, ReadChars(tail))
  {
    var text := "\\" + escape + tail;
    assert text[1..] == escape + tail;
    assert text[1 + |escape|..] == tail;
  }

  lemma ReadHexEscape(c: char, tail: string)
    requires (c as int) < 0xD800
    ensures ReadEscape(HexEscape(c as int)[1..] + tail) == Some((c, 5))
  {
    var text := HexEscape(c as int)[1..] + tail;
    HexFourOf(c as int);
    assert text[1..5] == HexEscape(c as int)[2..];
    assert text[0] == 'u';
  }

  /** An escaped character reads back as itself. */
  lemma ReadEscapedChar(c: char, tail: string)
    ensures ReadChars(EscapeChar(c) + tail) == Prepend(c, ReadChars(tail))
  {
    var e := EscapeChar(c);
    if |e| == 1 {
      ReadPlain(c, tail);
    } else if |e| == 2 {
      var escape := e[1..];
      assert escape + tail == [e[1]] + tail;
      assert e == "\\" + escape;
      ReadBackslash(c, escape, tail);
    } else {
      ReadHexEscape(c, tail);
      assert e == "\\" + e[1..];
      ReadBackslash(c, e[1..], tail);
    }
  }

  lemma EscapeCons(s: string, tail: string)
    requires s != ""
    ensures Escape(s) + tail == EscapeChar(s[0]) + (Escape(s[1..]) + tail)
  {
    Associative(EscapeChar(s[0]), Escape(s[1..]), tail);
  }

  lemma {:induction false} ReadQuoted(s: string, rest: string)
    ensures ReadChars(Escape(s) + ("\"" + rest)) == Some((s, rest))
  {
    if s == "" {
      assert Escape(s) + ("\"" + rest) == "\"" + rest;
      assert ("\"" + rest)[1..] == rest;
    } else {
      var tail := Escape(s[1..]) + ("\"" + rest);
      ReadQuoted(s[1..], rest);
      ReadEscapedChar(s[0], tail);
      EscapeCons(s, "\"" + rest);
      assert [s[0]] + s[1..] == s;
    }
  }

  lemma QuoteParts(s: string, rest: string)
    ensures (Quote(s) + rest)[0] == '\"'
    ensures ReadChars((Quote(s) + rest)[1..]) == Some((s, rest))
  {
    ReadQuoted(s, rest);
    assert (Quote(s) + rest)[1..] == Escape(s) + ("\"" + rest);
  }

  lemma {:induction false} NumberRunEnds(s: string, rest: string)
    requires forall i :: 0 <= i < |s| ==> IsNumberChar(s[i])
    requires EndsNumber(rest)
    ensures NumberRun(s + rest) == |s|
  {
    if s == "" {
      assert s + rest == rest;
    } else {
      NumberRunEnds(s[1..], rest);
      assert (s + rest)[1..] == s[1..] + rest;
    }
  }

  lemma LiteralStarts(s: string)
    requires IsNumberLiteral(s)
    ensures s != "" && (IsDecimal(s[0]) || s[0] == '-')
  {}

  /** The first character of a written value: never a space or a closing bracket. */
  lemma WriteStarts(v: Value, d: nat)
    requires WellFormed(v)
    ensures Write(v, d) != ""
    ensures var c := Write(v, d)[0]; !IsJsonSpace(c) && c != ']' && c != '}'
  {
    if v.Number? {
      LiteralStarts(v.literal);
    }
  }

  lemma ReadNumber(literal: string, rest: string)
    requires IsNumberLiteral(literal) && EndsNumber(rest)
    ensures ReadHere(literal + rest) == Some((Number(literal), rest))
  {
    var t := literal + rest;
    LiteralStarts(literal);
    NumberRunEnds(literal, rest);
    assert t[0] == literal[0];
    assert ReadHere(t) == ReadLiteral(t);
    assert t[..|literal|] == literal && t[|literal|..] == rest;
  }

  lemma ReadNamed(word: string, v: Value, rest: string)
    requires (word == "null" && v == Null) || (word == "true" && v == Bool(true)) ||
               (word == "false" && v == Bool(false))
    ensures ReadHere(word + rest) == Some((v, rest))
  {
    var t := word + rest;
    assert t[0] == word[0];
    assert ReadHere(t) == ReadWord(word, v, t);
    assert word <= t && t[|word|..] == rest;
  }

  lemma ReadString(s: string, rest: string)
    ensures ReadHere(Quote(s) + rest) == Some((Str(s), rest))
  {
    QuoteParts(s, rest);
    assert ReadHere(Quote(s) + rest) == ReadScalar(Quote(s) + rest);
  }

  lemma ReadEmpty(brackets: string, rest: string)
    requires brackets == "[]" || brackets == "{}"
    ensures ReadHere(brackets + rest) == Some((if brackets == "[]" then Arr([]) else Obj([]), rest))
  {
    var t := brackets + rest;
    var u := [brackets[1]] + rest;
    assert t[0] == brackets[0] && t[1..] == u;
    assert SkipSpace(u) == u && u[1..] == rest;
  }

  /** The inside of a bracket: an indented line that starts with neither a space nor a closing
      bracket. */
  lemma ReadBracket(open: string, d: nat, body: string)
    requires open == "[" || open == "{"
    requires body != "" && !IsJsonSpace(body[0]) && body[0] != ']' && body[0] != '}'
    ensures ReadHere(open + (Newline(d) + body)) == if open == "[" then ReadArray(body) else ReadObject(body)
  {
    var t := open + (Newline(d) + body);
    assert t[0] == open[0] && t[1..] == Newline(d) + body;
    SkipLine(d, body);
  }

  /** Reading what was written, at any depth and before any continuation, gives the value and
      the continuation back. */
  lemma {:induction false} ReadWritten(v: Value, d: nat, rest: string)
    requires WellFormed(v)
    requires v.Number? ==> EndsNumber(rest)
    ensures ReadHere(Write(v, d) + rest) == Some((v, rest))
    decreases v, 1
  {
    match v
    case Null => ReadNamed("null", v, rest);
    case Bool(b) => ReadNamed(if b then "true" else "false", v, rest);
    case Number(literal) => ReadNumber(literal, rest);
    case Str(s) => ReadString(s, rest);
    case Arr(items) =>
      if items == [] {
        ReadEmpty("[]", rest);
      } else {
        ReadWrittenItems(items, d + 1, d, rest);
        WriteItemsStarts(items, d + 1);
        ReadBracket("[", d + 1, WriteItems(items, d + 1) + (Newline(d) + ("]" + rest)));
        Rebracket("[", Newline(d + 1), WriteItems(items, d + 1), Newline(d), "]", rest);
      }
    case Obj(fields) =>
      if fields == [] {
        ReadEmpty("{}", rest);
      } else {
        ReadWrittenFields(fields, d + 1, d, rest);
        WriteFieldsStarts(fields, d + 1);
        ReadBracket("{", d + 1, WriteFields(fields, d + 1) + (Newline(d) + ("}" + rest)));
        Rebracket("{", Newline(d + 1), WriteFields(fields, d + 1), Newline(d), "}", rest);
      }
  }

  /** The same with the reader's leading skip, which finds no space to skip. */
  lemma ReadAtStart(v: Value, d: nat, rest: string)
    requires WellFormed(v) && ReadHere(Write(v, d) + rest) == Some((v, rest))
    ensures Read(Write(v, d) + rest) == Some((v, rest))
  {
    WriteStarts(v, d);
    var text := Write(v, d) + rest;
    assert text[0] == Write(v, d)[0];
    assert SkipSpace(text) == text;
  }

  lemma Associative(a: string, b: string, c: string)
    ensures a + b + c == a + (b + c)
  {}

  lemma Rebracket(open: string, line: string, inner: string, last: string, close: string, rest: string)
    ensures open + line + (inner + (last + close)) + rest == open + (line + (inner + (last + (close + rest))))
  {}

  lemma WriteItemsStarts(items: seq<Value>, d: nat)
    requires items != [] && WellFormed(items[0])
    ensures WriteItems(items, d) != ""
    ensures var c := WriteItems(items, d)[0]; !IsJsonSpace(c) && c != ']' && c != '}'
  {
    WriteStarts(items[0], d);
  }

  lemma WriteFieldsStarts(fields: seq<Member>, d: nat)
    requires fields != []
    ensures WriteFields(fields, d) != "" && WriteFields(fields, d)[0] == '\"'
  {}

  lemma {:induction false} ReadWrittenItems(items: seq<Value>, d: nat, outer: nat, rest: string)
    requires items != [] && forall i :: 0 <= i < |items| ==> WellFormed(items[i])
    ensures ReadItems(WriteItems(items, d) + (Newline(outer) + ("]" + rest))) == Some((items, rest))
    decreases items, 0
  {
    var close := Newline(outer) + ("]" + rest);
    if |items| == 1 {
      ReadWritten(items[0], d, close);
      ReadAtStart(items[0], d, close);
      LastItem(items[0], outer, rest);
      ItemsText(items, d, close);
      assert items == [items[0]];
    } else {
      var more := WriteItems(items[1..], d) + close;
      var next := "," + (Newline(d) + more);
      ReadWrittenItems(items[1..], d, outer, rest);
      ReadWritten(items[0], d, next);
      ReadAtStart(items[0], d, next);
      WriteItemsStarts(items[1..], d);
      NextItem(items[0], d, more);
      ItemsText(items, d, close);
      assert items == [items[0]] + items[1..];
    }
  }

  lemma ItemsText(items: seq<Value>, d: nat, close: string)
    requires items != []
    ensures WriteItems(items, d) + close ==
            if |items| == 1 then Write(items[0], d) + close
            else Write(items[0], d) + ("," + (Newline(d) + (WriteItems(items[1..], d) + close)))
  {
    if |items| > 1 {
      Recomma(Write(items[0], d), Newline(d), WriteItems(items[1..], d), close);
    } else {
      assert WriteItems(items, d) == Write(items[0], d) + "";
    }
  }

  lemma Recomma(head: string, line: string, tail: string, close: string)
    ensures head + ("," + line + tail) + close == head + ("," + (line + (tail + close)))
  {}

  lemma LastItem(v: Value, outer: nat, rest: string)
    ensures ReadMoreItems(v, SkipSpace(Newline(outer) + ("]" + rest))) == Some(([v], rest))
  {
    SkipLine(outer, "]" + rest);
    assert ("]" + rest)[1..] == rest;
  }

  lemma NextItem(v: Value, d: nat, more: string)
    requires more != "" && !IsJsonSpace(more[0]) && ReadItems(more).Some?
    ensures ReadMoreItems(v, SkipSpace("," + (Newline(d) + more))) ==
            Some(([v] + ReadItems(more).value.0, ReadItems(more).value.1))
  {
    var w := "," + (Newline(d) + more);
    assert SkipSpace(w) == w && w[1..] == Newline(d) + more;
    SkipLine(d, more);
  }

  lemma {:induction false} ReadWrittenFields(fields: seq<Member>, d: nat, outer: nat, rest: string)
    requires fields != [] && forall i :: 0 <= i < |fields| ==> WellFormed(fields[i].value)
    ensures ReadFields(WriteFields(fields, d) + (Newline(outer) + ("}" + rest))) == Some((fields, rest))
    decreases fields, 0
  {
    var close := Newline(outer) + ("}" + rest);
    var m := fields[0];
    if |fields| == 1 {
      ReadWritten(m.value, d, close);
      ReadMember(m, d, close);
      LastMember(m, outer, rest);
      FieldsText(fields, d, close);
      assert fields == [m];
    } else {
      var more := WriteFields(fields[1..], d) + close;
      var next := "," + (Newline(d) + more);
      ReadWrittenFields(fields[1..], d, outer, rest);
      ReadWritten(m.value, d, next);
      ReadMember(m, d, next);
      WriteFieldsStarts(fields[1..], d);
      NextMember(m, d, more);
      FieldsText(fields, d, close);
      assert fields == [m] + fields[1..];
    }
  }

  lemma FieldsText(fields: seq<Member>, d: nat, close: string)
    requires fields != []
    ensures var m := fields[0];
            WriteFields(fields, d) + close ==
            if |fields| == 1 then Quote(m.name) + (": " + (Write(m.value, d) + close))
            else Quote(m.name) + (": " + (Write(m.value, d) +
                                          ("," + (Newline(d) + (WriteFields(fields[1..], d) + close)))))
  {
    var m := fields[0];
    if |fields| > 1 {
      JoinMember(Quote(m.name), Write(m.value, d), Newline(d), WriteFields(fields[1..], d), close);
    } else {
      Recolon(Quote(m.name), Write(m.value, d), "", close);
      assert "" + close == close;
    }
  }

  lemma Recolon(name: string, head: string, tail: string, close: string)
    ensures name + (": " + (head + tail)) + close == name + (": " + (head + (tail + close)))
  {}

  lemma JoinMember(name: string, head: string, line: string, more: string, close: string)
    ensures name + (": " + (head + ("," + line + more))) + close ==
            name + (": " + (head + ("," + (line + (more + close)))))
  {
    Recolon(name, head, "," + line + more, close);
    Associative("," + line, more, close);
    Associative(",", line, more + close);
  }

  lemma LastMember(m: Member, outer: nat, rest: string)
    ensures ReadMoreFields(m, SkipSpace(Newline(outer) + ("}" + rest))) == Some(([m], rest))
  {
    SkipLine(outer, "}" + rest);
    assert ("}" + rest)[1..] == rest;
  }

  lemma NextMember(m: Member, d: nat, more: string)
    requires more != "" && !IsJsonSpace(more[0]) && ReadFields(more).Some?
    ensures ReadMoreFields(m, SkipSpace("," + (Newline(d) + more))) ==
            Some(([m] + ReadFields(more).value.0, ReadFields(more).value.1))
  {
    var w := "," + (Newline(d) + more);
    assert SkipSpace(w) == w && w[1..] == Newline(d) + more;
    SkipLine(d, more);
  }

  /** One member: the reader reaches the continuation with the name and the value in hand. */
  lemma ReadMember(m: Member, d: nat, next: string)
    requires WellFormed(m.value)
    requires ReadHere(Write(m.value, d) + next) == Some((m.value, next))
    ensures ReadFields(Quote(m.name) + (": " + (Write(m.value, d) + next))) == ReadMoreFields(m, SkipSpace(next))
  {
    var s := Write(m.value, d) + next;
    WriteStarts(m.value, d);
    assert s[0] == Write(m.value, d)[0];
    ReadName(m.name, ": " + s);
    ReadColon(m.name, s);
  }

  lemma ReadName(name: string, tail: string)
    requires SkipSpace(tail) == tail
    ensures ReadFields(Quote(name) + tail) == ReadValueOf(name, tail)
  {
    QuoteParts(name, tail);
  }

  lemma ReadColon(name: string, s: string)
    requires s != "" && !IsJsonSpace(s[0]) && ReadHere(s).Some?
    ensures SkipSpace(": " + s) == ": " + s
    ensures ReadValueOf(name, ": " + s) ==
            ReadMoreFields(Member(name, ReadHere(s).value.0), SkipSpace(ReadHere(s).value.1))
  {
    var w := ": " + s;
    assert w[1..] == [' '] + s;
    SkipOne(' ', s);
    assert Read(w[1..]) == ReadHere(s);
  }
}
