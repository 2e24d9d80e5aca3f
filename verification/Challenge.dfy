/** internal/challenge: the nonce a requester commits to prove control of a repository, and the
    bot comment that carries it between polls. */
module Challenge {
  import opened Wrappers
  import opened Strings
  import opened Random
  import Digits

  const FILE_PATH := "/.well-known/owncloud-codesigning-challenge.txt"

  /** 72 hours in nanoseconds. */
  const VALIDITY := 259_200_000_000_000

  const NONCE_BYTES := 32
  const NONCE_LENGTH := 64

  const MARKER_PREFIX := "<!-- owncloud-codesigning-challenge: "
  const MARKER_SUFFIX := " -->"

  // ---- the nonce ----

  /** hex.EncodeToString */
  function HexEncode(b: seq<Byte>): (s: string)
    ensures |s| == 2 * |b|
    ensures forall i :: 0 <= i < |s| ==> Digits.IsLowerHex(s[i])
  {
    if b == [] then ""
    else [Digits.DigitChar(b[0] as int / 16), Digits.DigitChar(b[0] as int % 16)] + HexEncode(b[1..])
  }

  function HexDecode(s: string): Option<seq<Byte>> {
    if s == "" then Some([])
    else if |s| == 1 then None
    else
      var hi :- Digits.DigitValue(s[0]);
      var lo :- Digits.DigitValue(s[1]);
      var rest :- HexDecode(s[2..]);
      if hi < 16 && lo < 16 then Some([(16 * hi + lo) as Byte] + rest) else None
  }

  /** The digits of a byte are its high half and then its low half. */
  lemma {:induction false} HexDigits(b: seq<Byte>, i: nat)
    requires i < |b|
    ensures HexEncode(b)[2 * i] == "0123456789abcdef"[b[i] as int / 16]
    ensures HexEncode(b)[2 * i + 1] == "0123456789abcdef"[b[i] as int % 16]
  {
    if i == 0 {
      LowerHexDigit(b[0] as int / 16);
      LowerHexDigit(b[0] as int % 16);
    } else {
      HexDigits(b[1..], i - 1);
    }
  }

  lemma LowerHexDigit(n: nat)
    requires n < 16
    ensures Digits.DigitChar(n) == "0123456789abcdef"[n]
  {}

  /** The 64 lowercase hex characters that the marker accepts. */
  predicate IsNonce(s: string) {
    |s| == NONCE_LENGTH && forall i :: 0 <= i < |s| ==> Digits.IsLowerHex(s[i])
  }

  lemma TwoDigitsDecode(hi: nat, lo: nat, more: string, rest: seq<Byte>)
    requires hi < 16 && lo < 16 && HexDecode(more) == Some(rest)
    requires Digits.DigitValue(Digits.DigitChar(hi)) == Some(hi) && Digits.DigitValue(Digits.DigitChar(lo)) == Some(lo)
    ensures HexDecode([Digits.DigitChar(hi), Digits.DigitChar(lo)] + more) == Some([(16 * hi + lo) as Byte] + rest)
  {
    var s := [Digits.DigitChar(hi), Digits.DigitChar(lo)] + more;
    assert s[0] == Digits.DigitChar(hi) && s[1] == Digits.DigitChar(lo) && s[2..] == more;
  }

  lemma {:induction false} HexRoundTrip(b: seq<Byte>)
    ensures HexDecode(HexEncode(b)) == Some(b)
  {
    if b != [] {
      var n := b[0] as int;
      Digits.DigitCharValue(n / 16);
      Digits.DigitCharValue(n % 16);
      HexRoundTrip(b[1..]);
      TwoDigitsDecode(n / 16, n % 16, HexEncode(b[1..]), b[1..]);
      assert [b[0]] + b[1..] == b;
    }
  }

  /** A fresh nonce is the next 32 random bytes in hex; it fails only when the reader runs short. */
  method Generate(r: Reader) returns (nonce: Option<string>)
    modifies r
    ensures nonce.Some? <==> NONCE_BYTES <= |old(r.stream)|
    ensures nonce.Some? ==> nonce.value == HexEncode(old(r.stream)[..NONCE_BYTES])
    ensures nonce.Some? ==> IsNonce(nonce.value) && HexDecode(nonce.value) == Some(old(r.stream)[..NONCE_BYTES])
    ensures nonce.Some? ==> r.stream == old(r.stream)[NONCE_BYTES..]
  {
    var b := r.ReadFull(NONCE_BYTES);
    if b.None? {
      return None;
    }
    HexRoundTrip(b.value);
    return Some(HexEncode(b.value));
  }

  // ---- the comment ----

  /** The instructions around the nonce. Nothing depends on them, so the wording is a parameter. */
  datatype Wording = Wording(intro: string, outro: string)

  function Marked(nonce: string, rest: string): string {
    MARKER_PREFIX + (nonce + (MARKER_SUFFIX + rest))
  }

  /** The comment a nonce is posted in. */
  function Posted(w: Wording, nonce: string): string {
    Marked(nonce, w.intro + nonce + w.outro)
  }

  /** The nonce is shown again after the marker, which readers do not see, between the instructions. */
  lemma NonceIsShown(w: Wording, nonce: string)
    ensures var marker := "<!-- owncloud-codesigning-challenge: " + nonce + " -->";
            marker <= Posted(w, nonce) && At(Posted(w, nonce), nonce, |marker| + |w.intro|)
  {
    var marker := MARKER_PREFIX + nonce + MARKER_SUFFIX;
    var body := marker + w.intro + nonce + w.outro;
    MarkedInOrder(nonce, w.intro + nonce + w.outro);
    InOrder(marker, w.intro, nonce, w.outro);
    assert body == Posted(w, nonce);
    assert body[|marker| + |w.intro|..|marker| + |w.intro| + |nonce|] == nonce;
  }

  method CommentBody(w: Wording, nonce: string) returns (body: string)
    ensures body == Posted(w, nonce)
    ensures var marker := "<!-- owncloud-codesigning-challenge: " + nonce + " -->";
            marker <= body && At(body, nonce, |marker| + |w.intro|)
  {
    NonceIsShown(w, nonce);
    body := MARKER_PREFIX;
    body := body + nonce;
    body := body + MARKER_SUFFIX;
    MarkedInOrder(nonce, w.intro + nonce + w.outro);
    ghost var marker := body;
    body := body + w.intro;
    body := body + nonce;
    body := body + w.outro;
    InOrder(marker, w.intro, nonce, w.outro);
  }

  lemma InOrder(a: string, b: string, c: string, d: string)
    ensures a + b + c + d == a + (b + c + d)
  {}

  lemma MarkedInOrder(nonce: string, rest: string)
    ensures MARKER_PREFIX + nonce + MARKER_SUFFIX + rest == Marked(nonce, rest)
  {
    Regroup(MARKER_PREFIX + nonce + MARKER_SUFFIX, MARKER_PREFIX, nonce, MARKER_SUFFIX, rest);
  }

  lemma Regroup(ab: string, a: string, b: string, c: string, d: string)
    requires ab == a + b + c
    ensures ab + d == a + (b + (c + d))
  {}

  lemma RegroupAfter(a: string, b: string, c: string, d: string, e: string)
    ensures a + (b + (c + d)) + e == a + (b + (c + (d + e)))
  {}

  /** A whole marker stands at position `k`. */
  predicate MarkerAt(body: string, k: nat) {
    var n := k + |MARKER_PREFIX|;
    && At(body, MARKER_PREFIX, k)
    && n + NONCE_LENGTH <= |body| && IsNonce(body[n..n + NONCE_LENGTH])
    && At(body, MARKER_SUFFIX, n + NONCE_LENGTH)
  }

  /** The first marker from position `k` on. */
  function FindMarker(body: string, k: nat): (r: Option<nat>)
    requires k <= |body|
    ensures r.Some? ==> r.value + |MARKER_PREFIX| + NONCE_LENGTH <= |body|
    decreases |body| - k
  {
    if MarkerAt(body, k) then Some(k)
    else if k == |body| then None
    else FindMarker(body, k + 1)
  }

  lemma {:induction false} FindMarkerWorks(body: string, k: nat)
    requires k <= |body|
    ensures var r := FindMarker(body, k);
            && (r.Some? ==> k <= r.value && MarkerAt(body, r.value) && forall j :: k <= j < r.value ==>
                !MarkerAt(body, j))
            && (r.None? ==> forall j :: k <= j ==> !MarkerAt(body, j))
    decreases |body| - k
  {
    if !MarkerAt(body, k) && k < |body| {
      FindMarkerWorks(body, k + 1);
    }
  }

  /** The nonce in the leftmost marker. */
  function ParseNonce(body: string): Option<string> {
    var k :- FindMarker(body, 0);
    Some(body[k + |MARKER_PREFIX|..k + |MARKER_PREFIX| + NONCE_LENGTH])
  }

  /** There is a nonce to read exactly when some whole marker stands in the comment. */
  lemma NonceIffMarker(body: string)
    ensures ParseNonce(body).Some? <==> exists k: nat :: MarkerAt(body, k)
    ensures ParseNonce(body).Some? ==> IsNonce(ParseNonce(body).value)
  {
    FindMarkerWorks(body, 0);
  }

  /** A posted nonce reads back, in any wording and whatever is written after it. */
  lemma CommentRoundTrip(w: Wording, nonce: string, after: string)
    requires IsNonce(nonce)
    ensures ParseNonce(Posted(w, nonce) + after) == Some(nonce)
  {
    MarkedRoundTrip(nonce, w.intro + nonce + w.outro, after);
  }

  lemma MarkedRoundTrip(nonce: string, rest: string, after: string)
    requires IsNonce(nonce)
    ensures ParseNonce(Marked(nonce, rest) + after) == Some(nonce)
  {
    RegroupAfter(MARKER_PREFIX, nonce, MARKER_SUFFIX, rest, after);
    MarkerParts(Marked(nonce, rest) + after, nonce, rest + after);
  }

  lemma MarkerParts(body: string, nonce: string, rest: string)
    requires IsNonce(nonce) && body == MARKER_PREFIX + (nonce + (MARKER_SUFFIX + rest))
    ensures ParseNonce(body) == Some(nonce)
  {
    var n := |MARKER_PREFIX|;
    assert body[..n] == MARKER_PREFIX && body[n..] == nonce + (MARKER_SUFFIX + rest);
    assert body[n..][..NONCE_LENGTH] == nonce && body[n..][NONCE_LENGTH..] == MARKER_SUFFIX + rest;
    assert body[n..n + NONCE_LENGTH] == nonce && body[n + NONCE_LENGTH..] == MARKER_SUFFIX + rest;
    assert body[n + NONCE_LENGTH..n + NONCE_LENGTH + |MARKER_SUFFIX|] == MARKER_SUFFIX;
    assert MarkerAt(body, 0);
  }

  // ---- checking ----

  predicate Expired(commentCreatedAt: int, now: int) {
    now - commentCreatedAt > VALIDITY
  }

  /** The committed file, trimmed, is the nonce. */
  predicate Match(stored: string, fetched: string) {
    stored == TrimSpace(fetched)
  }

  /** A file that holds the nonce with any white space around it matches, and no other does. */
  lemma MatchIffPadded(nonce: string, fetched: string)
    requires IsNonce(nonce)
    ensures Match(nonce, fetched) <==>
              exists left, right :: AllSpace(left) && AllSpace(right) && fetched == left + nonce + right
  {
    NonceIsSolid(nonce);
    if Match(nonce, fetched) {
      var left, right := TrimSpaceWorks(fetched);
    }
    if left, right :| AllSpace(left) && AllSpace(right) && fetched == left + nonce + right {
      TrimSolid(left, nonce, right);
    }
  }

  lemma NonceIsSolid(nonce: string)
    requires IsNonce(nonce)
    ensures Solid(nonce)
  {
    assert Digits.IsLowerHex(nonce[0]) && Digits.IsLowerHex(nonce[|nonce| - 1]);
  }

  // ---- the prior challenge ----

  datatype Comment = Comment(body: string, createdAt: int)

  datatype Prior = Prior(nonce: string, postedAt: int)

  /** The comment at `i` is the last one with a marker. */
  predicate IsLastMarker(comments: seq<Comment>, i: int) {
    && 0 <= i < |comments|
    && ParseNonce(comments[i].body).Some?
    && forall j :: i < j < |comments| ==> ParseNonce(comments[j].body).None?
  }

  /** The nonce and the time of the last comment with a marker. */
  function LastChallenge(comments: seq<Comment>): (r: Option<Prior>)
    ensures r.None? <==> forall i :: 0 <= i < |comments| ==> ParseNonce(comments[i].body).None?
  {
    if comments == [] then None
    else
      var c := comments[|comments| - 1];
      var n := ParseNonce(c.body);
      if n.Some? then Some(Prior(n.value, c.createdAt)) else LastChallenge(comments[..|comments| - 1])
  }

  /** It is the last comment with a marker that counts. */
  lemma {:induction false} LastChallengeIsLast(comments: seq<Comment>) returns (i: int)
    requires LastChallenge(comments).Some?
    ensures IsLastMarker(comments, i)
    ensures LastChallenge(comments).value == Prior(ParseNonce(comments[i].body).value, comments[i].createdAt)
  {
    var init := comments[..|comments| - 1];
    if ParseNonce(comments[|comments| - 1].body).Some? {
      i := |comments| - 1;
    } else {
      i := LastChallengeIsLast(init);
      assert init[i] == comments[i];
      forall j | i < j < |comments|
        ensures ParseNonce(comments[j].body).None?
      {
        assert j < |init| ==> comments[j] == init[j];
      }
    }
  }

  /** enroll.priorChallenge on the bot's own comments, oldest first. */
  method PriorChallenge(comments: seq<Comment>) returns (r: Option<Prior>)
    ensures r == LastChallenge(comments)
  {
    r := None;
    for i := 0 to |comments|
      invariant r == LastChallenge(comments[..i])
    {
      var n := ParseNonce(comments[i].body);
      assert comments[..i + 1][..i] == comments[..i];
      if n.Some? {
        r := Some(Prior(n.value, comments[i].createdAt));
      }
    }
    assert comments[..|comments|] == comments;
  }
}
