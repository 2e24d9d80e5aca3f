/** internal/appid: the appId grammar, the ASCII-only case fold and the two validators.
    Strings are sequences of code points; the fold and the grammar look only at ASCII, where a
    code point and a UTF-8 byte are the same thing. */
module AppId {
  import opened Wrappers

  function LowerChar(c: char): char {
    if 'A' <= c <= 'Z' then (c as int + 32) as char else c
  }

  /** The specification of Fold: the character-wise ASCII map. */
  function Lowered(s: string): (r: string)
    ensures |r| == |s|
  {
    seq(|s|, i requires 0 <= i < |s| => LowerChar(s[i]))
  }

  /** The in-place loop over a byte buffer, with the shortcut that returns the input when
      nothing changed. */
  method Fold(s: string) returns (r: string)
    ensures r == Lowered(s)
  {
    var b := new char[|s|](i requires 0 <= i < |s| => s[i]);
    var changed := false;
    var i := 0;
    while i < b.Length
      invariant 0 <= i <= b.Length
      invariant forall k :: 0 <= k < i ==> b[k] == LowerChar(s[k])
      invariant forall k :: i <= k < b.Length ==> b[k] == s[k]
      invariant !changed ==> forall k :: 0 <= k < i ==> LowerChar(s[k]) == s[k]
    {
      if 'A' <= b[i] <= 'Z' {
        b[i] := (b[i] as int + ('a' as int - 'A' as int)) as char;
        changed := true;
      }
      i := i + 1;
    }
    if !changed {
      return s;
    }
    return b[..];
  }

  predicate IsTailChar(c: char) {
    'a' <= c <= 'z' || '0' <= c <= '9' || c == '_' || c == '.' || c == '-'
  }

  /** `^[a-z][a-z0-9_.-]{2,63}$` */
  predicate Valid(s: string) {
    && 3 <= |s| <= 64
    && 'a' <= s[0] <= 'z'
    && forall i :: 1 <= i < |s| ==> IsTailChar(s[i])
  }

  function ValidateStrict(cn: string): Option<string> {
    if Valid(cn) then Some(cn) else None
  }

  function Canonicalize(raw: string): Option<string> {
    var folded := Lowered(raw);
    if Valid(folded) then Some(folded) else None
  }

  /** Two characters that differ at most in ASCII case, said without the fold. */
  predicate SameLetter(c: char, d: char) {
    || c == d
    || ('A' <= c <= 'Z' && d as int == c as int + 32)
    || ('A' <= d <= 'Z' && c as int == d as int + 32)
  }

  predicate EqualUpToCase(a: string, b: string) {
    |a| == |b| && forall i :: 0 <= i < |a| ==> SameLetter(a[i], b[i])
  }

  /** Strictly valid ids are fixed points of the fold. */
  lemma StrictIsCanonical(s: string)
    requires Valid(s)
    ensures Lowered(s) == s && Canonicalize(s) == Some(s)
  {
    assert forall i :: 0 <= i < |s| ==> LowerChar(s[i]) == s[i];
  }

  /** The results of Canonicalize are exactly the strings ValidateStrict accepts, and
      canonicalizing a result changes nothing. */
  lemma CanonicalFormsAreTheStrictIds(x: string)
    ensures (exists raw :: Canonicalize(raw) == Some(x)) <==> ValidateStrict(x) == Some(x)
    ensures forall raw :: Canonicalize(raw) == Some(x) ==> Canonicalize(x) == Some(x)
  {
    if Valid(x) {
      StrictIsCanonical(x);
      assert Canonicalize(x) == Some(x);
    }
  }

  /** The canonical form of an id is the valid id that it equals up to ASCII case. */
  lemma EqualIffCanonical(raw: string, id: string)
    ensures Valid(id) && EqualUpToCase(raw, id) <==> Canonicalize(raw) == Some(id)
  {
    if Valid(id) {
      StrictIsCanonical(id);
      if EqualUpToCase(raw, id) {
        forall i | 0 <= i < |raw|
          ensures Lowered(raw)[i] == Lowered(id)[i]
        {
          assert SameLetter(raw[i], id[i]);
        }
        assert Lowered(raw) == Lowered(id);
      }
    }
    if Canonicalize(raw) == Some(id) {
      SharedFormIffEqualUpToCase(raw, id);
    }
  }

  /** Two accepted raw ids share a canonical form exactly when they are equal up to ASCII case. */
  lemma SharedFormIffEqualUpToCase(a: string, b: string)
    requires Canonicalize(a).Some? && Canonicalize(b).Some?
    ensures Canonicalize(a) == Canonicalize(b) <==> EqualUpToCase(a, b)
  {
    if EqualUpToCase(a, b) {
      forall i | 0 <= i < |a|
        ensures Lowered(a)[i] == Lowered(b)[i]
      {
        assert SameLetter(a[i], b[i]);
      }
      assert Lowered(a) == Lowered(b);
    } else if Lowered(a) == Lowered(b) {
      forall i | 0 <= i < |a|
        ensures SameLetter(a[i], b[i])
      {
        assert Lowered(a)[i] == Lowered(b)[i];
      }
      assert false;
    }
  }
}
