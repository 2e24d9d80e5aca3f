/** Certificate serials: drawn by internal/certtmpl, printed by internal/signer, read back by
    internal/crl. */
module Serial {
  import opened Wrappers
  import opened Digits
  import opened Random

  /** signer.FormatSerial: "0x" and `big.Int.Text(16)`, which prints a sign before the digits. */
  function FormatSerial(n: int): string {
    "0x" + (if n < 0 then "-" + Text(-n, 16) else Text(n, 16))
  }

  /** crl.parseSerial: the "0x" prefix, then whatever `big.Int.SetString(_, 16)` accepts. */
  function ParseSerial(s: string): Option<int> {
    if |s| < 3 || s[..2] != "0x" then None
    else SignedValue(s[2..], 16)
  }

  /** Hexadecimal in lower case, after "0x". */
  lemma SerialText()
    ensures FormatSerial(0) == "0x0" && FormatSerial(255) == "0xff" && FormatSerial(-4096) == "0x-1000"
  {
    assert Text(15, 16) == "f" && Text(1, 16) == "1" && Text(16, 16) == "10" && Text(256, 16) == "100";
  }

  /** The spellings FormatSerial can produce, described without it. */
  predicate IsCanonicalSerial(s: string) {
    && |s| >= 3
    && s[..2] == "0x"
    && (if s[2] == '-' then |s| >= 4 && s[3] != '0' && IsCanonical(s[3..], 16)
        else IsCanonical(s[2..], 16))
  }

  /** The parser inverts the printer on every integer. */
  lemma SerialRoundTrip(n: int)
    ensures ParseSerial(FormatSerial(n)) == Some(n)
  {
    var m := if n < 0 then -n else n;
    SignedValueOfText(m, 16);
    var s := FormatSerial(n);
    assert s[2..] == if n < 0 then "-" + Text(m, 16) else Text(m, 16);
  }

  /** The printer inverts the parser exactly on the canonical spellings: "0xFF", "0x+1",
      "0x007" and "0x-0" are read but never written. */
  lemma PrintedBackIffCanonical(s: string)
    ensures (ParseSerial(s).Some? && FormatSerial(ParseSerial(s).value) == s) <==> IsCanonicalSerial(s)
  {
    if ParseSerial(s).Some? && FormatSerial(ParseSerial(s).value) == s {
      var n := ParseSerial(s).value;
      TextIsCanonical(if n < 0 then -n else n, 16);
      var digits := Text(if n < 0 then -n else n, 16);
      assert s[2..] == if n < 0 then "-" + digits else digits;
      if n < 0 {
        assert s[3..] == digits && s[3] == digits[0] && s[2] == '-';
      } else {
        assert s[2] == digits[0];
      }
    }
    if IsCanonicalSerial(s) {
      CanonicalIsPrintedBack(s);
    }
  }

  lemma CanonicalIsPrintedBack(s: string)
    requires IsCanonicalSerial(s)
    ensures ParseSerial(s).Some? && FormatSerial(ParseSerial(s).value) == s
  {
    if s[2] == '-' {
      TextOfValue(s[3..], 16);
      assert s[2..][1..] == s[3..];
      assert s == "0x" + ("-" + s[3..]);
      assert s[3] == s[3..][0];
    } else {
      TextOfValue(s[2..], 16);
      assert IsLowerHex(s[2..][0]);
      assert s == "0x" + s[2..];
    }
  }

  // ---- certtmpl.randomSerial ----

  /** Bytes per draw: rand.Int below 2^128 reads sixteen bytes and never rejects. */
  const SERIAL_BYTES := 16
  const SERIAL_LIMIT: nat := 0x1_0000_0000_0000_0000_0000_0000_0000_0000

  /** Big-endian value of a byte string. */
  function BytesValue(b: seq<Byte>): nat {
    if b == [] then 0 else BytesValue(b[..|b| - 1]) * 256 + b[|b| - 1] as int
  }

  /** The first byte counts most. */
  lemma {:induction false} FirstByteCountsMost(x: Byte, b: seq<Byte>)
    ensures BytesValue([x] + b) == x as int * Power256(|b|) + BytesValue(b)
  {
    if b == [] {
      assert [x] + b == [x] && [x][..0] == [];
    } else {
      var init := b[..|b| - 1];
      FirstByteCountsMost(x, init);
      assert ([x] + b)[..|b|] == [x] + init;
    }
  }

  function Power256(k: nat): nat {
    if k == 0 then 1 else 256 * Power256(k - 1)
  }

  lemma {:induction false} BytesValueBound(b: seq<Byte>)
    ensures BytesValue(b) < Power256(|b|)
  {
    if b != [] {
      BytesValueBound(b[..|b| - 1]);
    }
  }

  /** What the redraw loop yields on a stream: the first non-zero block, and what is left. */
  function FirstNonZeroBlock(stream: seq<Byte>): (Option<nat>, seq<Byte>)
    decreases |stream|
  {
    if |stream| < SERIAL_BYTES then (None, [])
    else
      var n := BytesValue(stream[..SERIAL_BYTES]);
      if n > 0 then (Some(n), stream[SERIAL_BYTES..]) else FirstNonZeroBlock(stream[SERIAL_BYTES..])
  }

  method RandomSerial(r: Reader) returns (serial: Option<nat>)
    modifies r
    ensures (serial, r.stream) == FirstNonZeroBlock(old(r.stream))
  {
    while true
      invariant FirstNonZeroBlock(r.stream) == FirstNonZeroBlock(old(r.stream))
      decreases |r.stream|
    {
      var b := r.ReadFull(SERIAL_BYTES);
      if b.None? {
        return None;
      }
      var n := BytesValue(b.value);
      if n > 0 {
        return Some(n);
      }
    }
  }

  lemma SliceAfterDrop(s: seq<Byte>, d: nat, lo: nat, hi: nat)
    requires lo <= hi && d + hi <= |s|
    ensures s[d..][lo..hi] == s[d + lo..d + hi]
  {}

  /** Every serial that is drawn lies in [1, 2^128), the positive range that section 4.1.2.2 of
      RFC 5280 asks for, and survives printing into the ledger and parsing into the CRL. A draw
      fails only when every whole block of the stream is zero. */
  lemma {:induction false} DrawnSerialSurvives(stream: seq<Byte>)
    ensures FirstNonZeroBlock(stream).0.Some? ==>
              var n := FirstNonZeroBlock(stream).0.value;
              1 <= n < SERIAL_LIMIT && ParseSerial(FormatSerial(n)) == Some(n) && IsCanonicalSerial(FormatSerial(n))
    ensures FirstNonZeroBlock(stream).0.None? ==>
              forall i :: 0 <= i && SERIAL_BYTES * (i + 1) <= |stream| ==>
                BytesValue(stream[SERIAL_BYTES * i..SERIAL_BYTES * (i + 1)]) == 0
    decreases |stream|
  {
    if |stream| >= SERIAL_BYTES {
      var block := stream[..SERIAL_BYTES];
      var n := BytesValue(block);
      if n > 0 {
        BytesValueBound(block);
        assert Power256(16) == SERIAL_LIMIT by {
          assert Power256(4) == 0x1_0000_0000;
          assert Power256(8) == 0x1_0000_0000_0000_0000;
          assert Power256(12) == 0x1_0000_0000_0000_0000_0000_0000;
        }
        SerialRoundTrip(n);
        PrintedBackIffCanonical(FormatSerial(n));
      } else {
        var rest := stream[SERIAL_BYTES..];
        DrawnSerialSurvives(rest);
        if FirstNonZeroBlock(stream).0.None? {
          forall i | 0 <= i && SERIAL_BYTES * (i + 1) <= |stream|
            ensures BytesValue(stream[SERIAL_BYTES * i..SERIAL_BYTES * (i + 1)]) == 0
          {
            if i == 0 {
              assert stream[0..SERIAL_BYTES] == block;
            } else {
              var j := i - 1;
              SliceAfterDrop(stream, SERIAL_BYTES, SERIAL_BYTES * j, SERIAL_BYTES * (j + 1));
            }
          }
        }
      }
    }
  }
}
