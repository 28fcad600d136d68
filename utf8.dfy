/** The UTF-8 encoding Rust uses for `str` (`str::as_bytes`). */
module Utf8 {
  import opened Primitives

  /** The UTF-8 encoding of one Unicode scalar value. */
  function EncodeChar(c: char): (r: Bytes)
    ensures 1 <= |r| <= 4
    ensures (c as int) < 0x80 ==> r == [c as int]
    ensures (c as int) >= 0x80 ==> forall i | 0 <= i < |r| :: r[i] >= 0x80
  {
    var cp := c as int;
    if cp < 0x80 then [cp]
    else if cp < 0x800 then [0xC0 + cp / 0x40, 0x80 + cp % 0x40]
    else if cp < 0x1_0000 then [0xE0 + cp / 0x1000, 0x80 + (cp / 0x40) % 0x40, 0x80 + cp % 0x40]
    else [0xF0 + cp / 0x4_0000, 0x80 + (cp / 0x1000) % 0x40, 0x80 + (cp / 0x40) % 0x40, 0x80 + cp % 0x40]
  }

  /** `s.as_bytes()`. */
  function Encode(s: string): (r: Bytes)
    ensures |r| >= |s|
  {
    if s == [] then [] else Encode(s[..|s| - 1]) + EncodeChar(s[|s| - 1])
  }

  /** Encoding is character by character: the bytes of a concatenation are
      the bytes of each part. */
  lemma {:induction false} EncodeAppend(a: string, b: string)
    ensures Encode(a + b) == Encode(a) + Encode(b)
    decreases |b|
  {
    if b == [] {
      assert a + b == a;
    } else {
      assert (a + b)[..|a + b| - 1] == a + b[..|b| - 1];
      EncodeAppend(a, b[..|b| - 1]);
    }
  }

  predicate IsAscii(s: string) {
    forall i | 0 <= i < |s| :: (s[i] as int) < 0x80
  }

  /** An ASCII string is encoded as its own character codes, one byte each. */
  lemma {:induction false} EncodeAscii(s: string)
    requires IsAscii(s)
    ensures |Encode(s)| == |s|
    ensures forall i | 0 <= i < |s| :: Encode(s)[i] == s[i] as int
  {
    if s != [] {
      EncodeAscii(s[..|s| - 1]);
    }
  }

  /** A byte below 0x80 in an encoding is exactly an ASCII character of the
      string: bytes of multi-byte sequences are all 0x80 or above. */
  lemma {:induction false} AsciiByteIsAsciiChar(s: string, b: int)
    requires b < 0x80
    ensures (exists i | 0 <= i < |Encode(s)| :: Encode(s)[i] == b)
        <==> (exists j | 0 <= j < |s| :: s[j] as int == b)
  {
    if s != [] {
      var init, last := s[..|s| - 1], s[|s| - 1];
      AsciiByteIsAsciiChar(init, b);
      var e, l := Encode(init), EncodeChar(last);
      assert Encode(s) == e + l;
      if exists i | 0 <= i < |Encode(s)| :: Encode(s)[i] == b {
        var i :| 0 <= i < |Encode(s)| && Encode(s)[i] == b;
        if i < |e| {
          var j :| 0 <= j < |init| && init[j] as int == b;
          assert s[j] == init[j];
        } else {
          assert l[i - |e|] == b;
          assert s[|s| - 1] as int == b;
        }
      }
      if exists j | 0 <= j < |s| :: s[j] as int == b {
        var j :| 0 <= j < |s| && s[j] as int == b;
        if j < |init| {
          assert init[j] == s[j];
          var i :| 0 <= i < |e| && e[i] == b;
          assert Encode(s)[i] == b;
        } else {
          assert Encode(s)[|e|] == b;
        }
      }
    }
  }
}
