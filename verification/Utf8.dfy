/** What the check on `string` fields means: a byte sequence passes if and only if it is the UTF-8 encoding of a
    sequence of Unicode scalar values (RFC 3629, section 3). */
module Utf8 {
  import opened Wire

  /** A code point that is not a surrogate. */
  type Scalar = x: int | 0 <= x < 0x11_0000 && !(0xD800 <= x < 0xE000)

  function EncodeScalar(c: Scalar): (bs: bytes)
    ensures bs != []
  {
    if c < 0x80 then [c]
    else if c < 0x800 then [0xC0 + c / 64, 0x80 + c % 64]
    else if c < 0x1_0000 then [0xE0 + c / 4096, 0x80 + c / 64 % 64, 0x80 + c % 64]
    else [0xF0 + c / 262144, 0x80 + c / 4096 % 64, 0x80 + c / 64 % 64, 0x80 + c % 64]
  }

  function EncodeText(cs: seq<Scalar>): bytes {
    if cs == [] then [] else EncodeScalar(cs[0]) + EncodeText(cs[1..])
  }

  /** The encoding of a scalar value in front changes nothing. */
  lemma ScalarFirst(c: Scalar, rest: bytes)
    ensures ValidUtf8(EncodeScalar(c) + rest) <==> ValidUtf8(rest)
  {
    var s := EncodeScalar(c) + rest;
    assert s[|EncodeScalar(c)|..] == rest;
    if c < 0x80 {
      assert s[0] == c && s[1..] == rest;
    } else if c < 0x800 {
      assert 0xC2 <= s[0] <= 0xDF && s[2..] == rest;
    } else if c < 0x1_0000 {
      assert 0xE0 <= s[0] <= 0xEF && s[3..] == rest;
    } else {
      assert 0xF0 <= s[0] <= 0xF4 && s[4..] == rest;
    }
  }

  lemma {:induction false} EncodedIsValid(cs: seq<Scalar>)
    ensures ValidUtf8(EncodeText(cs))
  {
    if cs != [] {
      EncodedIsValid(cs[1..]);
      ScalarFirst(cs[0], EncodeText(cs[1..]));
    }
  }

  lemma Digits(h: nat, l: nat)
    requires l < 64
    ensures (64 * h + l) / 64 == h && (64 * h + l) % 64 == l
  {
  }

  lemma TwoBytes(a: nat, b: nat) returns (c: Scalar)
    requires 2 <= a < 32 && b < 64
    ensures EncodeScalar(c) == [0xC0 + a, 0x80 + b]
  {
    Digits(a, b);
    c := 64 * a + b;
  }

  lemma ThreeBytes(a: nat, b: nat, d: nat) returns (c: Scalar)
    requires a < 16 && b < 64 && d < 64 && (a == 0 ==> b >= 32) && (a == 13 ==> b < 32)
    ensures EncodeScalar(c) == [0xE0 + a, 0x80 + b, 0x80 + d]
  {
    Digits(a, b);
    Digits(64 * a + b, d);
    c := 64 * (64 * a + b) + d;
    assert c / 4096 == c / 64 / 64;
  }

  lemma FourBytes(a: nat, b: nat, d: nat, e: nat) returns (c: Scalar)
    requires a < 5 && b < 64 && d < 64 && e < 64 && (a == 0 ==> b >= 16) && (a == 4 ==> b < 16)
    ensures EncodeScalar(c) == [0xF0 + a, 0x80 + b, 0x80 + d, 0x80 + e]
  {
    Digits(a, b);
    Digits(64 * a + b, d);
    Digits(64 * (64 * a + b) + d, e);
    c := 64 * (64 * (64 * a + b) + d) + e;
    assert c / 4096 == c / 64 / 64 && c / 262144 == c / 64 / 64 / 64;
  }

  /** A valid sequence starts with the encoding of a scalar value. */
  lemma FirstScalar(s: bytes) returns (c: Scalar)
    requires ValidUtf8(s) && s != []
    ensures var n := |EncodeScalar(c)|; n <= |s| && s[..n] == EncodeScalar(c) && ValidUtf8(s[n..])
  {
    hide EncodeScalar;
    if s[0] <= 0x7F {
      c := OneByte(s[0]);
    } else if s[0] <= 0xDF {
      c := TwoBytes(s[0] as int - 0xC0, s[1] as int - 0x80);
    } else if s[0] <= 0xEF {
      c := ThreeBytes(s[0] as int - 0xE0, s[1] as int - 0x80, s[2] as int - 0x80);
    } else {
      c := FourBytes(s[0] as int - 0xF0, s[1] as int - 0x80, s[2] as int - 0x80, s[3] as int - 0x80);
    }
  }

  lemma OneByte(a: nat) returns (c: Scalar)
    requires a < 0x80
    ensures EncodeScalar(c) == [a]
  {
    c := a;
  }

  lemma {:induction false} ValidIsEncoded(s: bytes) returns (cs: seq<Scalar>)
    requires ValidUtf8(s)
    ensures s == EncodeText(cs)
    decreases |s|
  {
    cs := [];
    if s != [] {
      var c := FirstScalar(s);
      var rest := ValidIsEncoded(s[|EncodeScalar(c)|..]);
      cs := [c] + rest;
    }
  }

  lemma ValidIff(s: bytes)
    ensures ValidUtf8(s) <==> exists cs :: s == EncodeText(cs)
  {
    if ValidUtf8(s) {
      var cs := ValidIsEncoded(s);
    }
    if cs :| s == EncodeText(cs) {
      EncodedIsValid(cs);
    }
  }

  /** In particular every ASCII string passes. */
  lemma {:induction false} AsciiIsValid(s: bytes)
    requires forall i | 0 <= i < |s| :: s[i] < 0x80
    ensures ValidUtf8(s)
  {
    if s != [] {
      AsciiIsValid(s[1..]);
    }
  }
}
