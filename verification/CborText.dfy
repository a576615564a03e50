/** The text a decoder accepts is exactly what Unicode scalar values spell (RFC 3629 section 3). */
module CborText {
  import opened Bytes
  import opened Cbor

  /** A code point that is no surrogate. */
  type Scalar = p: nat | p < 0xD800 || 0xE000 <= p < 0x11_0000

  function Octets(p: Scalar): seq<byte> {
    if p < 0x80 then [p]
    else if p < 0x800 then [0xC0 + p / 64, 0x80 + p % 64]
    else if p < 0x1_0000 then [0xE0 + p / 4096, 0x80 + p / 64 % 64, 0x80 + p % 64]
    else [0xF0 + p / 262_144, 0x80 + p / 4096 % 64, 0x80 + p / 64 % 64, 0x80 + p % 64]
  }

  function Spelled(ps: seq<Scalar>): seq<byte> {
    if ps == [] then [] else Octets(ps[0]) + Spelled(ps[1..])
  }

  lemma ScalarIsTaken(p: Scalar, rest: seq<byte>)
    ensures ScalarLength(Octets(p) + rest) == |Octets(p)|
  {
    if 0x800 <= p < 0x1_0000 {
      ThreeOctets(p);
    } else if p >= 0x1_0000 {
      FourOctets(p);
    }
  }

  lemma ThreeOctets(p: Scalar)
    requires 0x800 <= p < 0x1_0000
    ensures p / 4096 < 16
    ensures p / 4096 == 0 ==> p / 64 % 64 >= 32
    ensures p / 4096 == 13 ==> p / 64 % 64 < 32
  {
    assert p == 4096 * (p / 4096) + 64 * (p / 64 % 64) + p % 64;
  }

  lemma FourOctets(p: Scalar)
    requires p >= 0x1_0000
    ensures p / 262_144 < 5
    ensures p / 262_144 == 0 ==> p / 4096 % 64 >= 16
    ensures p / 262_144 == 4 ==> p / 4096 % 64 < 16
  {
    assert p == 262_144 * (p / 262_144) + 4096 * (p / 4096 % 64) + p % 4096;
  }

  lemma SixBitDigits(a: nat, b: nat, c: nat, d: nat)
    requires b < 64 && c < 64 && d < 64
    ensures var p := 262_144 * a + 4096 * b + 64 * c + d;
            && p / 262_144 == a && p / 4096 == 64 * a + b && p / 64 == 4096 * a + 64 * b + c
            && p / 4096 % 64 == b && p / 64 % 64 == c && p % 64 == d
  {
    var p := 262_144 * a + 4096 * b + 64 * c + d;
    QuotientIs(p, 262_144, a);
    QuotientIs(p, 4096, 64 * a + b);
    QuotientIs(p, 64, 4096 * a + 64 * b + c);
    QuotientIs(64 * a + b, 64, a);
    QuotientIs(4096 * a + 64 * b + c, 64, 64 * a + b);
  }

  lemma TakenIsAScalar(s: seq<byte>) returns (p: Scalar)
    requires ScalarLength(s) > 0
    ensures s[..ScalarLength(s)] == Octets(p)
  {
    var n := ScalarLength(s);
    var a: int := s[0];
    if n == 1 {
      p := a;
    } else if n == 2 {
      var b: int := s[1];
      SixBitDigits(0, 0, a - 0xC0, b - 0x80);
      p := 64 * (a - 0xC0) + (b - 0x80);
    } else if n == 3 {
      var b: int, c: int := s[1], s[2];
      SixBitDigits(0, a - 0xE0, b - 0x80, c - 0x80);
      p := 4096 * (a - 0xE0) + 64 * (b - 0x80) + (c - 0x80);
    } else {
      var b: int, c: int, d: int := s[1], s[2], s[3];
      SixBitDigits(a - 0xF0, b - 0x80, c - 0x80, d - 0x80);
      p := 262_144 * (a - 0xF0) + 4096 * (b - 0x80) + 64 * (c - 0x80) + (d - 0x80);
    }
  }

  lemma {:induction false} SpelledIsValid(ps: seq<Scalar>)
    ensures ValidUtf8(Spelled(ps))
  {
    if ps != [] {
      hide Octets, ScalarLength;
      SpelledIsValid(ps[1..]);
      ScalarIsTaken(ps[0], Spelled(ps[1..]));
      assert Spelled(ps)[|Octets(ps[0])|..] == Spelled(ps[1..]);
      ScalarHasOctets(ps[0]);
    }
  }

  lemma ScalarHasOctets(p: Scalar)
    ensures Octets(p) != []
  {
  }

  lemma {:induction false} ValidIsSpelled(s: seq<byte>) returns (ps: seq<Scalar>)
    requires ValidUtf8(s)
    ensures Spelled(ps) == s
  {
    if s == [] {
      ps := [];
    } else {
      hide Octets, ScalarLength;
      var p := TakenIsAScalar(s);
      var rest := ValidIsSpelled(s[ScalarLength(s)..]);
      ps := [p] + rest;
      assert ps[1..] == rest;
      assert s == s[..ScalarLength(s)] + s[ScalarLength(s)..];
    }
  }

  /** Octets are taken for text if and only if some Unicode scalar values spell them. */
  lemma TextIsUnicode(s: seq<byte>)
    ensures ValidUtf8(s) <==> exists ps: seq<Scalar> :: Spelled(ps) == s
  {
    if ValidUtf8(s) {
      var ps := ValidIsSpelled(s);
      assert Spelled(ps) == s;
    }
    if ps: seq<Scalar> :| Spelled(ps) == s {
      SpelledIsValid(ps);
    }
  }
}
