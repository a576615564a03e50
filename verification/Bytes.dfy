/** Octets and the fixed-width integer encodings the codecs share. */
module Bytes {
  type byte = b: int | 0 <= b < 256

  const U16_LIMIT := 0x1_0000
  const U32_LIMIT := 0x1_0000_0000
  const U64_LIMIT := 0x1_0000_0000_0000_0000

  /** The octets of consecutive blocks. */
  function Concat(blocks: seq<seq<byte>>): seq<byte> {
    if blocks == [] then [] else blocks[0] + Concat(blocks[1..])
  }

  lemma ConcatCons(first: seq<byte>, rest: seq<seq<byte>>)
    ensures Concat([first] + rest) == first + Concat(rest)
  {
    assert ([first] + rest)[1..] == rest;
  }

  lemma {:induction false} ConcatSplit(blocks: seq<seq<byte>>, k: nat)
    requires k <= |blocks|
    ensures Concat(blocks[..k]) + Concat(blocks[k..]) == Concat(blocks)
  {
    if k == 0 {
      assert blocks[..0] == [] && blocks[0..] == blocks;
    } else {
      ConcatSplit(blocks[1..], k - 1);
      assert blocks[..k][1..] == blocks[1..][..k - 1] && blocks[1..][k - 1..] == blocks[k..];
    }
  }

  /** `u32::to_le_bytes`. */
  function Le4(n: nat): (s: seq<byte>)
    requires n < U32_LIMIT
  {
    [n % 256, n / 256 % 256, n / 0x1_0000 % 256, n / 0x100_0000]
  }

  /** `u32::from_le_bytes` at `s[at..at + 4]`. */
  function FromLe4(s: seq<byte>, at: nat): (n: nat)
    requires at + 4 <= |s|
  {
    var b0: int, b1: int, b2: int, b3: int := s[at], s[at + 1], s[at + 2], s[at + 3];
    b0 + 256 * b1 + 0x1_0000 * b2 + 0x100_0000 * b3
  }

  lemma Le4RoundTrip(n: nat)
    requires n < U32_LIMIT
    ensures FromLe4(Le4(n), 0) == n
  {
    assert n / 0x1_0000 == n / 256 / 256 && n / 0x100_0000 == n / 256 / 256 / 256;
  }

  lemma Le4Unique(s: seq<byte>, at: nat)
    requires at + 4 <= |s|
    ensures FromLe4(s, at) < U32_LIMIT && Le4(FromLe4(s, at)) == s[at..at + 4]
  {
    var n := FromLe4(s, at);
    assert n / 256 == s[at + 1] + 256 * (s[at + 2] as int) + 0x1_0000 * (s[at + 3] as int);
    assert n / 0x1_0000 == s[at + 2] + 256 * (s[at + 3] as int);
  }

  function Pow256(k: nat): (p: nat)
    ensures p > 0
  {
    if k == 0 then 1 else 256 * Pow256(k - 1)
  }

  /** Big-endian octets of `n`, most significant first. */
  function ToBe(n: nat, width: nat): (s: seq<byte>)
    ensures |s| == width
  {
    if width == 0 then [] else ToBe(n / 256, width - 1) + [n % 256]
  }

  /** The number a big-endian octet string denotes. */
  function FromBe(s: seq<byte>): (n: nat)
  {
    if s == [] then 0 else 256 * FromBe(s[..|s| - 1]) + s[|s| - 1]
  }

  lemma {:induction false} BeRoundTrip(n: nat, width: nat)
    requires n < Pow256(width)
    ensures FromBe(ToBe(n, width)) == n
  {
    if width > 0 {
      BeRoundTrip(n / 256, width - 1);
      assert ToBe(n, width)[..width - 1] == ToBe(n / 256, width - 1);
    }
  }

  lemma {:induction false} BeBound(s: seq<byte>)
    ensures FromBe(s) < Pow256(|s|)
  {
    if s != [] {
      BeBound(s[..|s| - 1]);
    }
  }

  /** Reading octets as a number and writing it back at the same width is the identity. */
  lemma {:induction false} BeUnique(s: seq<byte>)
    ensures ToBe(FromBe(s), |s|) == s
  {
    if s != [] {
      BeUnique(s[..|s| - 1]);
      assert s == s[..|s| - 1] + [s[|s| - 1]];
    }
  }

  lemma Pow256Values()
    ensures Pow256(1) == 256
    ensures Pow256(2) == U16_LIMIT
    ensures Pow256(3) == 0x100_0000
    ensures Pow256(4) == U32_LIMIT
    ensures Pow256(8) == U64_LIMIT
  {
    assert Pow256(2) == 256 * Pow256(1);
    assert Pow256(3) == 256 * Pow256(2);
    assert Pow256(4) == 256 * Pow256(3);
    assert Pow256(5) == 256 * Pow256(4);
    assert Pow256(6) == 256 * Pow256(5);
    assert Pow256(7) == 256 * Pow256(6);
    assert Pow256(8) == 256 * Pow256(7);
  }

  /** The octet of weight `256^k`. */
  function Digit(n: nat, k: nat): byte {
    n / Pow256(k) % 256
  }

  lemma DivideTwice(n: nat, k: nat)
    ensures n / 256 / Pow256(k) == n / Pow256(k + 1)
  {
    var p := Pow256(k);
    var q := n / 256 / p;
    assert n == 256 * (n / 256) + n % 256 && n / 256 == p * q + n / 256 % p;
    assert 256 * p * q <= n < 256 * p * (q + 1) by {
      assert p * q <= n / 256 <= p * q + p - 1;
    }
    QuotientIs(n, 256 * p, q);
  }

  lemma QuotientIs(n: nat, d: nat, q: nat)
    requires d > 0 && d * q <= n < d * (q + 1)
    ensures n / d == q
  {
    var e := n / d - q;
    assert n == d * (n / d) + n % d;
    assert d * e == d * (n / d) - d * q;
    assert e >= 1 ==> d * e >= d;
    assert e <= -1 ==> d * e + d <= 0;
  }

  /** Big-endian octets are the digits of the number to the base 256, the heaviest first. */
  lemma {:induction false} BeDigits(n: nat, width: nat, i: nat)
    requires i < width
    ensures ToBe(n, width)[i] == Digit(n, width - 1 - i)
  {
    if i < width - 1 {
      BeDigits(n / 256, width - 1, i);
      DivideTwice(n, width - 2 - i);
    } else {
      assert Pow256(0) == 1;
    }
  }
}
