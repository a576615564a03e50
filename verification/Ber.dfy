/**
 * BER-TLV records with one- and two-octet tags and lengths up to the four-octet long form (ITU-T
 * X.690 section 8.1).
 */
module Ber {
  import opened Wrappers
  import opened Bytes

  type Tag = t: int | 0 <= t < 0x1_0000

  datatype Record = Record(tag: Tag, value: seq<byte>)

  datatype EncodeError = LengthTooLarge(got: nat) | MalformedTag(tag: Tag)

  datatype BerError = Empty | Truncated | UnsupportedLengthForm | UnsupportedTagForm

  /** A parsed record: its tag, its value, and the octets it occupied. */
  datatype Tlv = Tlv(tag: Tag, value: seq<byte>, size: nat)

  // ---- Well-formed tags and their octets ----

  predicate IsLeader(b: byte) {
    b % 32 == 31
  }

  predicate OneOctetTag(t: Tag) {
    t < 256 && !IsLeader(t)
  }

  predicate TwoOctetTag(t: Tag) {
    IsLeader(t / 256) && t % 256 < 128
  }

  predicate WellFormed(t: Tag) {
    OneOctetTag(t) || TwoOctetTag(t)
  }

  function TagOctets(t: Tag): seq<byte>
    requires WellFormed(t)
  {
    if OneOctetTag(t) then [t] else [t / 256, t % 256]
  }

  function JoinTag(high: byte, low: byte): Tag {
    var h: int, l: int := high, low;
    256 * h + l
  }

  /** The shortest length form. */
  function LengthOctets(n: nat): seq<byte>
    requires n < U32_LIMIT
  {
    if n < 128 then [n]
    else if n < 256 then [0x81, n]
    else if n < U16_LIMIT then [0x82] + ToBe(n, 2)
    else if n < 0x100_0000 then [0x83] + ToBe(n, 3)
    else [0x84] + ToBe(n, 4)
  }

  predicate Encodable(r: Record) {
    WellFormed(r.tag) && |r.value| < U32_LIMIT
  }

  function Encode(r: Record): seq<byte>
    requires Encodable(r)
  {
    TagOctets(r.tag) + LengthOctets(|r.value|) + r.value
  }

  // ---- The building buffer ----

  class BerEncoder {
    var out: seq<byte>

    constructor ()
      ensures out == []
    {
      out := [];
    }

    method PushLength(n: nat) returns (r: Result<(), EncodeError>)
      modifies this
      ensures r.Ok? <==> n < U32_LIMIT
      ensures if r.Ok? then out == old(out) + LengthOctets(n) else r.error == LengthTooLarge(n) && out == old(out)
    {
      if n < 128 {
        out := out + [n];
      } else if n < 256 {
        out := out + [0x81];
        out := out + [n];
      } else if n < U16_LIMIT {
        out := out + [0x82];
        out := out + ToBe(n, 2);
      } else if n < 0x100_0000 {
        out := out + [0x83];
        out := out + ToBe(n, 3);
      } else if n < U32_LIMIT {
        out := out + [0x84];
        out := out + ToBe(n, 4);
      } else {
        return Err(LengthTooLarge(n));
      }
      return Ok(());
    }

    /** A value beyond the four-octet form is refused after its tag has been pushed. */
    method PushTlv(tag: byte, value: seq<byte>) returns (r: Result<(), EncodeError>)
      modifies this
      ensures r.Ok? <==> OneOctetTag(tag) && |value| < U32_LIMIT
      ensures r.Ok? ==> out == old(out) + Encode(Record(tag, value))
      ensures r.Err? && IsLeader(tag) ==> r.error == MalformedTag(tag) && out == old(out)
      ensures r.Err? && !IsLeader(tag) ==> r.error == LengthTooLarge(|value|) && out == old(out) + [tag]
    {
      if IsLeader(tag) {
        return Err(MalformedTag(tag));
      }
      out := out + [tag];
      r := PushLength(|value|);
      if r.Ok? {
        out := out + value;
        assert out == old(out) + Encode(Record(tag, value));
      }
    }

    method PushTlvTag2(tag: Tag, value: seq<byte>) returns (r: Result<(), EncodeError>)
      modifies this
      ensures r.Ok? <==> TwoOctetTag(tag) && |value| < U32_LIMIT
      ensures r.Ok? ==> out == old(out) + Encode(Record(tag, value))
      ensures r.Err? && !TwoOctetTag(tag) ==> r.error == MalformedTag(tag) && out == old(out)
      ensures r.Err? && TwoOctetTag(tag) ==>
                r.error == LengthTooLarge(|value|) && out == old(out) + [tag / 256, tag % 256]
    {
      var high, low := tag / 256, tag % 256;
      if !IsLeader(high) || low >= 128 {
        return Err(MalformedTag(tag));
      }
      out := out + [high];
      out := out + [low];
      r := PushLength(|value|);
      if r.Ok? {
        out := out + value;
        assert out == old(out) + Encode(Record(tag, value));
      }
    }
  }

  // ---- Parsing ----

  /** A number read and the index after it. */
  datatype Cursor = Cursor(n: nat, at: nat)

  function ReadTag(b: seq<byte>): (r: Result<Cursor, BerError>)
    requires b != []
    ensures r.Ok? ==> 0 < r.value.at <= |b| && r.value.n < 0x1_0000 && WellFormed(r.value.n)
  {
    if !IsLeader(b[0]) then Ok(Cursor(b[0], 1))
    else if |b| < 2 then Err(Truncated)
    else if b[1] >= 128 then Err(UnsupportedTagForm)
    else Ok(Cursor(JoinTag(b[0], b[1]), 2))
  }

  function ReadLength(b: seq<byte>, at: nat): (r: Result<Cursor, BerError>)
    requires at <= |b|
    ensures r.Ok? ==> at < r.value.at <= |b|
  {
    if at == |b| then Err(Truncated)
    else if b[at] < 128 then Ok(Cursor(b[at], at + 1))
    else if !(0x81 <= b[at] <= 0x84) then Err(UnsupportedLengthForm)
    else if at + 1 + b[at] % 16 > |b| then Err(Truncated)
    else Ok(Cursor(FromBe(b[at + 1..at + 1 + b[at] % 16]), at + 1 + b[at] % 16))
  }

  function Parse(b: seq<byte>): (r: Result<Tlv, BerError>)
    ensures r.Ok? ==> 0 < r.value.size <= |b|
  {
    if b == [] then Err(Empty)
    else match ReadTag(b)
      case Err(error) => Err(error)
      case Ok(Cursor(tag, start)) =>
        match ReadLength(b, start)
        case Err(error) => Err(error)
        case Ok(Cursor(n, at)) =>
          if at + n > |b| then Err(Truncated) else Ok(Tlv(tag, b[at..at + n], at + n))
  }

  /** The parser as written, one index walked over the input and the length folded octet by octet. */
  method ParseTlv(bytes: seq<byte>) returns (r: Result<Tlv, BerError>)
    ensures r == Parse(bytes)
  {
    var idx := 0;
    if bytes == [] {
      return Err(Empty);
    }
    var first := bytes[idx];
    idx := idx + 1;
    var tag: Tag := first;
    if IsLeader(first) {
      if idx >= |bytes| {
        return Err(Truncated);
      }
      var second := bytes[idx];
      idx := idx + 1;
      if second >= 128 {
        return Err(UnsupportedTagForm);
      }
      tag := JoinTag(first, second);
    }
    if idx >= |bytes| {
      return Err(Truncated);
    }
    var lenFirst := bytes[idx];
    idx := idx + 1;
    var length: nat := lenFirst;
    if lenFirst >= 128 {
      if !(0x81 <= lenFirst <= 0x84) {
        return Err(UnsupportedLengthForm);
      }
      var count := lenFirst % 16;
      if idx + count > |bytes| {
        return Err(Truncated);
      }
      var octets := bytes[idx..idx + count];
      idx := idx + count;
      length := 0;
      for k := 0 to |octets|
        invariant length == FromBe(octets[..k])
      {
        assert octets[..k + 1][..k] == octets[..k];
        length := length * 256 + octets[k];
      }
      assert octets[..|octets|] == octets;
    }
    if idx + length > |bytes| {
      return Err(Truncated);
    }
    return Ok(Tlv(tag, bytes[idx..idx + length], idx + length));
  }

  // ---- Iterating ----

  /** Everything the iterator yields over `b`: it stops after an error. */
  function Yielded(b: seq<byte>): seq<Result<Tlv, BerError>> {
    if b == [] then []
    else match Parse(b)
      case Ok(t) => [Ok(t)] + Yielded(b[t.size..])
      case Err(error) => [Err(error)]
  }

  class BerTlvIter {
    var remaining: seq<byte>

    constructor (value: seq<byte>)
      ensures remaining == value
    {
      remaining := value;
    }

    method Next() returns (r: Option<Result<Tlv, BerError>>)
      modifies this
      ensures old(Yielded(remaining)) == (if r.Some? then [r.value] else []) + Yielded(remaining)
      ensures r.None? <==> old(remaining) == []
    {
      if remaining == [] {
        return None;
      }
      var parsed := ParseTlv(remaining);
      if parsed.Ok? {
        remaining := remaining[parsed.value.size..];
      } else {
        remaining := [];
      }
      return Some(parsed);
    }
  }
}
