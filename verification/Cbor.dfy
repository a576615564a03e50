/**
 * Deterministic CBOR (RFC 8949 sections 3 and 4.2.1): the encoder that sorts maps by encoded key, and
 * the decoder.
 */
module Cbor {
  import opened Wrappers
  import opened Bytes

  /** A dictionary keeps its entries in insertion order. Text is held as its UTF-8 octets. */
  datatype Value =
    | Bool(b: bool)
    | Null
    | Int(n: int)
    | Blob(octets: seq<byte>)
    | Text(utf8: seq<byte>)
    | List(items: seq<Value>)
    | Dict(entries: seq<Entry>)

  datatype Entry = Entry(key: Value, value: Value)

  datatype CborError = EndOfInput | TruncatedArgument | ReservedArgument | TruncatedString | BadUtf8 | UnhashableKey
    | UnsupportedItem | TrailingBytes | Overflow

  // ---- UTF-8 well-formedness (Unicode table 3-7) ----

  predicate IsTail(b: byte) {
    0x80 <= b < 0xC0
  }

  /** The length of the well-formed sequence at the head of `s`, or 0. */
  function ScalarLength(s: seq<byte>): (n: nat)
    ensures n <= |s|
  {
    if s == [] then 0
    else if s[0] < 0x80 then 1
    else if |s| >= 2 && 0xC2 <= s[0] < 0xE0 && IsTail(s[1]) then 2
    else if |s| >= 3 && 0xE0 <= s[0] < 0xF0 && IsTail(s[1]) && IsTail(s[2])
            && (s[0] == 0xE0 ==> s[1] >= 0xA0) && (s[0] == 0xED ==> s[1] < 0xA0) then 3
    else if |s| >= 4 && 0xF0 <= s[0] < 0xF5 && IsTail(s[1]) && IsTail(s[2]) && IsTail(s[3])
            && (s[0] == 0xF0 ==> s[1] >= 0x90) && (s[0] == 0xF4 ==> s[1] < 0x90) then 4
    else 0
  }

  predicate ValidUtf8(s: seq<byte>) {
    s == [] || (ScalarLength(s) > 0 && ValidUtf8(s[ScalarLength(s)..]))
  }

  // ---- Values the encoder accepts ----

  predicate Hashable(v: Value) {
    !v.List? && !v.Dict?
  }

  /** A key as dictionary lookup sees it: the truth values are the integers 1 and 0. */
  function AsKey(k: Value): Value {
    if k.Bool? then Int(if k.b then 1 else 0) else k
  }

  predicate DistinctKeys(entries: seq<Entry>) {
    forall i, j :: 0 <= i < j < |entries| ==> AsKey(entries[i].key) != AsKey(entries[j].key)
  }

  /**
   * What `cbor` encodes without raising: integers and lengths whose argument fits eight octets,
   * text that has a UTF-8 form, and dictionaries as Python builds them.
   */
  predicate Encodable(v: Value) {
    match v
    case Bool(_) => true
    case Null => true
    case Int(n) => -U64_LIMIT <= n < U64_LIMIT
    case Blob(octets) => |octets| < U64_LIMIT
    case Text(utf8) => |utf8| < U64_LIMIT && ValidUtf8(utf8)
    case List(items) => |items| < U64_LIMIT && forall i :: 0 <= i < |items| ==> Encodable(items[i])
    case Dict(entries) =>
      && |entries| < U64_LIMIT
      && DistinctKeys(entries)
      && forall i :: 0 <= i < |entries| ==> Hashable(entries[i].key) && EntryEncodable(entries[i])
  }

  // ---- Encoder ----

  type Major = m: int | 0 <= m < 8

  function Head(major: Major, n: nat): (h: seq<byte>)
    requires n < U64_LIMIT
  {
    if n < 24 then [32 * major + n]
    else if n < 256 then [32 * major + 24, n]
    else if n < U16_LIMIT then [32 * major + 25] + ToBe(n, 2)
    else if n < U32_LIMIT then [32 * major + 26] + ToBe(n, 4)
    else [32 * major + 27] + ToBe(n, 8)
  }

  /** Octet strings in the order of `bytes` comparison. */
  predicate Before(a: seq<byte>, b: seq<byte>) {
    if a == [] || b == [] then a == []
    else if a[0] != b[0] then a[0] < b[0]
    else Before(a[1..], b[1..])
  }

  /** The encodings of one entry. */
  datatype Code = Code(key: seq<byte>, value: seq<byte>)

  predicate CodeBefore(a: Code, b: Code) {
    if a.key == b.key then Before(a.value, b.value) else Before(a.key, b.key)
  }

  function Insert(c: Code, sorted: seq<Code>): seq<Code> {
    if sorted == [] || CodeBefore(c, sorted[0]) then [c] + sorted else [sorted[0]] + Insert(c, sorted[1..])
  }

  function Sort(codes: seq<Code>): seq<Code> {
    if codes == [] then [] else Insert(codes[0], Sort(codes[1..]))
  }

  function Join(codes: seq<Code>): seq<byte> {
    if codes == [] then [] else codes[0].key + codes[0].value + Join(codes[1..])
  }

  function Encode(v: Value): seq<byte>
    requires Encodable(v)
  {
    match v
    case Bool(b) => Head(7, if b then 21 else 20)
    case Null => Head(7, 22)
    case Int(n) => if n >= 0 then Head(0, n) else Head(1, -1 - n)
    case Blob(octets) => Head(2, |octets|) + octets
    case Text(utf8) => Head(3, |utf8|) + utf8
    case List(items) => Head(4, |items|) + EncodeAll(items)
    case Dict(entries) => Head(5, |entries|) + Join(Sort(Codes(entries)))
  }

  function EncodeAll(items: seq<Value>): seq<byte>
    requires forall i :: 0 <= i < |items| ==> Encodable(items[i])
  {
    if items == [] then [] else Encode(items[0]) + EncodeAll(items[1..])
  }

  predicate EntryEncodable(e: Entry) {
    Encodable(e.key) && Encodable(e.value)
  }

  function CodeOf(e: Entry): Code
    requires EntryEncodable(e)
  {
    Code(Encode(e.key), Encode(e.value))
  }

  function Codes(entries: seq<Entry>): (codes: seq<Code>)
    requires forall i :: 0 <= i < |entries| ==> EntryEncodable(entries[i])
    ensures |codes| == |entries|
    ensures forall i :: 0 <= i < |codes| ==> codes[i] == CodeOf(entries[i])
  {
    if entries == [] then [] else [CodeOf(entries[0])] + Codes(entries[1..])
  }

  // ---- Decoder ----

  datatype Parsed = Parsed(value: Value, rest: seq<byte>)
  datatype ParsedItems = ParsedItems(items: seq<Value>, rest: seq<byte>)
  datatype ParsedEntries = ParsedEntries(entries: seq<Entry>, rest: seq<byte>)
  datatype Argument = Argument(n: nat, rest: seq<byte>)

  function Width(info: nat): nat {
    match info
    case 24 => 1
    case 25 => 2
    case 26 => 4
    case 27 => 8
    case _ => 0
  }

  function ReadArgument(info: nat, b: seq<byte>): (r: Result<Argument, CborError>)
    ensures r.Ok? ==> |r.value.rest| <= |b|
  {
    if info < 24 then Ok(Argument(info, b))
    else if Width(info) == 0 then Err(ReservedArgument)
    else if |b| < Width(info) then Err(TruncatedArgument)
    else Ok(Argument(FromBe(b[..Width(info)]), b[Width(info)..]))
  }

  /** Assignment to a dictionary: an equal key keeps its place and its first spelling. */
  function Assign(entries: seq<Entry>, key: Value, value: Value): seq<Entry> {
    if entries == [] then [Entry(key, value)]
    else if AsKey(entries[0].key) == AsKey(key) then [Entry(entries[0].key, value)] + entries[1..]
    else [entries[0]] + Assign(entries[1..], key, value)
  }

  function Item(b: seq<byte>): (r: Result<Parsed, CborError>)
    ensures r.Ok? ==> |r.value.rest| < |b|
    decreases |b|, 0
  {
    if b == [] then Err(EndOfInput)
    else match ReadArgument(b[0] % 32, b[1..])
      case Err(error) => Err(error)
      case Ok(Argument(n, rest)) => Body(b[0] / 32, n, rest)
  }

  function Body(major: Major, n: nat, b: seq<byte>): (r: Result<Parsed, CborError>)
    ensures r.Ok? ==> |r.value.rest| <= |b|
    decreases |b|, 2
  {
    match major
    case 0 => Ok(Parsed(Int(n), b))
    case 1 => Ok(Parsed(Int(-1 - n), b))
    case 2 => if |b| < n then Err(TruncatedString) else Ok(Parsed(Blob(b[..n]), b[n..]))
    case 3 =>
      if |b| < n then Err(TruncatedString)
      else if !ValidUtf8(b[..n]) then Err(BadUtf8)
      else Ok(Parsed(Text(b[..n]), b[n..]))
    case 4 =>
      (match Items(b, n)
       case Err(error) => Err(error)
       case Ok(ParsedItems(items, rest)) => Ok(Parsed(List(items), rest)))
    case 5 =>
      (match Entries(b, n, [])
       case Err(error) => Err(error)
       case Ok(ParsedEntries(entries, rest)) => Ok(Parsed(Dict(entries), rest)))
    case 7 =>
      if n == 20 then Ok(Parsed(Bool(false), b))
      else if n == 21 then Ok(Parsed(Bool(true), b))
      else if n == 22 then Ok(Parsed(Null, b))
      else Err(UnsupportedItem)
    case _ => Err(UnsupportedItem)
  }

  function Items(b: seq<byte>, n: nat): (r: Result<ParsedItems, CborError>)
    ensures r.Ok? ==> |r.value.rest| <= |b|
    decreases |b|, 1, n
  {
    if n == 0 then Ok(ParsedItems([], b))
    else match Item(b)
      case Err(error) => Err(error)
      case Ok(Parsed(first, rest)) =>
        match Items(rest, n - 1)
        case Err(error) => Err(error)
        case Ok(ParsedItems(items, rest')) => Ok(ParsedItems([first] + items, rest'))
  }

  /** The value of an entry is decoded before its key is found unhashable. */
  function Entries(b: seq<byte>, n: nat, entries: seq<Entry>): (r: Result<ParsedEntries, CborError>)
    ensures r.Ok? ==> |r.value.rest| <= |b|
    decreases |b|, 1, n
  {
    if n == 0 then Ok(ParsedEntries(entries, b))
    else match Item(b)
      case Err(error) => Err(error)
      case Ok(Parsed(key, rest)) =>
        match Item(rest)
        case Err(error) => Err(error)
        case Ok(Parsed(value, rest')) =>
          if !Hashable(key) then Err(UnhashableKey) else Entries(rest', n - 1, Assign(entries, key, value))
  }

  function Decode(b: seq<byte>): Result<Value, CborError> {
    match Item(b)
    case Err(error) => Err(error)
    case Ok(Parsed(value, rest)) => if rest == [] then Ok(value) else Err(TrailingBytes)
  }
}
