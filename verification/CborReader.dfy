/** `_cbor_item` as written: the remaining octets rebound in place, lists and dictionaries filled in loops. */
module CborReader {
  import opened Wrappers
  import opened Bytes
  import opened Cbor

  /** What the whole item loop returns once `got` are collected and `later` is the outcome of the rest. */
  function Prepend(got: seq<Value>, later: Result<ParsedItems, CborError>): Result<ParsedItems, CborError> {
    match later
    case Ok(ParsedItems(items, rest)) => Ok(ParsedItems(got + items, rest))
    case Err(error) => Err(error)
  }

  method ReadItem(input: seq<byte>) returns (r: Result<Parsed, CborError>)
    ensures r == Item(input)
    decreases |input|, 0
  {
    if input == [] {
      return Err(EndOfInput);
    }
    var major, info := input[0] / 32, input[0] % 32;
    var b := input[1..];
    var n: nat;
    if info < 24 {
      n := info;
    } else if Width(info) != 0 {
      var width := Width(info);
      if |b| < width {
        return Err(TruncatedArgument);
      }
      n, b := FromBe(b[..width]), b[width..];
    } else {
      return Err(ReservedArgument);
    }
    match major {
      case 0 => return Ok(Parsed(Int(n), b));
      case 1 => return Ok(Parsed(Int(-1 - n), b));
      case 2 =>
        if |b| < n {
          return Err(TruncatedString);
        }
        return Ok(Parsed(Blob(b[..n]), b[n..]));
      case 3 =>
        if |b| < n {
          return Err(TruncatedString);
        }
        if !ValidUtf8(b[..n]) {
          return Err(BadUtf8);
        }
        return Ok(Parsed(Text(b[..n]), b[n..]));
      case 4 =>
        var items := ReadItems(b, n);
        return if items.Ok? then Ok(Parsed(List(items.value.items), items.value.rest)) else Err(items.error);
      case 5 =>
        var entries := ReadEntries(b, n);
        return if entries.Ok? then Ok(Parsed(Dict(entries.value.entries), entries.value.rest)) else Err(entries.error);
      case 7 =>
        if n == 20 {
          return Ok(Parsed(Bool(false), b));
        } else if n == 21 {
          return Ok(Parsed(Bool(true), b));
        } else if n == 22 {
          return Ok(Parsed(Null, b));
        }
        return Err(UnsupportedItem);
      case _ => return Err(UnsupportedItem);
    }
  }

  method ReadItems(input: seq<byte>, n: nat) returns (r: Result<ParsedItems, CborError>)
    ensures r == Items(input, n)
    decreases |input|, 1
  {
    var b, items := input, [];
    assert Items(input, n).Ok? ==> [] + Items(input, n).value.items == Items(input, n).value.items;
    for k := 0 to n
      invariant |b| <= |input|
      invariant Items(input, n) == Prepend(items, Items(b, n - k))
    {
      var item := ReadItem(b);
      if item.Err? {
        return Err(item.error);
      }
      ghost var later := Items(item.value.rest, n - k - 1);
      assert later.Ok? ==>
          items + ([item.value.value] + later.value.items) == items + [item.value.value] + later.value.items;
      items := items + [item.value.value];
      b := item.value.rest;
    }
    assert items + [] == items;
    return Ok(ParsedItems(items, b));
  }

  method ReadEntries(input: seq<byte>, n: nat) returns (r: Result<ParsedEntries, CborError>)
    ensures r == Entries(input, n, [])
    decreases |input|, 1
  {
    var b, entries := input, [];
    for k := 0 to n
      invariant |b| <= |input|
      invariant Entries(input, n, []) == Entries(b, n - k, entries)
    {
      var key := ReadItem(b);
      if key.Err? {
        return Err(key.error);
      }
      var value := ReadItem(key.value.rest);
      if value.Err? {
        return Err(value.error);
      }
      if !Hashable(key.value.value) {
        return Err(UnhashableKey);
      }
      entries := Assign(entries, key.value.value, value.value.value);
      b := value.value.rest;
    }
    return Ok(ParsedEntries(entries, b));
  }

  /** `cbor_decode`: one item that fills the input. */
  method ReadWhole(input: seq<byte>) returns (r: Result<Value, CborError>)
    ensures r == Decode(input)
  {
    var item := ReadItem(input);
    if item.Err? {
      return Err(item.error);
    }
    return if item.value.rest != [] then Err(TrailingBytes) else Ok(item.value.value);
  }
}
