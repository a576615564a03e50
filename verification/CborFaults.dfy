/** What the decoder says of octets that are no item. */
module CborFaults {
  import opened Wrappers
  import opened Bytes
  import opened Cbor
  import opened CborProofs

  /** How many octets of argument follow an initial octet with this information. */
  function Following(info: nat): nat {
    if info == 24 then 1 else if info == 25 then 2 else if info == 26 then 4 else if info == 27 then 8 else 0
  }

  /** The number an initial octet and its argument name. */
  function Named(b: seq<byte>): nat
    requires b != [] && 1 + Following(b[0] % 32) <= |b|
  {
    if b[0] % 32 < 24 then b[0] % 32 else FromBe(b[1..1 + Following(b[0] % 32)])
  }

  /** The first octet and its argument decide: nothing there, a reserved form, an argument or a string cut short. */
  lemma FaultsAreNamed(b: seq<byte>)
    ensures var r := Item(b);
      if b == [] then r == Err(EndOfInput)
      else if b[0] % 32 >= 28 then r == Err(ReservedArgument)
      else if |b| < 1 + Following(b[0] % 32) then r == Err(TruncatedArgument)
      else
        var major, n, rest := b[0] / 32, Named(b), b[1 + Following(b[0] % 32)..];
        if (major == 2 || major == 3) && |rest| < n then r == Err(TruncatedString)
        else if major == 3 && !ValidUtf8(rest[..n]) then r == Err(BadUtf8)
        else if major == 6 || (major == 7 && n != 20 && n != 21 && n != 22) then r == Err(UnsupportedItem)
        else major != 4 && major != 5 ==> r.Ok?
  {
    if b != [] && b[0] % 32 < 28 && |b| >= 1 + Following(b[0] % 32) {
      var w := Following(b[0] % 32);
      assert b[1..][..w] == b[1..1 + w] && b[1..][w..] == b[1 + w..];
      hide FromBe, ValidUtf8, Items, Entries;
    }
  }

  /** A fault behind items that decode is the fault of the whole list. */
  lemma {:induction false} FaultBehindItems(items: seq<Value>, rest: seq<byte>, n: nat)
    requires forall i :: 0 <= i < |items| ==> Encodable(items[i])
    requires |items| <= n && Items(rest, n - |items|).Err?
    ensures Items(EncodeAll(items) + rest, n) == Err(Items(rest, n - |items|).error)
  {
    if items == [] {
      assert EncodeAll(items) + rest == rest;
    } else {
      hide Item, Encode;
      var behind := EncodeAll(items[1..]) + rest;
      assert EncodeAll(items) + rest == Encode(items[0]) + behind;
      RoundTrip(items[0], behind);
      FaultBehindItems(items[1..], rest, n - 1);
    }
  }

  /** A list stops at its first fault. */
  lemma ListStopsAtItsFault(b: seq<byte>, n: nat)
    requires n > 0 && Item(b).Err?
    ensures Items(b, n) == Err(Item(b).error)
  {
  }

  /** An entry is refused for its key, its value, or a key that is a list or a dictionary, in that order. */
  lemma EntryStopsAtItsFault(b: seq<byte>, n: nat, entries: seq<Entry>)
    requires n > 0
    ensures Item(b).Err? ==> Entries(b, n, entries) == Err(Item(b).error)
    ensures Item(b).Ok? ==>
              var key, rest := Item(b).value.value, Item(b).value.rest;
              if Item(rest).Err? then Entries(b, n, entries) == Err(Item(rest).error)
              else (key.List? || key.Dict?) ==> Entries(b, n, entries) == Err(UnhashableKey)
  {
    hide Item;
  }

  /** Octets behind the one item are refused, whatever they are. */
  lemma OneItemOnly(v: Value, more: seq<byte>)
    requires Encodable(v) && more != []
    ensures Decode(Encode(v) + more) == Err(TrailingBytes)
  {
    hide Item, Encode;
    RoundTrip(v, more);
  }
}
