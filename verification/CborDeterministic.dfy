/** Which octets the decoder accepts are the ones the encoder writes (RFC 8949 section 4.2.1). */
module CborDeterministic {
  import opened Wrappers
  import opened Bytes
  import opened Cbor
  import opened CborProofs
  import opened CborShortest

  // ---- Deterministic octets ----

  /** The least argument that needs the width `info` announces. */
  function LeastArgument(info: nat): nat {
    match info
    case 24 => 24
    case 25 => 256
    case 26 => U16_LIMIT
    case 27 => U32_LIMIT
    case _ => 0
  }

  /** No shorter head carries the argument of this one. */
  predicate ShortArgument(info: nat, b: seq<byte>) {
    ReadArgument(info, b).Ok? && ReadArgument(info, b).value.n >= LeastArgument(info)
  }

  /** The octets of the item at the head of `b`. */
  function ItemOctets(b: seq<byte>): seq<byte>
    requires Item(b).Ok?
  {
    b[..|b| - |Item(b).value.rest|]
  }

  /** Lexicographic order: one string begins the other, or the first octet that differs is lower. */
  ghost predicate Precedes(a: seq<byte>, b: seq<byte>) {
    a <= b || exists k :: 0 <= k < |a| && k < |b| && a[..k] == b[..k] && a[k] < b[k]
  }

  /** The order the encoder sorts keys by is the lexicographic one. */
  lemma {:induction false} SortsByOctets(a: seq<byte>, b: seq<byte>)
    ensures Before(a, b) <==> Precedes(a, b)
  {
    if a != [] && b != [] {
      if a[0] == b[0] {
        SortsByOctets(a[1..], b[1..]);
        PrecedesBehind(a, b);
      } else if a[0] < b[0] {
        assert a[..0] == b[..0] && a[0] < b[0];
      } else {
        NotPrecedes(a, b);
      }
    }
  }

  lemma PrecedesBehind(a: seq<byte>, b: seq<byte>)
    requires a != [] && b != [] && a[0] == b[0]
    ensures Precedes(a, b) <==> Precedes(a[1..], b[1..])
  {
    var c, d := a[1..], b[1..];
    assert a == [a[0]] + c && b == [b[0]] + d;
    if Precedes(c, d) && !(c <= d) {
      var k :| 0 <= k < |c| && k < |d| && c[..k] == d[..k] && c[k] < d[k];
      assert a[..k + 1] == [a[0]] + c[..k] && b[..k + 1] == [b[0]] + d[..k] && a[k + 1] < b[k + 1];
    }
    if Precedes(a, b) && !(a <= b) {
      var k :| 0 <= k < |a| && k < |b| && a[..k] == b[..k] && a[k] < b[k];
      assert a[..k][1..] == c[..k - 1] && b[..k][1..] == d[..k - 1] && c[k - 1] < d[k - 1];
    }
  }

  lemma NotPrecedes(a: seq<byte>, b: seq<byte>)
    requires a != [] && b != [] && a[0] > b[0]
    ensures !Precedes(a, b)
  {
    forall k | 0 <= k < |a| && k < |b| && a[k] < b[k] ensures a[..k] != b[..k] {
      assert k > 0 && a[..k][0] == a[0] && b[..k][0] == b[0];
    }
  }

  /** Keys Python takes for one: an integer 0 or 1 and then the truth value it equals. */
  predicate Clash(a: seq<byte>, b: seq<byte>) {
    (a == [0x00] && b == [0xF4]) || (a == [0x01] && b == [0xF5])
  }

  /** A key that sorts after every key before it, and is none of them to Python. */
  ghost predicate NextKey(seen: seq<seq<byte>>, key: seq<byte>) {
    forall i :: 0 <= i < |seen| ==> Precedes(seen[i], key) && seen[i] != key && !Clash(seen[i], key)
  }

  /**
   * The item at the head of `b` is deterministic: at every depth the heads are the shortest and the
   * encoded keys of a map strictly ascend, no two of them equal to Python.
   */
  ghost predicate Deterministic(b: seq<byte>)
    decreases |b|, 0
  {
    && b != [] && ShortArgument(b[0] % 32, b[1..])
    && var a := ReadArgument(b[0] % 32, b[1..]).value;
       DeterministicBody(b[0] / 32, a.n, a.rest)
  }

  ghost predicate DeterministicBody(major: Major, n: nat, b: seq<byte>)
    decreases |b|, 2
  {
    (major == 4 ==> DeterministicItems(b, n)) && (major == 5 ==> DeterministicEntries(b, n, []))
  }

  ghost predicate DeterministicItems(b: seq<byte>, n: nat)
    decreases |b|, 1, n
  {
    n > 0 ==> Item(b).Ok? && Deterministic(b) && DeterministicItems(Item(b).value.rest, n - 1)
  }

  ghost predicate DeterministicEntries(b: seq<byte>, n: nat, seen: seq<seq<byte>>)
    decreases |b|, 1, n
  {
    n > 0 ==>
      && Item(b).Ok? && Deterministic(b) && NextKey(seen, ItemOctets(b))
      && var rest := Item(b).value.rest;
         && Item(rest).Ok? && Deterministic(rest)
         && DeterministicEntries(Item(rest).value.rest, n - 1, seen + [ItemOctets(b)])
  }

  // ---- The encoder writes deterministic octets ----

  lemma HeadIsShort(major: Major, n: nat, suffix: seq<byte>)
    requires n < U64_LIMIT
    ensures var b := Head(major, n) + suffix;
            b[0] / 32 == major && ShortArgument(b[0] % 32, b[1..])
            && ReadArgument(b[0] % 32, b[1..]).value == Argument(n, suffix)
  {
    HeadReads(major, n, suffix);
    hide ReadArgument;
  }

  lemma HeadThenBody(major: Major, n: nat, suffix: seq<byte>)
    requires n < U64_LIMIT && DeterministicBody(major, n, suffix)
    ensures Deterministic(Head(major, n) + suffix)
  {
    HeadIsShort(major, n, suffix);
    hide Head, ReadArgument, ShortArgument, DeterministicBody;
  }

  /** Every encoding, whatever follows it, is deterministic. */
  lemma {:induction false} EncodingIsDeterministic(v: Value, suffix: seq<byte>)
    requires Encodable(v)
    ensures Deterministic(Encode(v) + suffix)
    decreases v, 1
  {
    hide Head, Deterministic, DeterministicItems, DeterministicEntries;
    match v {
      case Bool(b) => HeadThenBody(7, if b then 21 else 20, suffix);
      case Null => HeadThenBody(7, 22, suffix);
      case Int(n) => HeadThenBody(if n >= 0 then 0 else 1, if n >= 0 then n else -1 - n, suffix);
      case Blob(octets) =>
        HeadThenBody(2, |octets|, octets + suffix);
        assert Encode(v) + suffix == Head(2, |octets|) + (octets + suffix);
      case Text(utf8) =>
        HeadThenBody(3, |utf8|, utf8 + suffix);
        assert Encode(v) + suffix == Head(3, |utf8|) + (utf8 + suffix);
      case List(items) =>
        ItemsAreDeterministic(items, suffix);
        HeadThenBody(4, |items|, EncodeAll(items) + suffix);
        assert Encode(v) + suffix == Head(4, |items|) + (EncodeAll(items) + suffix);
      case Dict(entries) =>
        DictIsDeterministic(v, suffix);
    }
  }

  lemma {:induction false} ItemsAreDeterministic(items: seq<Value>, suffix: seq<byte>)
    requires forall i :: 0 <= i < |items| ==> Encodable(items[i])
    ensures DeterministicItems(EncodeAll(items) + suffix, |items|)
    decreases items
  {
    hide Item, Encode, Encodable, Deterministic, Same;
    if items != [] {
      var rest := EncodeAll(items[1..]) + suffix;
      assert EncodeAll(items) + suffix == Encode(items[0]) + rest;
      RoundTrip(items[0], rest);
      EncodingIsDeterministic(items[0], rest);
      ItemsAreDeterministic(items[1..], suffix);
    }
  }

  /** The keys of codes, in order. */
  function Keys(codes: seq<Code>): (keys: seq<seq<byte>>)
    ensures |keys| == |codes| && forall i :: 0 <= i < |keys| ==> keys[i] == codes[i].key
  {
    seq(|codes|, i requires 0 <= i < |codes| => codes[i].key)
  }

  lemma {:induction false} DictIsDeterministic(v: Value, suffix: seq<byte>)
    requires v.Dict? && Encodable(v)
    ensures Deterministic(Encode(v) + suffix)
    decreases v, 0
  {
    hide Head, Backs, Ascending, DistinctCodes, Sort, Codes, DistinctKeys, Deterministic, DeterministicEntries, Join;
    var entries := v.entries;
    var codes := Sort(Codes(entries));
    SortElements(Codes(entries));
    DistinctKeysEncodeApart(entries);
    SortAscends(Codes(entries));
    var src := BackingOf(entries, codes);
    SourcesDistinct(entries, codes, src);
    BackingLength(entries, codes, src);
    EntriesAreDeterministic(v, src, codes, 0, suffix);
    assert codes[0..] == codes && Keys(codes[..0]) == [];
    HeadThenBody(5, |entries|, Join(codes) + suffix);
    assert Encode(v) + suffix == Head(5, |entries|) + (Join(codes) + suffix);
  }

  lemma BackingLength(entries: seq<Entry>, codes: seq<Code>, src: seq<Entry>)
    requires Backs(entries, src, codes)
    ensures |src| == |codes|
  {
  }

  lemma {:induction false} EntriesAreDeterministic(v: Value, src: seq<Entry>, codes: seq<Code>, k: nat,
                                                   suffix: seq<byte>)
    requires v.Dict? && Encodable(v) && Backs(v.entries, src, codes) && Ascending(codes) && k <= |codes|
    requires DistinctKeys(src) && forall i :: 0 <= i < |src| ==> Hashable(src[i].key)
    ensures DeterministicEntries(Join(codes[k..]) + suffix, |codes| - k, Keys(codes[..k]))
    decreases v, 0, |codes| - k
  {
    hide Item, Encode, Encodable, Same, Deterministic, AsKey, DistinctKeys, Ascending;
    if k < |codes| {
      var e := src[k];
      assert e in v.entries && CodeOf(e) == codes[k];
      var rest := Join(codes[k + 1..]) + suffix;
      var b := Join(codes[k..]) + suffix;
      assert codes[k..][1..] == codes[k + 1..];
      assert b == Encode(e.key) + (Encode(e.value) + rest);
      ScalarRoundTrip(e.key, Encode(e.value) + rest);
      RoundTrip(e.value, rest);
      EncodingIsDeterministic(e.key, Encode(e.value) + rest);
      EncodingIsDeterministic(e.value, rest);
      assert ItemOctets(b) == Encode(e.key) == codes[k].key;
      KeysGoOn(src, codes, k);
      EntriesAreDeterministic(v, src, codes, k + 1, suffix);
      assert Keys(codes[..k]) + [codes[k].key] == Keys(codes[..k + 1]);
    }
  }

  lemma KeysGoOn(src: seq<Entry>, codes: seq<Code>, k: nat)
    requires k < |codes| == |src| && Ascending(codes) && DistinctKeys(src)
    requires forall i :: 0 <= i < |src| ==> Hashable(src[i].key) && EntryEncodable(src[i]) && CodeOf(src[i]) == codes[i]
    ensures NextKey(Keys(codes[..k]), codes[k].key)
  {
    hide Encode, Encodable, AsKey, Before, Precedes;
    forall i | 0 <= i < k ensures Precedes(codes[i].key, codes[k].key) && !Clash(codes[i].key, codes[k].key) {
      SortsByOctets(codes[i].key, codes[k].key);
      ClashIsOneKey(src[i].key, src[k].key);
    }
  }

  /** Of two keys in order, Python takes one for the other exactly when they clash. */
  lemma ClashIsOneKey(k: Value, l: Value)
    requires Encodable(k) && Encodable(l) && Hashable(k) && Hashable(l)
    requires Before(Encode(k), Encode(l)) && Encode(k) != Encode(l)
    ensures AsKey(k) == AsKey(l) <==> Clash(Encode(k), Encode(l))
  {
    SmallKeys();
    hide Encode;
    if Clash(Encode(k), Encode(l)) {
      ScalarRoundTrip(k, []);
      ScalarRoundTrip(l, []);
      ScalarRoundTrip(Int(0), []);
      ScalarRoundTrip(Int(1), []);
      ScalarRoundTrip(Bool(false), []);
      ScalarRoundTrip(Bool(true), []);
    }
  }

  lemma SmallKeys()
    ensures Encode(Int(0)) == [0x00] && Encode(Int(1)) == [0x01]
    ensures Encode(Bool(false)) == [0xF4] && Encode(Bool(true)) == [0xF5]
  {
  }

  // ---- Deterministic octets are what the encoder writes ----

  lemma WideHead(major: Major, info: nat, s: seq<byte>)
    requires 25 <= info <= 27 && |s| == Width(info) && FromBe(s) >= LeastArgument(info)
    ensures FromBe(s) < U64_LIMIT && Head(major, FromBe(s)) == [32 * major + info] + s
  {
    Pow256Values();
    BeBound(s);
    BeUnique(s);
    hide FromBe, ToBe, Pow256;
  }

  lemma OneOctetHead(major: Major, s: seq<byte>)
    requires |s| == 1 && FromBe(s) >= 24
    ensures FromBe(s) < 256 && Head(major, FromBe(s)) == [32 * major + 24] + s
  {
    hide ToBe;
    assert s[..0] == [] && FromBe(s[..0]) == 0;
    assert FromBe(s) == s[0] && s == [s[0]];
  }

  lemma ShortHeadRebuilds(major: Major, info: nat, b: seq<byte>)
    requires info < 32 && ShortArgument(info, b)
    ensures var a := ReadArgument(info, b).value;
            a.n < U64_LIMIT && Head(major, a.n) + a.rest == [32 * major + info] + b
  {
    if info >= 24 {
      hide Head, FromBe;
      var s := b[..Width(info)];
      assert b == s + b[Width(info)..];
      if info == 24 {
        OneOctetHead(major, s);
      } else {
        WideHead(major, info, s);
      }
      assert [32 * major + info] + s + b[Width(info)..] == [32 * major + info] + b;
    }
  }

  /** The encoder writes `v`, and `rest` follows, in exactly `b`. */
  ghost predicate Writes(v: Value, rest: seq<byte>, b: seq<byte>) {
    Encodable(v) && Encode(v) + rest == b
  }

  lemma {:induction false} DeterministicReencodes(b: seq<byte>)
    requires Item(b).Ok? && Deterministic(b)
    ensures Writes(Item(b).value.value, Item(b).value.rest, b)
    decreases |b|, 0
  {
    hide Head, Body, ReadArgument, DeterministicBody, Writes, ShortArgument;
    ShortHeadRebuilds(b[0] / 32, b[0] % 32, b[1..]);
    var a := ArgumentOf(b);
    assert [32 * (b[0] / 32) + b[0] % 32] + b[1..] == b;
    BodyRebuilds(b[0] / 32, a.n, a.rest);
  }

  function ArgumentOf(b: seq<byte>): Argument
    requires b != [] && ReadArgument(b[0] % 32, b[1..]).Ok?
  {
    ReadArgument(b[0] % 32, b[1..]).value
  }

  lemma {:induction false} BodyRebuilds(major: Major, n: nat, b: seq<byte>)
    requires n < U64_LIMIT && Body(major, n, b).Ok? && DeterministicBody(major, n, b)
    ensures Writes(Body(major, n, b).value.value, Body(major, n, b).value.rest, Head(major, n) + b)
    decreases |b|, 2
  {
    hide Head, Item, Items, Entries, ValidUtf8, DeterministicItems, DeterministicEntries;
    if major == 4 {
      ItemsRebuild(b, n);
      var r := Items(b, n).value;
      assert Head(4, n) + EncodeAll(r.items) + r.rest == Head(4, n) + b;
    } else if major == 5 {
      DictRebuilds(b, n);
    } else if major == 2 || major == 3 {
      assert Head(major, n) + b[..n] + b[n..] == Head(major, n) + b;
    }
  }

  lemma {:induction false} ItemsRebuild(b: seq<byte>, n: nat)
    requires Items(b, n).Ok? && DeterministicItems(b, n)
    ensures var r := Items(b, n).value;
            && |r.items| == n
            && (forall i :: 0 <= i < |r.items| ==> Encodable(r.items[i]))
            && EncodeAll(r.items) + r.rest == b
    decreases |b|, 1, n
  {
    hide Item, Encode, Encodable, Deterministic;
    if n > 0 {
      DeterministicReencodes(b);
      var first, rest := Item(b).value.value, Item(b).value.rest;
      ItemsRebuild(rest, n - 1);
      var r := Items(b, n).value;
      assert r.items[1..] == Items(rest, n - 1).value.items;
      assert EncodeAll(r.items) + r.rest == Encode(first) + (EncodeAll(r.items[1..]) + r.rest);
    } else {
      assert EncodeAll([]) + b == b;
    }
  }

  /** Entries in the order of their encodings. */
  ghost predicate InOrder(entries: seq<Entry>) {
    && (forall i :: 0 <= i < |entries| ==> EntryEncodable(entries[i]))
    && Ascending(Codes(entries))
  }

  lemma CodesSnoc(entries: seq<Entry>, e: Entry)
    requires forall i :: 0 <= i < |entries| ==> EntryEncodable(entries[i])
    requires EntryEncodable(e)
    ensures forall i :: 0 <= i < |entries + [e]| ==> EntryEncodable((entries + [e])[i])
    ensures Codes(entries + [e]) == Codes(entries) + [CodeOf(e)]
  {
    hide Encode, Encodable;
    assert forall i :: 0 <= i < |entries| ==> Codes(entries + [e])[i] == Codes(entries)[i];
  }

  lemma {:induction false} JoinSnoc(codes: seq<Code>, last: Code)
    ensures Join(codes + [last]) == Join(codes) + (last.key + last.value)
  {
    if codes == [] {
      assert codes + [last] == [last] && [last][1..] == [];
    } else {
      JoinSnoc(codes[1..], last);
      assert (codes + [last])[1..] == codes[1..] + [last];
    }
  }

  lemma OrderGoesOn(entries: seq<Entry>, e: Entry)
    requires InOrder(entries) && EntryEncodable(e) && Hashable(e.key)
    requires forall i :: 0 <= i < |entries| ==> Hashable(entries[i].key)
    requires NextKey(Keys(Codes(entries)), Encode(e.key))
    ensures InOrder(entries + [e])
    ensures forall i :: 0 <= i < |entries| ==> AsKey(entries[i].key) != AsKey(e.key)
    ensures Keys(Codes(entries + [e])) == Keys(Codes(entries)) + [Encode(e.key)]
    ensures Join(Codes(entries + [e])) == Join(Codes(entries)) + (Encode(e.key) + Encode(e.value))
  {
    hide Encode, Encodable, AsKey, Before, Join, Clash, Precedes;
    CodesSnoc(entries, e);
    JoinSnoc(Codes(entries), CodeOf(e));
    var codes := Codes(entries);
    forall i | 0 <= i < |codes| ensures Before(codes[i].key, Encode(e.key)) && codes[i].key != Encode(e.key) {
      assert Keys(codes)[i] == codes[i].key;
      SortsByOctets(codes[i].key, Encode(e.key));
    }
    forall i | 0 <= i < |entries| ensures AsKey(entries[i].key) != AsKey(e.key) {
      assert Keys(codes)[i] == codes[i].key == Encode(entries[i].key);
      ClashIsOneKey(entries[i].key, e.key);
    }
  }

  lemma {:induction false} EntriesRebuild(b: seq<byte>, n: nat, done: seq<Entry>)
    requires InOrder(done) && Proper(done)
    requires Entries(b, n, done).Ok? && DeterministicEntries(b, n, Keys(Codes(done)))
    ensures var r := Entries(b, n, done).value;
            && |r.entries| == |done| + n && InOrder(r.entries) && Proper(r.entries)
            && Join(Codes(r.entries)) + r.rest == Join(Codes(done)) + b
    decreases |b|, 1, n
  {
    hide Item, Encode, Encodable, Deterministic, Assign, Join, Codes, NextKey, Ascending, DistinctKeys, AsKey;
    if n > 0 {
      DeterministicReencodes(b);
      var key, rest := Item(b).value.value, Item(b).value.rest;
      DeterministicReencodes(rest);
      var value, rest' := Item(rest).value.value, Item(rest).value.rest;
      assert ItemOctets(b) == Encode(key);
      var e := Entry(key, value);
      OrderGoesOn(done, e);
      AssignIsProper(done, key, value);
      AssignAppends(done, key, value);
      EntriesRebuild(rest', n - 1, done + [e]);
      assert Join(Codes(done)) + (Encode(key) + Encode(value)) + rest' == Join(Codes(done)) + b by {
        assert Encode(key) + Encode(value) + rest' == Encode(key) + (Encode(value) + rest');
      }
    }
  }

  lemma NothingInOrder()
    ensures InOrder([]) && Proper([]) && Keys(Codes([])) == [] && Join(Codes([])) == []
  {
  }

  lemma InOrderIsSorted(entries: seq<Entry>)
    requires InOrder(entries)
    ensures Sort(Codes(entries)) == Codes(entries)
  {
    hide Codes, Sort, CodeBefore, Before;
    var codes := Codes(entries);
    SortAscends(codes);
    SortElements(codes);
    AscendingUnique(Sort(codes), codes);
  }

  lemma {:induction false} DictRebuilds(b: seq<byte>, n: nat)
    requires n < U64_LIMIT && Entries(b, n, []).Ok? && DeterministicEntries(b, n, [])
    ensures Writes(Dict(Entries(b, n, []).value.entries), Entries(b, n, []).value.rest, Head(5, n) + b)
    decreases |b|, 2, 0
  {
    hide Head, Entries, DeterministicEntries, Sort, Codes, Join, InOrder;
    NothingInOrder();
    EntriesRebuild(b, n, []);
    var r := Entries(b, n, []).value;
    InOrderIsSorted(r.entries);
    ProperIsEncodable(r.entries);
    assert [] + b == b;
    assert Head(5, n) + Join(Codes(r.entries)) + r.rest == Head(5, n) + (Join(Codes(r.entries)) + r.rest);
  }

  /**
   * Decoding and encoding again gives back exactly the octets read if and only if they were
   * deterministic.
   */
  lemma ReencodingIsIdentity(b: seq<byte>)
    requires Item(b).Ok?
    ensures Writes(Item(b).value.value, Item(b).value.rest, b) <==> Deterministic(b)
  {
    hide Item, Encode, Encodable, Deterministic;
    if Deterministic(b) {
      DeterministicReencodes(b);
    }
    if Writes(Item(b).value.value, Item(b).value.rest, b) {
      EncodingIsDeterministic(Item(b).value.value, Item(b).value.rest);
    }
  }

  /** The same for a whole input: what `cbor_decode` accepts is one deterministic item exactly when it encodes back. */
  lemma DecodedEncodesBack(b: seq<byte>)
    requires Decode(b).Ok?
    ensures Encodable(Decode(b).value)
    ensures Encode(Decode(b).value) == b <==> Deterministic(b)
  {
    hide Item, Encode, Encodable, Deterministic;
    NormalisingKeepsTheValue(b);
    ReencodingIsIdentity(b);
    assert Encode(Decode(b).value) + [] == Encode(Decode(b).value);
  }

  // ---- Three ways to be accepted and not deterministic ----

  lemma SmallItem(n: nat, rest: seq<byte>)
    requires n < 24
    ensures Item([n] + rest) == Ok(Parsed(Int(n), rest))
  {
    hide Item;
    HeadItem(0, n, rest);
  }

  lemma TrueItem(rest: seq<byte>)
    ensures Item([0xF5] + rest) == Ok(Parsed(Bool(true), rest))
  {
    hide Item;
    HeadItem(7, 21, rest);
  }

  lemma PairItem(rest: seq<byte>)
    ensures Item([0xA2] + rest) == Body(5, 2, rest)
  {
    hide Item, Body;
    HeadItem(5, 2, rest);
  }

  /** The decoder takes a longer head than the encoder writes. */
  lemma LongHeadIsAccepted()
    ensures Decode([0x18, 5]) == Ok(Int(5)) && !Deterministic([0x18, 5])
  {
    assert ReadArgument(24, [5]) == Ok(Argument(5, [])) by {
      assert [5][..1] == [5] && [5][1..] == [];
      assert FromBe([5]) == 256 * FromBe([5][..0]) + 5;
    }
    assert [0x18, 5][1..] == [5];
  }

  /** The decoder takes keys out of order. */
  lemma UnsortedKeysAreAccepted()
    ensures Decode([0xA2, 2, 0, 1, 0]) == Ok(Dict([Entry(Int(2), Int(0)), Entry(Int(1), Int(0))]))
    ensures !Deterministic([0xA2, 2, 0, 1, 0])
  {
    hide Item, Deterministic;
    PairItem([2, 0, 1, 0]);
    PairEntries(2, 1);
    assert [0xA2] + [2, 0, 1, 0] == [0xA2, 2, 0, 1, 0];
    SmallItem(2, [0, 1, 0]);
    SmallItem(0, [1, 0]);
    SmallItem(1, [0]);
    assert [2] + [0, 1, 0] == [2, 0, 1, 0] && [0] + [1, 0] == [0, 1, 0] && [1] + [0] == [1, 0];
    assert [2, 0, 1, 0][..1] == [2] && [1, 0][..1] == [1] && !NextKey([[2]], [1]) by {
      assert !Before([[2]][0], [1]);
    }
    NextKeyMatters([2], [2, 0, 1, 0], [0, 1, 0], [1], [1, 0]);
  }

  /** A pair of entries whose second key may not follow the first is not deterministic. */
  lemma NextKeyMatters(first: seq<byte>, b: seq<byte>, value: seq<byte>, second: seq<byte>, rest: seq<byte>)
    requires Item(b).Ok? && Item(b).value.rest == value && ItemOctets(b) == first
    requires Item(value).Ok? && Item(value).value.rest == rest
    requires Item(rest).Ok? && ItemOctets(rest) == second
    requires !NextKey([first], second)
    ensures !Deterministic([0xA2] + b)
  {
    hide Item, NextKey;
    assert ([0xA2] + b)[1..] == b && [] + [first] == [first];
    assert !DeterministicEntries(rest, 1, [first]);
    assert !DeterministicEntries(b, 2, []);
  }

  lemma PairEntries(a: nat, b: nat)
    requires a < 24 && b < 24 && a != b
    ensures Entries([a, 0, b, 0], 2, []) == Ok(ParsedEntries([Entry(Int(a), Int(0)), Entry(Int(b), Int(0))], []))
  {
    hide Item;
    SmallItem(a, [0, b, 0]);
    SmallItem(0, [b, 0]);
    SmallItem(b, [0]);
    SmallItem(0, []);
    assert [a] + [0, b, 0] == [a, 0, b, 0] && [0] + [b, 0] == [0, b, 0] && [b] + [0] == [b, 0] && [0] + [] == [0];
    var first := [Entry(Int(a), Int(0))];
    assert first[1..] == [];
    assert Assign(first, Int(b), Int(0)) == [Entry(Int(a), Int(0)), Entry(Int(b), Int(0))];
    assert Entries([], 0, Assign(first, Int(b), Int(0))).Ok?;
    assert Entries([b, 0], 1, first) == Entries([], 0, Assign(first, Int(b), Int(0)));
  }

  /**
   * Two keys in order and apart, 1 and true, are one key to Python: the decoder keeps the first and
   * the later value.
   */
  lemma TruthKeyIsMerged()
    ensures Decode([0xA2, 1, 0, 0xF5, 2]) == Ok(Dict([Entry(Int(1), Int(2))]))
    ensures Before([1], [0xF5]) && !Deterministic([0xA2, 1, 0, 0xF5, 2])
  {
    hide Item, Deterministic;
    PairItem([1, 0, 0xF5, 2]);
    assert [0xA2] + [1, 0, 0xF5, 2] == [0xA2, 1, 0, 0xF5, 2];
    SmallItem(1, [0, 0xF5, 2]);
    SmallItem(0, [0xF5, 2]);
    TrueItem([2]);
    SmallItem(2, []);
    assert [1] + [0, 0xF5, 2] == [1, 0, 0xF5, 2] && [0] + [0xF5, 2] == [0, 0xF5, 2];
    assert [0xF5] + [2] == [0xF5, 2] && [2] + [] == [2];
    var first := [Entry(Int(1), Int(0))];
    assert Assign(first, Bool(true), Int(2)) == [Entry(Int(1), Int(2))] + first[1..] == [Entry(Int(1), Int(2))];
    assert Entries([0xF5, 2], 1, first) == Entries([], 0, [Entry(Int(1), Int(2))]);
    assert [1, 0, 0xF5, 2][..1] == [1] && [0xF5, 2][..1] == [0xF5] && !NextKey([[1]], [0xF5]) by {
      assert Clash([[1]][0], [0xF5]);
    }
    NextKeyMatters([1], [1, 0, 0xF5, 2], [0, 0xF5, 2], [0xF5], [0xF5, 2]);
  }
}
