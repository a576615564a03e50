/** Whatever the decoder accepts can be encoded again, in no more octets. */
module CborShortest {
  import opened Bytes
  import opened Cbor
  import opened CborProofs

  /** Entries as a decoded dictionary holds them. */
  predicate Proper(entries: seq<Entry>) {
    DistinctKeys(entries) && forall i :: 0 <= i < |entries| ==> Hashable(entries[i].key) && EntryEncodable(entries[i])
  }

  function Size(code: Code): nat {
    |code.key| + |code.value|
  }

  function Cost(codes: seq<Code>): nat {
    if codes == [] then 0 else Size(codes[0]) + Cost(codes[1..])
  }

  function CostOf(entries: seq<Entry>): nat
    requires forall i :: 0 <= i < |entries| ==> EntryEncodable(entries[i])
  {
    Cost(Codes(entries))
  }

  // ---- Sorting costs nothing ----

  lemma {:induction false} JoinCost(codes: seq<Code>)
    ensures |Join(codes)| == Cost(codes)
  {
    if codes != [] {
      JoinCost(codes[1..]);
    }
  }

  lemma {:induction false} InsertCost(c: Code, sorted: seq<Code>)
    ensures Cost(Insert(c, sorted)) == Size(c) + Cost(sorted)
  {
    hide CodeBefore;
    if sorted == [] || CodeBefore(c, sorted[0]) {
      assert ([c] + sorted)[1..] == sorted;
    } else {
      InsertCost(c, sorted[1..]);
      assert ([sorted[0]] + Insert(c, sorted[1..]))[1..] == Insert(c, sorted[1..]);
    }
  }

  lemma {:induction false} SortCost(codes: seq<Code>)
    ensures Cost(Sort(codes)) == Cost(codes)
  {
    if codes != [] {
      SortCost(codes[1..]);
      InsertCost(codes[0], Sort(codes[1..]));
    }
  }

  lemma DictLength(entries: seq<Entry>)
    requires Encodable(Dict(entries))
    ensures |Encode(Dict(entries))| == |Head(5, |entries|)| + CostOf(entries)
  {
    hide Head, Sort, Codes, Join, Cost;
    JoinCost(Sort(Codes(entries)));
    SortCost(Codes(entries));
  }

  // ---- Arguments ----

  /** The encoder's head is no longer than any head the decoder reads the same argument from. */
  lemma HeadIsShortest(major: Major, info: nat, b: seq<byte>)
    requires info < 32 && ReadArgument(info, b).Ok?
    ensures var a := ReadArgument(info, b).value;
            a.n < U64_LIMIT && |Head(major, a.n)| + |a.rest| <= 1 + |b|
  {
    Pow256Values();
    if info >= 24 {
      BeBound(b[..Width(info)]);
    }
  }

  lemma HeadGrows(major: Major, m: nat, n: nat)
    requires m <= n < U64_LIMIT
    ensures |Head(major, m)| <= |Head(major, n)|
  {
  }

  // ---- Dictionary assignment ----

  lemma {:induction false} AssignKeys(entries: seq<Entry>, key: Value, value: Value)
    ensures var r := Assign(entries, key, value);
            && |entries| <= |r| <= |entries| + 1
            && (forall i :: 0 <= i < |entries| ==>
                  r[i].key == entries[i].key && r[i].value in {entries[i].value, value})
            && (|r| > |entries| ==>
                  && r[|entries|] == Entry(key, value)
                  && forall i :: 0 <= i < |entries| ==> AsKey(entries[i].key) != AsKey(key))
  {
    if entries != [] && AsKey(entries[0].key) != AsKey(key) {
      AssignKeys(entries[1..], key, value);
      assert entries == [entries[0]] + entries[1..];
    }
  }

  lemma AssignIsProper(entries: seq<Entry>, key: Value, value: Value)
    requires Proper(entries) && Hashable(key) && Encodable(key) && Encodable(value)
    ensures Proper(Assign(entries, key, value))
  {
    hide Encodable, Assign;
    AssignKeys(entries, key, value);
    var r := Assign(entries, key, value);
    forall i, j | 0 <= i < j < |r| ensures AsKey(r[i].key) != AsKey(r[j].key) {
    }
  }

  lemma {:induction false} AssignCost(entries: seq<Entry>, key: Value, value: Value)
    requires Encodable(key) && Encodable(value)
    requires forall i :: 0 <= i < |entries| ==> EntryEncodable(entries[i])
    ensures forall i :: 0 <= i < |Assign(entries, key, value)| ==> EntryEncodable(Assign(entries, key, value)[i])
    ensures CostOf(Assign(entries, key, value)) <= CostOf(entries) + |Encode(key)| + |Encode(value)|
  {
    hide Encode, Encodable, AsKey;
    var r := Assign(entries, key, value);
    if entries == [] {
      CostSplit(Entry(key, value), []);
    } else {
      CostSplit(entries[0], entries[1..]);
      assert entries == [entries[0]] + entries[1..];
      if AsKey(entries[0].key) == AsKey(key) {
        CostSplit(Entry(entries[0].key, value), entries[1..]);
      } else {
        AssignCost(entries[1..], key, value);
        CostSplit(entries[0], Assign(entries[1..], key, value));
      }
    }
  }

  lemma CostSplit(e: Entry, rest: seq<Entry>)
    requires EntryEncodable(e) && forall i :: 0 <= i < |rest| ==> EntryEncodable(rest[i])
    ensures forall i :: 0 <= i < |[e] + rest| ==> EntryEncodable(([e] + rest)[i])
    ensures CostOf([e] + rest) == |Encode(e.key)| + |Encode(e.value)| + CostOf(rest)
  {
    hide Encode, Encodable;
    assert ([e] + rest)[1..] == rest;
  }

  // ---- Re-encoding what was decoded ----

  /** `v` can be encoded, and with the octets left over it is no longer than the input. */
  ghost predicate Refits(v: Value, rest: seq<byte>, limit: nat) {
    Encodable(v) && |Encode(v)| + |rest| <= limit
  }

  /**
   * Every value the decoder accepts, from any input, can be encoded, and the deterministic encoding
   * takes no more octets than the decoder consumed: no accepted encoding of a value is shorter.
   */
  lemma {:induction false} DeterministicIsShortest(b: seq<byte>)
    requires Item(b).Ok?
    ensures Refits(Item(b).value.value, Item(b).value.rest, |b|)
    decreases |b|, 0
  {
    hide Head, Refits, Body, ReadArgument;
    HeadIsShortest(b[0] / 32, b[0] % 32, b[1..]);
    var a := ReadArgument(b[0] % 32, b[1..]).value;
    BodyReencodes(b[0] / 32, a.n, a.rest);
    RefitsWider(Item(b).value.value, Item(b).value.rest, |Head(b[0] / 32, a.n)| + |a.rest|, |b|);
  }

  lemma RefitsWider(v: Value, rest: seq<byte>, limit: nat, limit': nat)
    requires Refits(v, rest, limit) && limit <= limit'
    ensures Refits(v, rest, limit')
  {
    hide Encode, Encodable;
  }

  lemma {:induction false} BodyReencodes(major: Major, n: nat, b: seq<byte>)
    requires n < U64_LIMIT && Body(major, n, b).Ok?
    ensures Refits(Body(major, n, b).value.value, Body(major, n, b).value.rest, |Head(major, n)| + |b|)
    decreases |b|, 2
  {
    hide Item, Items, Entries, ValidUtf8;
    if major == 4 {
      ListReencodes(n, b);
    } else if major == 5 {
      DictReencodes(n, b);
    }
  }

  lemma {:induction false} ListReencodes(n: nat, b: seq<byte>)
    requires n < U64_LIMIT && Items(b, n).Ok?
    ensures Refits(List(Items(b, n).value.items), Items(b, n).value.rest, |Head(4, n)| + |b|)
    decreases |b|, 2, 0
  {
    hide Head, Items;
    ItemsReencode(b, n);
  }

  lemma {:induction false} DictReencodes(n: nat, b: seq<byte>)
    requires n < U64_LIMIT && Entries(b, n, []).Ok?
    ensures Refits(Dict(Entries(b, n, []).value.entries), Entries(b, n, []).value.rest, |Head(5, n)| + |b|)
    decreases |b|, 2, 0
  {
    hide Head, Entries, EntryEncodable, Sort, Codes;
    EntriesReencode(b, n, []);
    var entries := Entries(b, n, []).value.entries;
    HeadGrows(5, |entries|, n);
    DictLength(entries);
    NothingCosts();
  }

  lemma NothingCosts()
    ensures CostOf([]) == 0
  {
  }

  lemma {:induction false} ItemsReencode(b: seq<byte>, n: nat)
    requires Items(b, n).Ok?
    ensures var r := Items(b, n).value;
            && |r.items| == n
            && (forall i :: 0 <= i < |r.items| ==> Encodable(r.items[i]))
            && |EncodeAll(r.items)| + |r.rest| <= |b|
    decreases |b|, 1, n
  {
    hide Item, Encode, Encodable;
    if n > 0 {
      DeterministicIsShortest(b);
      ItemsReencode(Item(b).value.rest, n - 1);
      var r := Items(b, n).value;
      assert r.items[1..] == Items(Item(b).value.rest, n - 1).value.items;
    }
  }

  lemma {:induction false} EntriesReencode(b: seq<byte>, n: nat, entries: seq<Entry>)
    requires Entries(b, n, entries).Ok? && Proper(entries)
    ensures var r := Entries(b, n, entries).value;
            && Proper(r.entries) && |r.entries| <= |entries| + n
            && CostOf(r.entries) + |r.rest| <= CostOf(entries) + |b|
    decreases |b|, 1, n
  {
    hide Item, Encode, Encodable, Proper, CostOf, Assign;
    ProperIsEncodable(entries);
    if n > 0 {
      DeterministicIsShortest(b);
      var key, rest := Item(b).value.value, Item(b).value.rest;
      DeterministicIsShortest(rest);
      var value, rest' := Item(rest).value.value, Item(rest).value.rest;
      AssignIsProper(entries, key, value);
      AssignCost(entries, key, value);
      AssignKeys(entries, key, value);
      EntriesReencode(rest', n - 1, Assign(entries, key, value));
    }
    ProperIsEncodable(Entries(b, n, entries).value.entries);
  }

  lemma ProperIsEncodable(entries: seq<Entry>)
    requires Proper(entries)
    ensures forall i :: 0 <= i < |entries| ==> EntryEncodable(entries[i])
  {
  }

  /** Decoding, encoding and decoding again gives an equal value: the encoder normalises what the decoder takes. */
  lemma NormalisingKeepsTheValue(b: seq<byte>)
    requires Decode(b).Ok?
    ensures var v := Decode(b).value;
            Encodable(v) && |Encode(v)| <= |b| && Decode(Encode(v)).Ok? && Same(Decode(Encode(v)).value, v)
  {
    hide Item, Encode, Same, Encodable;
    DeterministicIsShortest(b);
    DecodeInvertsEncode(Decode(b).value, []);
  }
}
