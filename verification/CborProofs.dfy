/** Decoding inverts encoding, and two values encode alike exactly when they are equal. */
module CborProofs {
  import opened Wrappers
  import opened Bytes
  import opened Cbor

  /** Equality of values: dictionaries are equal whatever order their entries were inserted in. */
  ghost predicate Same(v: Value, w: Value) {
    match (v, w)
    case (List(xs), List(ys)) => |xs| == |ys| && forall i :: 0 <= i < |xs| ==> Same(xs[i], ys[i])
    case (Dict(es), Dict(fs)) => |es| == |fs| && SameEntries(es, fs)
    case _ => v == w
  }

  /** Each entry of either side has its equal on the other. */
  ghost predicate SameEntries(es: seq<Entry>, fs: seq<Entry>) {
    && (forall i :: 0 <= i < |es| ==> Among(es[i], fs))
    && (forall j :: 0 <= j < |fs| ==> Amid(es, fs[j]))
  }

  ghost predicate Among(e: Entry, fs: seq<Entry>) {
    exists j :: 0 <= j < |fs| && SameEntry(e, fs[j])
  }

  ghost predicate Amid(es: seq<Entry>, f: Entry) {
    exists i :: 0 <= i < |es| && SameEntry(es[i], f)
  }

  ghost predicate SameEntry(e: Entry, f: Entry) {
    e.key == f.key && Same(e.value, f.value)
  }

  lemma {:induction false} SameSymmetric(v: Value, w: Value)
    requires Same(v, w)
    ensures Same(w, v)
    decreases v
  {
    hide SameEntries;
    if v.Dict? {
      EntriesSymmetric(v.entries, w.entries);
    } else if v.List? {
      forall i | 0 <= i < |v.items| ensures Same(w.items[i], v.items[i]) {
        SameSymmetric(v.items[i], w.items[i]);
      }
    }
  }

  lemma {:induction false} EntriesSymmetric(es: seq<Entry>, fs: seq<Entry>)
    requires SameEntries(es, fs)
    ensures SameEntries(fs, es)
    decreases es
  {
    hide Among, Amid;
    forall i | 0 <= i < |es| ensures Amid(fs, es[i]) {
      EntrySymmetric(es[i], fs);
    }
    forall j | 0 <= j < |fs| ensures Among(fs[j], es) {
      SymmetricEntry(es, fs[j]);
    }
  }

  lemma {:induction false} EntrySymmetric(e: Entry, fs: seq<Entry>)
    requires Among(e, fs)
    ensures Amid(fs, e)
    decreases e
  {
    var j :| 0 <= j < |fs| && SameEntry(e, fs[j]);
    SameSymmetric(e.value, fs[j].value);
    assert SameEntry(fs[j], e);
  }

  lemma {:induction false} SymmetricEntry(es: seq<Entry>, f: Entry)
    requires Amid(es, f)
    ensures Among(f, es)
    decreases es, 0
  {
    var i :| 0 <= i < |es| && SameEntry(es[i], f);
    var e := es[i];
    assert SameEntry(e, [f][0]);
    EntrySymmetric(e, [f]);
    assert SameEntry(f, es[i]);
  }

  lemma {:induction false} SameTransitive(u: Value, v: Value, w: Value)
    requires Same(u, v) && Same(v, w)
    ensures Same(u, w)
    decreases u
  {
    hide SameEntries;
    if u.Dict? {
      EntriesTransitive(u.entries, v.entries, w.entries);
    } else if u.List? {
      forall i | 0 <= i < |u.items| ensures Same(u.items[i], w.items[i]) {
        SameTransitive(u.items[i], v.items[i], w.items[i]);
      }
    }
  }

  lemma {:induction false} EntriesTransitive(es: seq<Entry>, fs: seq<Entry>, gs: seq<Entry>)
    requires SameEntries(es, fs) && SameEntries(fs, gs)
    ensures SameEntries(es, gs)
    decreases es
  {
    hide Among, Amid;
    forall i | 0 <= i < |es| ensures Among(es[i], gs) {
      EntryTransitive(es[i], fs, gs);
    }
    forall k | 0 <= k < |gs| ensures Amid(es, gs[k]) {
      TransitiveEntry(es, fs, gs[k]);
    }
  }

  lemma {:induction false} EntryTransitive(e: Entry, fs: seq<Entry>, gs: seq<Entry>)
    requires Among(e, fs) && forall j :: 0 <= j < |fs| ==> Among(fs[j], gs)
    ensures Among(e, gs)
    decreases e
  {
    var j :| 0 <= j < |fs| && SameEntry(e, fs[j]);
    assert Among(fs[j], gs);
    var k :| 0 <= k < |gs| && SameEntry(fs[j], gs[k]);
    SameTransitive(e.value, fs[j].value, gs[k].value);
    assert SameEntry(e, gs[k]);
  }

  lemma {:induction false} TransitiveEntry(es: seq<Entry>, fs: seq<Entry>, g: Entry)
    requires Amid(fs, g) && forall j :: 0 <= j < |fs| ==> Amid(es, fs[j])
    ensures Amid(es, g)
    decreases es, 0
  {
    var j :| 0 <= j < |fs| && SameEntry(fs[j], g);
    assert Amid(es, fs[j]);
    var i :| 0 <= i < |es| && SameEntry(es[i], fs[j]);
    var e := es[i];
    assert SameEntry(e, [fs[j]][0]) && SameEntry(fs[j], [g][0]);
    EntryTransitive(e, [fs[j]], [g]);
    assert SameEntry(es[i], g);
  }

  // ---- The order of octet strings ----

  lemma {:induction false} BeforeTotal(a: seq<byte>, b: seq<byte>)
    ensures Before(a, b) || Before(b, a)
    ensures Before(a, b) && Before(b, a) ==> a == b
  {
    if a != [] && b != [] && a[0] == b[0] {
      BeforeTotal(a[1..], b[1..]);
      assert a == [a[0]] + a[1..] && b == [b[0]] + b[1..];
    }
  }

  lemma {:induction false} BeforeTransitive(a: seq<byte>, b: seq<byte>, c: seq<byte>)
    requires Before(a, b) && Before(b, c)
    ensures Before(a, c)
  {
    if a != [] && b != [] && c != [] && a[0] == b[0] == c[0] {
      BeforeTransitive(a[1..], b[1..], c[1..]);
    }
  }

  // ---- Sorting by distinct keys ----

  /** Keys strictly ascend. */
  ghost predicate Ascending(codes: seq<Code>) {
    forall i, j :: 0 <= i < j < |codes| ==> Before(codes[i].key, codes[j].key) && codes[i].key != codes[j].key
  }

  ghost predicate DistinctCodes(codes: seq<Code>) {
    forall i, j :: 0 <= i < j < |codes| ==> codes[i].key != codes[j].key
  }

  lemma {:induction false} InsertElements(c: Code, sorted: seq<Code>)
    ensures |Insert(c, sorted)| == |sorted| + 1
    ensures forall x :: x in Insert(c, sorted) <==> x == c || x in sorted
  {
    if sorted != [] && !CodeBefore(c, sorted[0]) {
      InsertElements(c, sorted[1..]);
      assert sorted == [sorted[0]] + sorted[1..];
    }
  }

  lemma {:induction false} SortElements(codes: seq<Code>)
    ensures |Sort(codes)| == |codes|
    ensures forall x :: x in Sort(codes) <==> x in codes
  {
    if codes != [] {
      SortElements(codes[1..]);
      InsertElements(codes[0], Sort(codes[1..]));
      assert codes == [codes[0]] + codes[1..];
    }
  }

  lemma {:induction false} InsertAscends(c: Code, sorted: seq<Code>)
    requires Ascending(sorted) && forall i :: 0 <= i < |sorted| ==> sorted[i].key != c.key
    ensures Ascending(Insert(c, sorted))
  {
    if sorted != [] {
      var first, rest := sorted[0], sorted[1..];
      BeforeTotal(c.key, first.key);
      if CodeBefore(c, first) {
        forall i | 0 <= i < |sorted| ensures Before(c.key, sorted[i].key) {
          if i > 0 {
            BeforeTransitive(c.key, first.key, sorted[i].key);
          }
        }
      } else {
        InsertAscends(c, rest);
        InsertElements(c, rest);
        var r := Insert(c, rest);
        forall i | 0 <= i < |r| ensures Before(first.key, r[i].key) && first.key != r[i].key {
          assert r[i] in r;
          assert r[i] == c || r[i] in rest;
        }
      }
    }
  }

  lemma {:induction false} SortAscends(codes: seq<Code>)
    requires DistinctCodes(codes)
    ensures Ascending(Sort(codes))
  {
    if codes != [] {
      SortAscends(codes[1..]);
      SortElements(codes[1..]);
      var s := Sort(codes[1..]);
      forall i | 0 <= i < |s| ensures s[i].key != codes[0].key {
        assert s[i] in s;
        assert s[i] in codes[1..];
      }
      InsertAscends(codes[0], s);
    }
  }

  /** An ascending sequence is determined by its elements. */
  lemma {:induction false} AscendingUnique(a: seq<Code>, b: seq<Code>)
    requires Ascending(a) && Ascending(b) && |a| == |b|
    requires forall x :: x in a <==> x in b
    ensures a == b
  {
    if a != [] {
      assert a[0] in a && b[0] in b;
      var i :| 0 <= i < |b| && b[i] == a[0];
      var j :| 0 <= j < |a| && a[j] == b[0];
      if i > 0 && j > 0 {
        BeforeTotal(a[0].key, b[0].key);
        assert false;
      }
      forall x ensures x in a[1..] <==> x in b[1..] {
        RestElements(a, x);
        RestElements(b, x);
      }
      AscendingUnique(a[1..], b[1..]);
      assert a == [a[0]] + a[1..] && b == [b[0]] + b[1..];
    }
  }

  lemma RestElements(a: seq<Code>, x: Code)
    requires Ascending(a) && a != []
    ensures x in a[1..] <==> x in a && x != a[0]
  {
    assert a == [a[0]] + a[1..];
    if x in a[1..] {
      var i :| 0 <= i < |a[1..]| && a[1..][i] == x;
      assert a[i + 1] == x;
    }
  }

  // ---- Decoding inverts encoding ----

  lemma HeadReads(major: Major, n: nat, suffix: seq<byte>)
    requires n < U64_LIMIT
    ensures var b := Head(major, n) + suffix;
            b[0] / 32 == major && ReadArgument(b[0] % 32, b[1..]) == Ok(Argument(n, suffix))
  {
    var b := Head(major, n) + suffix;
    Pow256Values();
    if n >= 24 {
      var width := Width(b[0] % 32);
      var octets := b[1..][..width];
      if n < 256 {
        assert octets == [n];
        assert FromBe([n]) == 256 * FromBe([n][..0]) + n;
      } else {
        assert octets == ToBe(n, width);
        BeRoundTrip(n, width);
      }
      assert b[1..][width..] == suffix;
    }
  }

  lemma HeadItem(major: Major, n: nat, suffix: seq<byte>)
    requires n < U64_LIMIT
    ensures Item(Head(major, n) + suffix) == Body(major, n, suffix)
  {
    HeadReads(major, n, suffix);
    hide Head, ReadArgument, Body;
  }

  lemma StringItem(major: Major, octets: seq<byte>, suffix: seq<byte>)
    requires |octets| < U64_LIMIT
    ensures Item(Head(major, |octets|) + octets + suffix) == Body(major, |octets|, octets + suffix)
    ensures (octets + suffix)[..|octets|] == octets && (octets + suffix)[|octets|..] == suffix
  {
    hide Head, Item, Body;
    HeadItem(major, |octets|, octets + suffix);
    assert Head(major, |octets|) + octets + suffix == Head(major, |octets|) + (octets + suffix);
  }

  lemma ScalarRoundTrip(v: Value, suffix: seq<byte>)
    requires Encodable(v) && Hashable(v)
    ensures Item(Encode(v) + suffix) == Ok(Parsed(v, suffix))
  {
    hide Head, Item, Items, Entries, ValidUtf8;
    match v {
      case Bool(b) => HeadItem(7, if b then 21 else 20, suffix);
      case Null => HeadItem(7, 22, suffix);
      case Int(n) =>
        if n >= 0 {
          HeadItem(0, n, suffix);
        } else {
          HeadItem(1, -1 - n, suffix);
        }
      case Blob(octets) => StringItem(2, octets, suffix);
      case Text(utf8) => StringItem(3, utf8, suffix);
    }
  }

  lemma DistinctKeysEncodeApart(entries: seq<Entry>)
    requires Encodable(Dict(entries))
    ensures DistinctCodes(Codes(entries))
  {
    forall i, j | 0 <= i < j < |entries| ensures Codes(entries)[i].key != Codes(entries)[j].key {
      ScalarRoundTrip(entries[i].key, []);
      ScalarRoundTrip(entries[j].key, []);
    }
  }

  /** The entries behind a sequence of codes. */
  lemma {:induction false} Sources(entries: seq<Entry>, codes: seq<Code>) returns (src: seq<Entry>)
    requires forall i :: 0 <= i < |entries| ==> EntryEncodable(entries[i])
    requires forall k :: 0 <= k < |codes| ==> codes[k] in Codes(entries)
    ensures |src| == |codes|
    ensures forall k :: 0 <= k < |src| ==> src[k] in entries && EntryEncodable(src[k]) && CodeOf(src[k]) == codes[k]
  {
    src := [];
    if codes != [] {
      var all := Codes(entries);
      assert codes[0] in all;
      var i :| 0 <= i < |all| && all[i] == codes[0];
      var rest := Sources(entries, codes[1..]);
      src := [entries[i]] + rest;
      assert forall k :: 1 <= k < |codes| ==> codes[k] == codes[1..][k - 1];
    }
  }

  lemma {:induction false} AssignAppends(entries: seq<Entry>, key: Value, value: Value)
    requires forall i :: 0 <= i < |entries| ==> AsKey(entries[i].key) != AsKey(key)
    ensures Assign(entries, key, value) == entries + [Entry(key, value)]
  {
    if entries != [] {
      AssignAppends(entries[1..], key, value);
      assert entries == [entries[0]] + entries[1..];
    }
  }

  /** The decoder reads `b` as the value `v` followed by `suffix`. */
  ghost predicate Reads(b: seq<byte>, v: Value, suffix: seq<byte>) {
    Item(b).Ok? && Item(b).value.rest == suffix && Same(Item(b).value.value, v)
  }

  ghost predicate ReadsAll(r: Result<ParsedItems, CborError>, items: seq<Value>, suffix: seq<byte>) {
    && r.Ok? && r.value.rest == suffix && |r.value.items| == |items|
    && forall i :: 0 <= i < |items| ==> Same(r.value.items[i], items[i])
  }

  /** The decoder reads entries equal to `src`, in that order, after those it already has. */
  ghost predicate ReadsEntries(r: Result<ParsedEntries, CborError>, done: seq<Entry>, src: seq<Entry>,
                               suffix: seq<byte>)
  {
    && r.Ok? && r.value.rest == suffix && |r.value.entries| == |done| + |src| && done == r.value.entries[..|done|]
    && forall k :: 0 <= k < |src| ==> SameEntry(r.value.entries[|done| + k], src[k])
  }

  /**
   * For every encodable value and every suffix, the decoder reads the encoding followed by the suffix
   * as that value and leaves exactly the suffix.
   */
  lemma {:induction false} RoundTrip(v: Value, suffix: seq<byte>)
    requires Encodable(v)
    ensures Reads(Encode(v) + suffix, v, suffix)
    decreases v, 1
  {
    hide Head, Item, Items, Entries;
    match v {
      case List(items) =>
        RoundTripAll(items, suffix);
        HeadItem(4, |items|, EncodeAll(items) + suffix);
        assert Encode(v) + suffix == Head(4, |items|) + (EncodeAll(items) + suffix);
      case Dict(entries) =>
        RoundTripDict(v, suffix);
      case _ =>
        ScalarRoundTrip(v, suffix);
    }
  }

  lemma {:induction false} RoundTripAll(items: seq<Value>, suffix: seq<byte>)
    requires forall i :: 0 <= i < |items| ==> Encodable(items[i])
    ensures ReadsAll(Items(EncodeAll(items) + suffix, |items|), items, suffix)
    decreases items
  {
    hide Item, Encode;
    if items == [] {
      assert EncodeAll(items) + suffix == suffix;
    } else {
      var rest := EncodeAll(items[1..]) + suffix;
      assert EncodeAll(items) + suffix == Encode(items[0]) + rest;
      RoundTrip(items[0], rest);
      RoundTripAll(items[1..], suffix);
    }
  }

  /** `src` lists, entry by entry, what `codes` encode, all of it from `entries`. */
  ghost predicate Backs(entries: seq<Entry>, src: seq<Entry>, codes: seq<Code>) {
    && |src| == |codes|
    && forall k :: 0 <= k < |src| ==> src[k] in entries && EntryEncodable(src[k]) && CodeOf(src[k]) == codes[k]
  }

  lemma {:induction false} RoundTripDict(v: Value, suffix: seq<byte>)
    requires v.Dict? && Encodable(v)
    ensures Reads(Encode(v) + suffix, v, suffix)
    decreases v, 0
  {
    hide Head, Item, Items, Entries, Backs, Ascending, DistinctCodes, SameEntries, ReadsEntries, Sort, Codes,
         DistinctKeys;
    var entries := v.entries;
    var codes := Sort(Codes(entries));
    SortElements(Codes(entries));
    DistinctKeysEncodeApart(entries);
    SortAscends(Codes(entries));
    var src := BackingOf(entries, codes);
    SourcesDistinct(entries, codes, src);
    var rest := Join(codes) + suffix;
    NothingDone(src);
    RoundTripEntries(v, src, codes, [], suffix);
    HeadItem(5, |entries|, rest);
    assert Encode(v) + suffix == Head(5, |entries|) + rest;
    DictReads(entries, codes, src, Entries(rest, |entries|, []), suffix);
  }

  lemma BackingOf(entries: seq<Entry>, codes: seq<Code>) returns (src: seq<Entry>)
    requires forall i :: 0 <= i < |entries| ==> EntryEncodable(entries[i])
    requires forall x :: x in codes <==> x in Codes(entries)
    ensures Backs(entries, src, codes)
  {
    hide Codes;
    assert forall k :: 0 <= k < |codes| ==> codes[k] in codes;
    src := Sources(entries, codes);
  }

  lemma SourcesDistinct(entries: seq<Entry>, codes: seq<Code>, src: seq<Entry>)
    requires Encodable(Dict(entries)) && Ascending(codes) && Backs(entries, src, codes)
    ensures DistinctKeys(src)
    ensures forall k :: 0 <= k < |src| ==> Hashable(src[k].key)
  {
    forall a, b | 0 <= a < b < |src| ensures AsKey(src[a].key) != AsKey(src[b].key) {
      var i :| 0 <= i < |entries| && entries[i] == src[a];
      var j :| 0 <= j < |entries| && entries[j] == src[b];
      assert CodeOf(src[a]).key != CodeOf(src[b]).key;
      assert i != j;
    }
  }

  /** No entry read so far has a key still to come. */
  ghost predicate Unclaimed(done: seq<Entry>, src: seq<Entry>) {
    forall i, k :: 0 <= i < |done| && 0 <= k < |src| ==> AsKey(done[i].key) != AsKey(src[k].key)
  }

  lemma NothingDone(src: seq<Entry>)
    ensures Unclaimed([], src)
  {
  }

  lemma {:induction false} RoundTripEntries(v: Value, src: seq<Entry>, codes: seq<Code>, done: seq<Entry>,
                                            suffix: seq<byte>)
    requires v.Dict? && Backs(v.entries, src, codes)
    requires DistinctKeys(src) && (forall k :: 0 <= k < |src| ==> Hashable(src[k].key)) && Unclaimed(done, src)
    ensures ReadsEntries(Entries(Join(codes) + suffix, |codes|, done), done, src, suffix)
    decreases v, 0, |src|
  {
    hide Item, Encode, Same, Encodable, Entries, ReadsEntries, AsKey;
    if src == [] {
      NoEntries(suffix, done);
      assert Join(codes) + suffix == suffix;
    } else {
      var e := src[0];
      assert e in v.entries && CodeOf(e) == codes[0];
      var rest := Join(codes[1..]) + suffix;
      assert Join(codes) + suffix == Encode(e.key) + (Encode(e.value) + rest);
      RoundTrip(e.value, rest);
      var value := Item(Encode(e.value) + rest).value.value;
      ReadEntry(e, rest, |codes|, done);
      AssignAppends(done, e.key, value);
      RoundTripEntries(v, src[1..], codes[1..], done + [Entry(e.key, value)], suffix);
      ReadsOneMore(Entries(rest, |codes| - 1, done + [Entry(e.key, value)]), done, Entry(e.key, value), src, suffix);
    }
  }

  lemma NoEntries(suffix: seq<byte>, done: seq<Entry>)
    ensures ReadsEntries(Entries(suffix, 0, done), done, [], suffix)
  {
  }

  lemma ReadEntry(e: Entry, rest: seq<byte>, n: nat, done: seq<Entry>)
    requires n > 0 && EntryEncodable(e) && Hashable(e.key) && Reads(Encode(e.value) + rest, e.value, rest)
    ensures Entries(Encode(e.key) + (Encode(e.value) + rest), n, done) ==
            Entries(rest, n - 1, Assign(done, e.key, Item(Encode(e.value) + rest).value.value))
  {
    hide Item, Encode, Same, Encodable, Assign;
    ScalarRoundTrip(e.key, Encode(e.value) + rest);
  }

  lemma ReadsOneMore(r: Result<ParsedEntries, CborError>, done: seq<Entry>, x: Entry, src: seq<Entry>,
                     suffix: seq<byte>)
    requires src != [] && SameEntry(x, src[0]) && ReadsEntries(r, done + [x], src[1..], suffix)
    ensures ReadsEntries(r, done, src, suffix)
  {
    hide SameEntry;
    var got := r.value.entries;
    assert got[|done|] == (done + [x])[|done|];
    assert done == got[..|done|];
    forall k | 0 <= k < |src| ensures SameEntry(got[|done| + k], src[k]) {
      if k > 0 {
        assert src[1..][k - 1] == src[k];
      }
    }
  }

  lemma DictReads(entries: seq<Entry>, codes: seq<Code>, src: seq<Entry>, r: Result<ParsedEntries, CborError>,
                  suffix: seq<byte>)
    requires Encodable(Dict(entries)) && |codes| == |entries| && Backs(entries, src, codes)
    requires forall x :: x in codes <==> x in Codes(entries)
    requires ReadsEntries(r, [], src, suffix)
    ensures r.Ok? && r.value.rest == suffix && Same(Dict(r.value.entries), Dict(entries))
  {
    hide SameEntries, Codes;
    SourcesCover(entries, codes, src, r.value.entries);
  }

  lemma SourcesCover(entries: seq<Entry>, codes: seq<Code>, src: seq<Entry>, got: seq<Entry>)
    requires Encodable(Dict(entries)) && |got| == |src| == |codes| == |entries| && Backs(entries, src, codes)
    requires forall x :: x in codes <==> x in Codes(entries)
    requires forall k :: 0 <= k < |got| ==> SameEntry(got[k], src[k])
    ensures SameEntries(got, entries)
  {
    hide Same, Encode;
    forall k | 0 <= k < |got| ensures Among(got[k], entries) {
      assert src[k] in entries;
      var j :| 0 <= j < |entries| && entries[j] == src[k];
      assert SameEntry(got[k], entries[j]);
    }
    forall j | 0 <= j < |entries| ensures Amid(got, entries[j]) {
      assert Codes(entries)[j] in Codes(entries);
      var k :| 0 <= k < |codes| && codes[k] == Codes(entries)[j];
      SameCodeSameEntry(entries, j, src[k]);
      assert SameEntry(got[k], entries[j]);
    }
  }

  /** Among a dictionary's entries a code has one source. */
  lemma SameCodeSameEntry(entries: seq<Entry>, j: nat, e: Entry)
    requires Encodable(Dict(entries)) && j < |entries| && e in entries && EntryEncodable(e)
    requires CodeOf(e) == CodeOf(entries[j])
    ensures e == entries[j]
  {
    var i :| 0 <= i < |entries| && entries[i] == e;
    ScalarRoundTrip(e.key, []);
    ScalarRoundTrip(entries[j].key, []);
    assert AsKey(entries[i].key) == AsKey(entries[j].key);
  }

  // ---- Equal values encode alike ----

  lemma {:induction false} SameEncodes(v: Value, w: Value)
    requires Encodable(v) && Encodable(w) && Same(v, w)
    ensures Encode(v) == Encode(w)
    decreases v
  {
    hide SameEntries, Head, Sort, Codes;
    if v.Dict? {
      DictEncodes(v.entries, w.entries);
    } else if v.List? {
      AllEncode(v.items, w.items);
    }
  }

  lemma {:induction false} AllEncode(xs: seq<Value>, ys: seq<Value>)
    requires |xs| == |ys| && forall i :: 0 <= i < |xs| ==> Encodable(xs[i]) && Encodable(ys[i]) && Same(xs[i], ys[i])
    ensures EncodeAll(xs) == EncodeAll(ys)
    decreases xs
  {
    hide Same, Encode, Encodable;
    if xs != [] {
      SameEncodes(xs[0], ys[0]);
      AllEncode(xs[1..], ys[1..]);
    }
  }

  lemma {:induction false} DictEncodes(es: seq<Entry>, fs: seq<Entry>)
    requires Encodable(Dict(es)) && Encodable(Dict(fs)) && |es| == |fs| && SameEntries(es, fs)
    ensures Sort(Codes(es)) == Sort(Codes(fs))
    decreases es
  {
    hide Sort, Among, Amid, Same, Encode, DistinctCodes;
    DistinctKeysEncodeApart(es);
    DistinctKeysEncodeApart(fs);
    SortAscends(Codes(es));
    SortAscends(Codes(fs));
    SortElements(Codes(es));
    SortElements(Codes(fs));
    forall i | 0 <= i < |es| ensures CodeOf(es[i]) in Codes(fs) {
      EntryEncodes(es[i], fs);
    }
    forall j | 0 <= j < |fs| ensures CodeOf(fs[j]) in Codes(es) {
      EncodesEntry(es, fs[j]);
    }
    AscendingUnique(Sort(Codes(es)), Sort(Codes(fs)));
  }

  lemma {:induction false} EntryEncodes(e: Entry, fs: seq<Entry>)
    requires EntryEncodable(e) && (forall j :: 0 <= j < |fs| ==> EntryEncodable(fs[j])) && Among(e, fs)
    ensures CodeOf(e) in Codes(fs)
    decreases e
  {
    hide Same, Encode, Encodable;
    var j :| 0 <= j < |fs| && SameEntry(e, fs[j]);
    SameEncodes(e.value, fs[j].value);
    assert Codes(fs)[j] == CodeOf(e);
  }

  lemma {:induction false} EncodesEntry(es: seq<Entry>, f: Entry)
    requires EntryEncodable(f) && (forall i :: 0 <= i < |es| ==> EntryEncodable(es[i])) && Amid(es, f)
    ensures CodeOf(f) in Codes(es)
    decreases es, 0
  {
    hide Same, Encode, Encodable;
    var i :| 0 <= i < |es| && SameEntry(es[i], f);
    var e := es[i];
    assert SameEntry(e, [f][0]);
    EntryEncodes(e, [f]);
    assert Codes([f])[0] == CodeOf(f);
    assert CodeOf(e) == CodeOf(f);
    assert Codes(es)[i] == CodeOf(f);
  }

  /**
   * Encoding is equality: two values have the same octets exactly when they are equal, so a
   * dictionary's encoding does not depend on insertion order and no two different values collide.
   */
  lemma EncodingIsEquality(v: Value, w: Value)
    requires Encodable(v) && Encodable(w)
    ensures Encode(v) == Encode(w) <==> Same(v, w)
  {
    hide Encode, Same, Encodable, Item;
    if Same(v, w) {
      SameEncodes(v, w);
    }
    if Encode(v) == Encode(w) {
      PrefixFree(v, w, [], []);
    }
  }

  /** No encoding continues another: equal concatenations have equal values and equal remainders. */
  lemma PrefixFree(v: Value, w: Value, a: seq<byte>, b: seq<byte>)
    requires Encodable(v) && Encodable(w) && Encode(v) + a == Encode(w) + b
    ensures Same(v, w) && a == b
  {
    hide Encode, Same, Encodable, Item;
    RoundTrip(v, a);
    RoundTrip(w, b);
    var r := Item(Encode(v) + a).value.value;
    SameSymmetric(r, v);
    SameTransitive(v, r, w);
  }

  /** `cbor_decode` returns every encodable value from its encoding, and refuses the encoding with anything after it. */
  lemma DecodeInvertsEncode(v: Value, suffix: seq<byte>)
    requires Encodable(v)
    ensures Decode(Encode(v)).Ok? && Same(Decode(Encode(v)).value, v)
    ensures suffix != [] ==> Decode(Encode(v) + suffix) == Err(TrailingBytes)
  {
    hide Encode, Same, Encodable, Item;
    RoundTrip(v, suffix);
    RoundTrip(v, []);
    assert Encode(v) + [] == Encode(v);
  }

  // ---- The wire format (RFC 8949 section 3) ----

  /** The number of octets an argument takes after the initial one. */
  function ArgumentWidth(n: nat): nat {
    if n < 24 then 0 else if n < 0x100 then 1 else if n < 0x1_0000 then 2 else if n < 0x1_0000_0000 then 4 else 8
  }

  /** The low five bits of the initial octet. */
  function Information(n: nat): nat {
    match ArgumentWidth(n)
    case 0 => n
    case 1 => 24
    case 2 => 25
    case 4 => 26
    case _ => 27
  }

  /** A head is the major type in the high three bits, and the argument there or big-endian after it. */
  lemma HeadIsRfc8949(major: Major, n: nat)
    requires n < U64_LIMIT
    ensures var h, width := Head(major, n), ArgumentWidth(n);
            && |h| == 1 + width && h[0] == 32 * major + Information(n)
            && forall i :: 1 <= i <= width ==> h[i] == Digit(n, width - i)
  {
    var width := ArgumentWidth(n);
    if n >= 24 {
      assert Head(major, n)[1..] == if width == 1 then [n] else ToBe(n, width);
      hide Head, Digit, ToBe;
      forall i | 1 <= i <= width ensures Head(major, n)[i] == Digit(n, width - i) {
        assert Head(major, n)[i] == Head(major, n)[1..][i - 1];
        if width > 1 {
          BeDigits(n, width, i - 1);
        } else {
          LowDigit(n);
        }
      }
    }
  }

  lemma LowDigit(n: nat)
    requires n < 256
    ensures Digit(n, 0) == n
  {
    assert Pow256(0) == 1;
  }

  /** Each kind of value has its major type, and the two truth values and null their own octet. */
  lemma KindsAreRfc8949(v: Value)
    requires Encodable(v)
    ensures match v
      case Bool(b) => Encode(v) == [if b then 0xF5 else 0xF4]
      case Null => Encode(v) == [0xF6]
      case Int(n) => Encode(v) == if n >= 0 then Head(0, n) else Head(1, -1 - n)
      case Blob(octets) => Encode(v) == Head(2, |octets|) + octets
      case Text(utf8) => Encode(v) == Head(3, |utf8|) + utf8
      case List(items) => Head(4, |items|) <= Encode(v)
      case Dict(entries) => Head(5, |entries|) <= Encode(v)
  {
  }

  /** The decoder reads an argument at any of the four widths, needed or not. */
  lemma ArgumentAtAnyWidth(n: nat, info: nat, rest: seq<byte>)
    requires 24 <= info <= 27
    requires var width := if info == 24 then 1 else if info == 25 then 2 else if info == 26 then 4 else 8;
             n < Pow256(width)
    ensures var width := if info == 24 then 1 else if info == 25 then 2 else if info == 26 then 4 else 8;
            ReadArgument(info, ToBe(n, width) + rest) == Ok(Argument(n, rest))
  {
    var width := Width(info);
    BeRoundTrip(n, width);
    var b := ToBe(n, width) + rest;
    assert b[..width] == ToBe(n, width) && b[width..] == rest;
  }

  /** The value a dictionary holds for a key. */
  function Lookup(entries: seq<Entry>, key: Value): Option<Value> {
    if entries == [] then None
    else if AsKey(entries[0].key) == AsKey(key) then Some(entries[0].value)
    else Lookup(entries[1..], key)
  }

  /** Assigning gives the key the value, keeps every other key's, and keeps the order of the keys there were. */
  lemma {:induction false} AssignedIsLookedUp(entries: seq<Entry>, key: Value, value: Value, other: Value)
    ensures var r := Assign(entries, key, value);
            && Lookup(r, other) == (if AsKey(other) == AsKey(key) then Some(value) else Lookup(entries, other))
            && |r| >= |entries| && forall i :: 0 <= i < |entries| ==> r[i].key == entries[i].key
  {
    if entries != [] && AsKey(entries[0].key) != AsKey(key) {
      AssignedIsLookedUp(entries[1..], key, value, other);
      var r := Assign(entries, key, value);
      assert r[1..] == Assign(entries[1..], key, value);
      forall i | 0 <= i < |entries| ensures r[i].key == entries[i].key {
        if i > 0 {
          assert r[i] == r[1..][i - 1] && entries[i] == entries[1..][i - 1];
        }
      }
    } else if entries != [] {
      assert Assign(entries, key, value)[1..] == entries[1..];
    } else {
      assert Assign(entries, key, value)[1..] == [];
    }
  }
}
