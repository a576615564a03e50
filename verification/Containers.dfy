/**
 Reading the PIN container a GET DATA answer carries (FINEID S1 v4.2 section
 3.15.3): both readers slide a window over the octets rather than parse them.
 */
module Containers {
  import opened Wrappers
  import opened Bytes

  /** A retry counter: one nibble of a status word. */
  type Tries = n: nat | n < 16

  datatype ChangeRecord = Changed | Unchanged | Unreadable

  predicate AttributesAt(body: seq<byte>, start: nat)
    requires start + 7 <= |body|
  {
    body[start] == 0xDF && body[start + 1] == 0x21 && body[start + 2] == 4
  }

  /** A window the counter is taken from. */
  predicate CounterAt(body: seq<byte>, start: nat)
    requires start + 7 <= |body|
  {
    AttributesAt(body, start) && body[start + 3] < 16
  }

  /** The counter of the first window from `start` on that holds one. */
  function CounterFrom(body: seq<byte>, start: nat): Option<Tries>
    decreases |body| - start
  {
    if start + 7 > |body| then None
    else if CounterAt(body, start) then Some(body[start + 3])
    else CounterFrom(body, start + 1)
  }

  method ReadCounter(body: seq<byte>) returns (tries: Option<Tries>)
    ensures tries == CounterFrom(body, 0)
  {
    var start := 0;
    while start + 7 <= |body|
      invariant CounterFrom(body, start) == CounterFrom(body, 0)
    {
      if AttributesAt(body, start) && body[start + 3] < 16 {
        return Some(body[start + 3]);
      }
      start := start + 1;
    }
    return None;
  }

  /** The counter read is the one of the first window that looks like the attributes object. */
  lemma {:induction false} FirstWindowIsRead(body: seq<byte>, start: nat, at: nat)
    requires start <= at && at + 7 <= |body| && CounterAt(body, at)
    requires forall k :: start <= k < at ==> !CounterAt(body, k)
    ensures CounterFrom(body, start) == Some(body[at + 3])
    decreases at - start
  {
    if start < at {
      assert !CounterAt(body, start);
      FirstWindowIsRead(body, start + 1, at);
    }
  }

  lemma {:induction false} NoWindowNoCounter(body: seq<byte>, start: nat)
    ensures CounterFrom(body, start).None? <==> forall k :: start <= k <= |body| - 7 ==> !CounterAt(body, k)
    decreases |body| - start
  {
    if start + 7 <= |body| && !CounterAt(body, start) {
      NoWindowNoCounter(body, start + 1);
    }
  }

  predicate FlagAt(body: seq<byte>, start: nat)
    requires start + 4 <= |body|
  {
    body[start] == 0xDF && body[start + 1] == 0x2F && body[start + 2] == 1
  }

  function FlagMeans(flag: byte): ChangeRecord {
    if flag == 0 then Unchanged else if flag == 1 then Changed else Unreadable
  }

  /** Unlike the counter, the first window decides even when its flag means nothing. */
  function RecordFrom(body: seq<byte>, start: nat): ChangeRecord
    decreases |body| - start
  {
    if start + 4 > |body| then Unreadable
    else if FlagAt(body, start) then FlagMeans(body[start + 3])
    else RecordFrom(body, start + 1)
  }

  method ReadRecord(body: seq<byte>) returns (record: ChangeRecord)
    ensures record == RecordFrom(body, 0)
  {
    var start := 0;
    while start + 4 <= |body|
      invariant RecordFrom(body, start) == RecordFrom(body, 0)
    {
      if FlagAt(body, start) {
        return FlagMeans(body[start + 3]);
      }
      start := start + 1;
    }
    return Unreadable;
  }

  /** The octets DF 2F 01 stand at `k`. */
  predicate MarksAFlag(body: seq<byte>, k: nat) {
    k + 3 <= |body| && body[k..k + 3] == [0xDF, 0x2F, 0x01]
  }

  lemma FlagOctets(body: seq<byte>, k: nat)
    requires k + 4 <= |body|
    ensures FlagAt(body, k) <==> MarksAFlag(body, k)
  {
    assert body[k..k + 3] == [body[k], body[k + 1], body[k + 2]];
  }

  /** Where the mark first stands with an octet behind it, that octet says 0 unchanged, 1 changed. */
  lemma {:induction false} FirstFlagDecides(body: seq<byte>, start: nat, at: nat)
    requires start <= at && at + 4 <= |body| && MarksAFlag(body, at)
    requires forall k :: start <= k < at ==> !MarksAFlag(body, k)
    ensures RecordFrom(body, start) ==
              if body[at + 3] == 0 then Unchanged else if body[at + 3] == 1 then Changed else Unreadable
    decreases at - start
  {
    FlagOctets(body, start);
    if start < at {
      FirstFlagDecides(body, start + 1, at);
    }
  }

  /** Without such a mark the record cannot be read. */
  lemma {:induction false} NoFlagNoRecord(body: seq<byte>, start: nat)
    requires forall k :: start <= k <= |body| - 4 ==> !MarksAFlag(body, k)
    ensures RecordFrom(body, start) == Unreadable
    decreases |body| - start
  {
    if start + 4 <= |body| {
      FlagOctets(body, start);
      NoFlagNoRecord(body, start + 1);
    }
  }

  /** A window holds a counter when it starts DF 21 04 and the octet behind them is below sixteen. */
  lemma CounterOctets(body: seq<byte>, at: nat)
    requires at + 7 <= |body|
    ensures CounterAt(body, at) <==> body[at..at + 3] == [0xDF, 0x21, 0x04] && body[at + 3] < 16
  {
    assert body[at..at + 3] == [body[at], body[at + 1], body[at + 2]];
  }
}
