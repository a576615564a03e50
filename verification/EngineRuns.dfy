/** What every run of the CCID slot engine keeps. */
module EngineRuns {
  import opened Bytes
  import opened Codec
  import opened EngineModel
  import opened EngineEffects

  // ---- The invariant of every reachable state ----

  lemma {:induction false} ChunksAreSmall(data: seq<byte>, n: nat)
    requires n > 0
    ensures forall i :: 0 <= i < |Chunks(data, n)| ==> 0 < |Chunks(data, n)[i]| <= n
  {
    if |data| > n {
      ChunksAreSmall(data[n..], n);
    }
  }

  lemma BeginKeepsInv(c: Config, s: State, now: Instant, id: nat, op: Operation)
    requires Inv(c, s) && Refusal(c, s, op).None?
    ensures Inv(c, Begun(c, s, now, id, op).s)
  {
    hide FirstFrame;
    if IsSplit(c, op) {
      ChunksAreSmall(op.data[c.maxPayloadLength..], c.maxPayloadLength);
    }
  }

  lemma EndKeepsInv(c: Config, s: State, call: Call, o: Outcome, e: Effect)
    requires Inv(c, s) && Has(c, s, call, o, e) && !Sends(e)
    ensures Inv(c, o.s)
  {
    hide Begun, Refusal, ReplyIn, Answers;
    if e.Begins? {
      BeginKeepsInv(c, s, call.now, call.event.id, call.event.op);
    }
  }

  lemma SendKeepsInv(c: Config, s: State, call: Call, o: Outcome, e: Effect)
    requires Inv(c, s) && Has(c, s, call, o, e) && Sends(e)
    ensures Inv(c, o.s)
  {
    hide ReplyIn, EncodeXfrBlock;
  }

  lemma CallKeepsInv(c: Config, s: State, call: Call)
    requires Inv(c, s)
    ensures Inv(c, Apply(c, s, call).s)
  {
    hide Apply, Inv, Has;
    var e := EffectOf(c, s, call);
    if Sends(e) {
      SendKeepsInv(c, s, call, Apply(c, s, call), e);
    } else {
      EndKeepsInv(c, s, call, Apply(c, s, call), e);
    }
  }

  /** One more call on a run. */
  lemma ExecExtends(c: Config, calls: seq<Call>, call: Call)
    ensures Exec(c, calls + [call]) == Apply(c, Exec(c, calls), call).s
    ensures Output(c, calls + [call], |calls|) == Apply(c, Exec(c, calls), call).t
  {
    hide Apply;
    assert (calls + [call])[..|calls|] == calls;
  }

  lemma {:induction false} Reachable(c: Config, calls: seq<Call>)
    ensures Inv(c, Exec(c, calls))
  {
    hide Apply;
    if calls != [] {
      Reachable(c, calls[..|calls| - 1]);
      CallKeepsInv(c, Exec(c, calls[..|calls| - 1]), calls[|calls| - 1]);
    }
  }

  // ---- Every Start is answered exactly once, under its own id ----

  function Own(a: Action): multiset<nat> {
    if a.Complete? then multiset{a.id} else multiset{}
  }

  function CompletedIn(actions: seq<Action>): multiset<nat> {
    if actions == [] then multiset{} else Own(actions[0]) + CompletedIn(actions[1..])
  }

  function PendingIds(s: State): multiset<nat> {
    if s.pending.Some? then multiset{s.pending.value.id} else multiset{}
  }

  function StartedBy(call: Call): multiset<nat> {
    if call.StepCall? && call.event.Start? then multiset{call.event.id} else multiset{}
  }

  function Started(calls: seq<Call>): multiset<nat> {
    if calls == [] then multiset{} else Started(calls[..|calls| - 1]) + StartedBy(calls[|calls| - 1])
  }

  function Answered(c: Config, calls: seq<Call>): multiset<nat> {
    if calls == [] then multiset{}
    else Answered(c, calls[..|calls| - 1]) + CompletedIn(Output(c, calls, |calls| - 1).actions)
  }

  lemma CompletedInShort(actions: seq<Action>)
    requires |actions| <= 3
    ensures |actions| == 0 ==> CompletedIn(actions) == multiset{}
    ensures |actions| == 1 ==> CompletedIn(actions) == Own(actions[0])
    ensures |actions| == 2 ==> CompletedIn(actions) == Own(actions[0]) + Own(actions[1])
    ensures |actions| == 3 ==> CompletedIn(actions) == Own(actions[0]) + Own(actions[1]) + Own(actions[2])
  {
    if actions != [] {
      CompletedInShort(actions[1..]);
    }
  }

  /** An id moves from started to pending or answered, and at most one is answered. */
  predicate ConservesIds(s: State, call: Call, o: Outcome) {
    && PendingIds(o.s) + CompletedIn(o.t.actions) == PendingIds(s) + StartedBy(call)
    && |CompletedIn(o.t.actions)| <= 1
  }

  lemma ErrorAnswerIds(actions: seq<Action>, id: nat)
    requires ErrorAnswer(actions, id)
    ensures CompletedIn(actions) == multiset{id}
  {
    CompletedInShort(actions);
  }

  lemma BeginConservesIds(c: Config, s: State, call: Call, o: Outcome)
    requires Has(c, s, call, o, Begins)
    ensures ConservesIds(s, call, o)
  {
    hide NewFlight, FirstFrame, CompletedIn;
    assert s.pending.None?;
    CompletedInShort(o.t.actions);
  }

  lemma EndConservesIds(c: Config, s: State, call: Call, o: Outcome, e: Effect)
    requires Has(c, s, call, o, e) && !Sends(e) && !e.Begins?
    ensures ConservesIds(s, call, o)
  {
    hide Refusal, ReplyIn, Answers, CompletedIn, ErrorAnswer, CardMoves;
    if e.Fails? {
      ErrorAnswerIds(o.t.actions, s.pending.value.id);
    } else {
      CompletedInShort(o.t.actions);
    }
  }

  lemma SendConservesIds(c: Config, s: State, call: Call, o: Outcome, e: Effect)
    requires Has(c, s, call, o, e) && Sends(e)
    ensures ConservesIds(s, call, o)
  {
    hide ReplyIn, EncodeXfrBlock, CompletedIn;
    CompletedInShort(o.t.actions);
  }

  lemma CallConservesIds(c: Config, s: State, call: Call)
    requires Inv(c, s)
    ensures ConservesIds(s, call, Apply(c, s, call))
  {
    hide Apply, Inv, Has, ConservesIds;
    var e := EffectOf(c, s, call);
    if e.Begins? {
      BeginConservesIds(c, s, call, Apply(c, s, call));
    } else if Sends(e) {
      SendConservesIds(c, s, call, Apply(c, s, call), e);
    } else {
      EndConservesIds(c, s, call, Apply(c, s, call), e);
    }
  }

  lemma MoveIds(started: multiset<nat>, answered: multiset<nat>, pending: multiset<nat>, start: multiset<nat>,
                completed: multiset<nat>, pending': multiset<nat>)
    requires started == answered + pending && pending' + completed == pending + start
    ensures started + start == answered + completed + pending'
  {
    assert started + start == answered + (pending + start);
  }

  /**
   * Over every run, the ids given to Start are exactly the ids answered plus the one still pending:
   * no operation is lost, answered twice or answered under another's id, and no call answers two.
   */
  lemma {:induction false} EveryStartAnsweredOnce(c: Config, calls: seq<Call>)
    ensures Started(calls) == Answered(c, calls) + PendingIds(Exec(c, calls))
    ensures forall i: nat :: i < |calls| ==> |CompletedIn(Output(c, calls, i).actions)| <= 1
  {
    hide Apply, CompletedIn;
    if calls != [] {
      var n := |calls| - 1;
      EveryStartAnsweredOnce(c, calls[..n]);
      forall i: nat | i < |calls|
        ensures |CompletedIn(Output(c, calls, i).actions)| <= 1
      {
        Reachable(c, calls[..i]);
        CallConservesIds(c, Exec(c, calls[..i]), calls[i]);
      }
      Reachable(c, calls[..n]);
      CallConservesIds(c, Exec(c, calls[..n]), calls[n]);
      MoveIds(Started(calls[..n]), Answered(c, calls[..n]), PendingIds(Exec(c, calls[..n])), StartedBy(calls[n]),
              CompletedIn(Output(c, calls, n).actions), PendingIds(Exec(c, calls)));
    }
  }

  // ---- What no reply changes ----

  predicate SameSettings(s: State, s': State) {
    s'.connected == s.connected && s'.waitingUnitMs == s.waitingUnitMs
  }

  lemma BlockKeepsSettings(c: Config, s: State, now: Instant, p: Pending, card: CardStatus, chain: ChainParameter,
                           payload: seq<byte>)
    ensures SameSettings(s, OnDataBlock(c, s, now, p, card, chain, payload).s)
  {
    hide EncodeXfrBlock;
  }

  lemma ReplyKeepsSettings(c: Config, s: State, call: Call)
    requires IsBulkIn(call)
    ensures SameSettings(s, Apply(c, s, call).s)
  {
    hide DecodeResponse, OnDataBlock, OnInterrupt, OnStart;
    if s.pending.Some? && ReplyIn(c, s, call).Ok? && ReplyIn(c, s, call).value.DataBlock? {
      var reply := ReplyIn(c, s, call).value;
      BlockKeepsSettings(c, s, call.now, s.pending.value, reply.card, reply.chain, reply.payload);
    }
  }
}
