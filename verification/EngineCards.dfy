/** The card generation of the slot engine: what an unchanged generation proves about the card. */
module EngineCards {
  import opened Wrappers
  import opened Bytes
  import opened CcidErrors
  import opened Codec
  import opened EngineModel
  import opened EngineEffects
  import opened EngineRuns
  import opened EngineWatch

  /** An interrupt packet that flags a presence change for the engine's own slot (section 6.3.1). */
  predicate ReportsChange(c: Config, call: Call) {
    && call.StepCall? && call.event.InterruptReceived?
    && DecodeSlotChange(call.event.raw, c.maxSlotIndex).Ok?
    && ChangedIn(DecodeSlotChange(call.event.raw, c.maxSlotIndex).value, c.slot)
  }

  lemma ReportedChangeBumps(c: Config, s: State, call: Call)
    requires ReportsChange(c, call)
    ensures Apply(c, s, call).s.card.gen == Succ64(s.card.gen)
  {
    hide ChangedIn, CardPresentIn, SlotBit, OnHardwareError, OnStart, OnBulkIn;
  }

  lemma CallMovesCard(c: Config, s: State, call: Call)
    requires Inv(c, s)
    ensures CardMoves(s.card, Apply(c, s, call).s.card, IsConnectionLost(call))
  {
    hide Apply, Has, Inv, CardMoves;
    var o := Apply(c, s, call);
    var e := EffectOf(c, s, call);
    if e.Begins? {
      BeginMovesNoCard(c, s, call, o);
      CardStays(c, s, call);
    } else if Sends(e) {
      SendMoves(c, s, call, o, e);
      CardStays(c, s, call);
    } else {
      EndMovesCard(c, s, call, o, e);
    }
  }

  lemma CardStays(c: Config, s: State, call: Call)
    requires Inv(c, s)
    ensures CardMoves(s.card, s.card, IsConnectionLost(call))
  {
  }

  lemma BeginMovesNoCard(c: Config, s: State, call: Call, o: Outcome)
    requires Has(c, s, call, o, Begins)
    ensures o.s.card == s.card
  {
    hide NewFlight, FirstAction, Refusal;
  }

  lemma EndMovesCard(c: Config, s: State, call: Call, o: Outcome, e: Effect)
    requires Inv(c, s) && Has(c, s, call, o, e) && !Sends(e) && !e.Begins?
    ensures CardMoves(s.card, o.s.card, IsConnectionLost(call))
  {
    hide ReplyIn, Answers, Refusal, ErrorAnswer, FlightOk;
  }

  /**
   * In every reachable state an activated card is a present one, each call adds zero or one to the
   * generation, and a call makes the card disappear without a new generation exactly when it reports
   * the connection lost.
   */
  lemma OnlyConnectionLossIsSilent(c: Config, calls: seq<Call>, call: Call)
    ensures var card := Exec(c, calls).card;
            var card' := Apply(c, Exec(c, calls), call).s.card;
            && (card.activated ==> card.present)
            && (card'.gen == card.gen || card'.gen == Succ64(card.gen))
            && (card.present && !card'.present && card'.gen == card.gen <==> card.present && IsConnectionLost(call))
  {
    Reachable(c, calls);
    hide Exec, Apply;
    CallMovesCard(c, Exec(c, calls), call);
    if IsConnectionLost(call) {
      LossIsSilent(c, Exec(c, calls), call);
    }
  }

  /** A card the caller reports activated is gone after the connection is lost, its generation the first one still. */
  lemma SilentLoss(c: Config)
    ensures var calls := [SetActivated(true)];
            && Exec(c, calls).card == Card(1, true, true)
            && Exec(c, calls + [StepCall(0, ConnectionLost)]).card == Card(1, false, false)
  {
    hide Exec, Apply;
    var calls, loss := [SetActivated(true)], StepCall(0, ConnectionLost);
    FirstActivation(c);
    ExecExtends(c, calls, loss);
    LossIsSilent(c, Exec(c, calls), loss);
  }

  lemma FirstActivation(c: Config)
    ensures Exec(c, [SetActivated(true)]).card == Card(1, true, true)
  {
    hide Step;
    assert Exec(c, []) == Initial;
    assert [] + [SetActivated(true)] == [SetActivated(true)];
    ExecExtends(c, [], SetActivated(true));
    hide Exec;
  }

  lemma LossIsSilent(c: Config, s: State, call: Call)
    requires IsConnectionLost(call)
    ensures Apply(c, s, call).s.card == Card(s.card.gen, false, false)
  {
    hide OnStart, OnBulkIn, OnInterrupt;
  }

  function Bump(before: nat, after: nat): nat {
    if before == after then 0 else 1
  }

  /** How many calls of a run gave the card a new generation. */
  function Bumps(c: Config, calls: seq<Call>): nat {
    if calls == [] then 0
    else Bumps(c, calls[..|calls| - 1]) + Bump(Exec(c, calls[..|calls| - 1]).card.gen, Exec(c, calls).card.gen)
  }

  /** Fewer bumps apart than there are generations. */
  predicate WithinOneCycle(before: nat, after: nat) {
    after - before < U64_LIMIT
  }

  lemma {:induction false} GenerationCountsBumps(c: Config, calls: seq<Call>)
    ensures Exec(c, calls).card.gen == (1 + Bumps(c, calls)) % U64_LIMIT
    ensures Bumps(c, calls) <= |calls|
  {
    hide Apply, Inv;
    if calls != [] {
      var n := |calls| - 1;
      GenerationCountsBumps(c, calls[..n]);
      Reachable(c, calls[..n]);
      CallMovesCard(c, Exec(c, calls[..n]), calls[n]);
    }
  }

  lemma {:induction false} BumpsGrow(c: Config, calls: seq<Call>, i: nat, j: nat)
    requires i <= j <= |calls|
    ensures Bumps(c, calls[..i]) <= Bumps(c, calls[..j]) <= Bumps(c, calls[..i]) + (j - i)
    decreases j
  {
    hide Exec;
    if i < j {
      BumpsGrow(c, calls, i, j - 1);
      assert calls[..j][..j - 1] == calls[..j - 1];
    }
  }

  /**
   * One generation is one card: in any run, if two moments fewer than 2^64 bumps apart show the same
   * generation, the card was present at the first and no connection was lost between, then at every
   * moment between the card was present with that generation, and no interrupt reported a change for
   * its slot.
   */
  lemma SameGenerationSameCard(c: Config, calls: seq<Call>, i: nat, j: nat, k: nat)
    requires i <= k <= j <= |calls| && WithinOneCycle(Bumps(c, calls[..i]), Bumps(c, calls[..j]))
    requires Exec(c, calls[..i]).card.gen == Exec(c, calls[..j]).card.gen && Exec(c, calls[..i]).card.present
    requires forall m: nat :: i <= m < j ==> !IsConnectionLost(calls[m])
    ensures Exec(c, calls[..k]).card.gen == Exec(c, calls[..i]).card.gen && Exec(c, calls[..k]).card.present
    ensures k < j ==> !ReportsChange(c, calls[k])
    decreases k
  {
    hide Exec, Apply, Inv, Bumps, ReportsChange;
    SameBumps(c, calls, i, j, k);
    if i < k {
      SameGenerationSameCard(c, calls, i, j, k - 1);
      assert calls[..k] == calls[..k - 1] + [calls[k - 1]];
      ExecExtends(c, calls[..k - 1], calls[k - 1]);
      Reachable(c, calls[..k - 1]);
      CallMovesCard(c, Exec(c, calls[..k - 1]), calls[k - 1]);
      GenerationIsSmall(c, calls[..k - 1]);
    }
    if k < j && ReportsChange(c, calls[k]) {
      GenerationIsSmall(c, calls[..k]);
      assert calls[..k + 1] == calls[..k] + [calls[k]];
      ExecExtends(c, calls[..k], calls[k]);
      SameBumps(c, calls, i, j, k + 1);
      ReportedChangeBumps(c, Exec(c, calls[..k]), calls[k]);
      assert false;
    }
  }

  lemma GenerationIsSmall(c: Config, calls: seq<Call>)
    ensures Exec(c, calls).card.gen < U64_LIMIT
  {
    hide Exec, Bumps;
    GenerationCountsBumps(c, calls);
  }

  lemma SameBumps(c: Config, calls: seq<Call>, i: nat, j: nat, k: nat)
    requires i <= k <= j <= |calls| && WithinOneCycle(Bumps(c, calls[..i]), Bumps(c, calls[..j]))
    requires Exec(c, calls[..i]).card.gen == Exec(c, calls[..j]).card.gen
    ensures Exec(c, calls[..k]).card.gen == Exec(c, calls[..i]).card.gen
  {
    hide Exec, Bumps;
    BumpsGrow(c, calls, i, k);
    BumpsGrow(c, calls, k, j);
    GenerationCountsBumps(c, calls[..i]);
    GenerationCountsBumps(c, calls[..j]);
    GenerationCountsBumps(c, calls[..k]);
  }

  /** An interrupt packet whose bits for the slot differ from what the engine believes, or say it changed. */
  predicate IsNews(c: Config, card: Card, call: Call) {
    && call.StepCall? && call.event.InterruptReceived?
    && DecodeSlotChange(call.event.raw, c.maxSlotIndex).Ok?
    && var n := DecodeSlotChange(call.event.raw, c.maxSlotIndex).value;
       ChangedIn(n, c.slot) || CardPresentIn(n, c.slot) != card.present
  }

  predicate IsPublication(a: Action) {
    a.PublishSlotChange?
  }

  lemma InterruptPublishes(c: Config, s: State, call: Call)
    requires call.StepCall? && call.event.InterruptReceived?
    ensures var o := Apply(c, s, call);
            var p := PublishSlotChange(c.slot, o.s.card.present, o.s.card.gen);
            if IsNews(c, s.card, call) then
              && o.s.card.gen == Succ64(s.card.gen)
              && o.s.card.present == CardPresentIn(DecodeSlotChange(call.event.raw, c.maxSlotIndex).value, c.slot)
              && (o.t.actions == [p] ||
                  (s.pending.Some? &&
                   o.t.actions == [CancelTransfers, Complete(s.pending.value.id, Err(CardRemoved)), p]))
            else forall a :: a in o.t.actions ==> !IsPublication(a)
  {
    hide OnStart, OnBulkIn, CardPresentIn, ChangedIn;
  }

  lemma OthersPublishNothing(c: Config, s: State, call: Call)
    requires Inv(c, s) && !(call.StepCall? && call.event.InterruptReceived?)
    ensures forall a :: a in Apply(c, s, call).t.actions ==> !IsPublication(a)
  {
    hide OnInterrupt, DecodeResponse, FirstFrame, NewFlight, EncodeXfrBlock, EncodeAbort, Refusal, FlightOk;
  }

  /**
   * The engine publishes a slot change exactly when an interrupt brings news of its slot, and what it
   * publishes is its slot, the presence the packet shows and the new generation, all as it then holds
   * them.
   */
  lemma PublicationsTellTheCard(c: Config, calls: seq<Call>, call: Call)
    ensures var card := Exec(c, calls).card;
            var o := Apply(c, Exec(c, calls), call);
            && ((exists a :: a in o.t.actions && IsPublication(a)) <==> IsNews(c, card, call))
            && (forall a :: a in o.t.actions && IsPublication(a) ==>
                  && a == PublishSlotChange(c.slot, o.s.card.present, o.s.card.gen)
                  && o.s.card.gen == Succ64(card.gen)
                  && o.s.card.present == CardPresentIn(DecodeSlotChange(call.event.raw, c.maxSlotIndex).value, c.slot))
  {
    hide Apply, Exec, Inv, DecodeSlotChange, CardPresentIn, ChangedIn;
    var s := Exec(c, calls);
    Reachable(c, calls);
    if call.StepCall? && call.event.InterruptReceived? {
      InterruptPublishes(c, s, call);
      if IsNews(c, s.card, call) {
        var actions := Apply(c, s, call).t.actions;
        assert IsPublication(actions[|actions| - 1]);
      }
    } else {
      OthersPublishNothing(c, s, call);
    }
  }

  predicate PowersOn(t: Transition) {
    |t.actions| == 1 && t.actions[0].Complete? && t.actions[0].result.Ok? && t.actions[0].result.value.PoweredOn?
  }

  lemma BlockActivates(c: Config, s: State, now: Instant, p: Pending, card: CardStatus, chain: ChainParameter,
                       payload: seq<byte>)
    requires !s.card.activated
    ensures var o := OnDataBlock(c, s, now, p, card, chain, payload);
            o.s.card.activated <==> p.kind.PoweringOn? && PowersOn(o.t)
  {
    hide EncodeXfrBlock;
  }

  lemma ReplyActivates(c: Config, s: State, call: Call)
    requires Inv(c, s) && !s.card.activated && IsBulkIn(call)
    ensures var o := Apply(c, s, call);
            o.s.card.activated <==> s.pending.Some? && s.pending.value.kind.PoweringOn? && PowersOn(o.t)
  {
    hide DecodeResponse, OnDataBlock, OnInterrupt, OnStart, FlightOk;
    if s.pending.Some? && ReplyIn(c, s, call).Ok? && ReplyIn(c, s, call).value.DataBlock? {
      var r := ReplyIn(c, s, call).value;
      BlockActivates(c, s, call.now, s.pending.value, r.card, r.chain, r.payload);
    }
    if s.pending.Some? && ReplyIn(c, s, call).Ok? {
      PowerOnReply(c, s, call);
    }
  }

  lemma PowerOnReply(c: Config, s: State, call: Call)
    requires Inv(c, s) && IsBulkIn(call) && s.pending.Some? && ReplyIn(c, s, call).Ok?
    ensures s.pending.value.kind.PoweringOn? ==>
              !ReplyIn(c, s, call).value.SlotStatus? && !ReplyIn(c, s, call).value.Parameters?
  {
    hide DecodeResponse;
    AcceptedReply(call.event.io.frame, s.flight.expectedType, c.slot, s.flight.expectedSeq);
  }

  lemma InterruptActivatesNothing(c: Config, s: State, call: Call)
    requires !s.card.activated && call.StepCall? && call.event.InterruptReceived?
    ensures !Apply(c, s, call).s.card.activated && !PowersOn(Apply(c, s, call).t)
  {
    hide OnStart, OnBulkIn, CardPresentIn, ChangedIn, DecodeSlotChange, DecodeHardwareError;
  }

  lemma OthersActivateNothing(c: Config, s: State, call: Call)
    requires !s.card.activated && !IsBulkIn(call) && !(call.StepCall? && call.event.InterruptReceived?)
    ensures Apply(c, s, call).s.card.activated <==> call == SetActivated(true)
    ensures !PowersOn(Apply(c, s, call).t)
  {
    hide Begun, EncodeAbort, Refusal, OnInterrupt, OnBulkIn;
    if call.StepCall? && call.event.Start? && Refusal(c, s, call.event.op).None? {
      BeginActivatesNothing(c, s, call);
    }
  }

  lemma BeginActivatesNothing(c: Config, s: State, call: Call)
    requires call.StepCall? && call.event.Start?
    ensures var o := Begun(c, s, call.now, call.event.id, call.event.op);
            o.s.card == s.card && !PowersOn(o.t)
  {
    hide FirstFrame, NewFlight;
  }

  /** A card becomes activated only by an answered PowerOn or by the caller's word. */
  lemma OnlyPowerOnActivates(c: Config, calls: seq<Call>, call: Call)
    requires !Exec(c, calls).card.activated
    ensures var s, o := Exec(c, calls), Apply(c, Exec(c, calls), call);
            o.s.card.activated <==>
              || call == SetActivated(true)
              || (s.pending.Some? && s.pending.value.kind.PoweringOn? && PowersOn(o.t))
  {
    hide Apply, Exec, Inv, PowersOn;
    Reachable(c, calls);
    if IsBulkIn(call) {
      ReplyActivates(c, Exec(c, calls), call);
    } else if call.StepCall? && call.event.InterruptReceived? {
      InterruptActivatesNothing(c, Exec(c, calls), call);
    } else {
      OthersActivateNothing(c, Exec(c, calls), call);
    }
  }
}
