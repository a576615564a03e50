# refineid-core, verified

A Dafny model of the parts of refineid-core where a small mistake is expensive: the driver of a
USB smart card reader, the codecs around it, the rule that keeps a holder from losing a card, and
the deterministic CBOR its protocol vectors are built with. `dafny verify dfyconfig.toml` checks
every file.

## What is modelled

**The CCID slot engine** (`EngineModel`, `Engine`). `EngineModel` gives one call on the engine as a
function from state to state and actions; `Engine.CcidEngine` is the object with the source's
fields that carries it out in place, and its ghost `history` ties the fields to the run so far. The
theorems are about every run of calls on a new engine. They are stated against `EngineWatch`, an
observer that sees only what crosses the engine's boundary (the calls, the actions and the
deadlines), so what they promise can be read off a trace. `EngineEffects` reduces every call to one
of ten effects. On top of it: ids (`EngineRuns`), frames (`EngineFrames`), answers and progress
(`EngineAnswers`), whole conversations with a conforming reader (`EngineDialogue`), errors
(`EngineErrors`), what each event ends and leaves (`EngineEnds`), the recovery gate
(`EngineRecovery`), deadlines and sequence numbers (`EngineTimers`) and the card generation
(`EngineCards`). `ReaderSide` is the other end of the pipe, written from the standard (USB-IF Smart Card CCID Rev 1.1): what a
conforming reader sends, and what it understands of what the host sends.

**The slot event poller** (`Poller`): the object over its array of slot states, and what its event
stream tells over any mix of packets and snapshots.

**Deterministic CBOR** (`Cbor`, `CborProofs`, `CborShortest`, `CborDeterministic`, `CborText`,
`CborFaults`, `CborReader`): RFC 8949 sections 3 and 4.2.1. A dictionary is its list of entries in
insertion order; `Same` compares dictionaries as maps and every other value exactly.

**BER-TLV and the Answer to Reset** (`Ber`, `BerProofs`, `Atr`, `AtrProofs`, `AtrGrammar`): ITU-T X.690
sections 8.1.2 and 8.1.3 and ISO 7816-3 section 8, parser and printer against each other and both
against the octets the standard prescribes. `AtrGrammar` is the ATR grammar in plain numbers.

**The retry floor** (`Credentials`, `Containers`, `RetryFloor`, `Manage`, `PaceChannel`, `CardOps`)
over a model of the card (`PinCard`). The card has PIN 1, PIN 2 and PUK with a secret, a counter, a
limit of at least three and a verified flag. How it words an answer, and whether an exchange fails
on the wire before or after the card acted, is left open as a sequence of choices the theorems
quantify over. `Manage` and `PaceChannel` give the host operations as functions of that world;
`ManageProofs` says what every run of them keeps, `ManageOutcomes` and `ActivationOutcomes` what each
does when all answers arrive, `PaceOutcomes` the same on a PACE channel; `CardOps` holds the objects
that perform them.

## Findings

Where the source promises more than it does, the model follows the code, shows an input and proves
exactly when the promise holds.

- An empty block that opens or continues a response chain is not progress: a reader can hold an
  operation open with them until its deadline (input: `EmptyBlocksNeverAnswer`; condition:
  `ReplyMakesProgress`).
- An Ok answer to a split command does not wait for the rest of the command (input:
  `AnswerBeforeTheCommand`; condition: `WholeCommandSent`).
- The 15-octet SetParameters frame can exceed the message length of an accepted character-level
  reader (input: `SmallReaderGetsALongFrame`; condition: `EveryFrameFits`).
- The loss of the connection is the one way a card disappears without a new generation (input:
  `SilentLoss`; condition: `OnlyConnectionLossIsSilent`).
- On a PACE channel a lost answer to a wrong presentation leaves the channel's record above the
  card's count, although doc/reference/pace.md:118-119 says an answer whose effect is unknown ends
  presentations: the transport error returns before the record is lowered (inputs:
  `LostAnswerSpendsALastTry`, `LostAnswerExample`; condition: `CallKeepsGood`).
- One activation of both PINs with the code as the PUK sets PIN 1 and then refuses PIN 2 on an
  organizational card that still reports the PUK verified, because the floor serves no verified PUK
  (input: `SecondPinIsRefused`; condition: `PukActivationOfBoth`).
- On the organizational card an accepted PIN change can set another PIN than the one typed (inputs:
  `ShortEntryIsMadeUp`, `ShortEntryExample`; condition: `BareChangeSetsTheChosenPin`).
- The documentation of `unblock_pin1` (crates/auth/src/manage.rs:447-449) lists a blocked PUK among
  the refusals; the code sends the command and lets the card answer (`UnblockOutcome`,
  `FloorServesExactly`).
- `BerEncoder::push_tlv` refuses an oversized value only after it pushed the tag
  (`Ber.BerEncoder.PushTlv`).
- `cbor_decode` speaks of one deterministic item and accepts more (inputs: `LongHeadIsAccepted`,
  `UnsortedKeysAreAccepted`, `TruthKeyIsMerged`; condition: `DecodedEncodesBack`). Shortest heads and
  ascending keys are not enough: a map with the keys 1 and true is decoded to one entry.

## Model

| member | source | states |
|---|---|---|
| EngineRuns.EveryStartAnsweredOnce | crates/ccid/src/engine.rs:647-1390 | over every run the multiset of ids given to Start is the multiset of ids answered plus the pending one, and no call answers two |
| EngineRuns.Reachable | crates/ccid/src/engine.rs:647-1390 | every run keeps the state invariant: pending exactly when a deadline is armed, recovery only with nothing or an abort pending, activated implies present, at most 65 538 octets buffered, the awaited reply type is the pending operation's |
| EngineEffects.EffectOf | crates/ccid/src/engine.rs:647-1390 | every call on a state with the invariant has one of ten effects; eight fix the new state and the actions, a failure and a quiet call bound them: allocations, the operation, the direction of card and recovery, the shape of the actions |
| EngineWatch.RunAgrees | crates/ccid/src/engine.rs:639-644 | after every run the engine's fields agree with what an observer of calls, actions and deadlines remembers: sequences, deadlines, last frame, frames sent and octets received for the operation in flight |
| EngineFrames.SplitCommandIsTheData | crates/ccid/src/engine.rs:847-885 | while a split command is in flight, payloads sent plus queued chunks are exactly the caller's data, under the caller's bBWI, with levels BEGIN CONTINUE* END and END exactly on the frame that empties the queue |
| EngineFrames.ChunksConcat | crates/ccid/src/engine.rs:847-885 | the chunks a command is cut into concatenate to it |
| EngineRuns.ChunksAreSmall | crates/ccid/src/engine.rs:847-885 | no chunk is empty or longer than the bound |
| EngineFrames.EveryFrameFits | crates/ccid/src/engine.rs:739-914 | under every accepted descriptor each Bulk-OUT frame of every run fits the reader's message, the SetParameters frame exactly when the message holds 15 octets |
| EngineFrames.ReadsAskForAWholeMessage | crates/ccid/src/engine.rs:916-935 | every read asks for exactly the larger of a header and the reader's longest message |
| EngineAnswers.OkAnswerIsWhatWasRead | crates/ccid/src/engine.rs:990-1278 | every Ok answer goes to the operation in flight, has its kind, and carries exactly the response octets read since its Start, in order, from replies addressed to it |
| EngineAnswers.ReplyMakesProgress | crates/ccid/src/engine.rs:949-1314 | with an operation in flight a Bulk-IN reply answers it or strictly lowers the measure, if and only if it is not an empty block of a response chain |
| EngineAnswers.RepliesRunOut | crates/ccid/src/engine.rs:949-1314 | however calls interleave, an operation stays in flight for at most 60 + 5 + 65 538 + queued chunks replies that are not empty chain blocks |
| EngineAnswers.EmptyBlocksNeverAnswer | crates/ccid/src/engine.rs:1006-1052 | for every n there is a run in which n valid replies leave a PowerOn unanswered and its deadline unmoved |
| EngineDialogue.ConversationDelivers | crates/ccid/src/engine.rs:771-1235 | started in any state that does not refuse it, a PowerOn, TransferBlock or Secure is answered with Ok and the concatenation of the blocks of any conforming response, after the reader asked for and got all of the caller's data |
| EngineDialogue.OneReplyAnswers | crates/ccid/src/engine.rs:937-1278 | every other operation is answered by one conforming reply with the answer due to it, and an abort so answered ends the need for recovery |
| EngineDialogue.AnswerBeforeTheCommand | crates/ccid/src/engine.rs:1147-1190 | a complete response to the first block of a split command is delivered although chunks are queued |
| EngineFrames.WholeCommandSent | crates/ccid/src/engine.rs:1191-1232 | the whole of a split command was sent exactly when as many frames went out as it has chunks |
| EngineErrors.ErrorsNameTheirCause | crates/ccid/src/engine.rs:916-1379 | every error answer refuses the Start it comes from or is the one error its call stands for, told from the trace; transfers are cancelled with it unless a reply or the loss of the reader ended them; recovery is needed after it exactly when it was before or the exchange is in doubt |
| EngineErrors.StartsAreRefusedExactly | crates/ccid/src/engine.rs:701-769 | a Start is refused, changing nothing and with no deadline, if and only if the connection was ever lost, recovery is needed and it is no Abort, an operation is in flight, or its data is too long, and the first of these is the error it is told; otherwise it is in flight and due 5 000 ms from now |
| EngineErrors.GateCloses | crates/ccid/src/engine.rs:652-1379 | recovery becomes needed exactly on a hardware error of the slot or when a call ends the operation in flight and leaves its exchange in doubt |
| EngineEnds.CancelEndsWhatItNames | crates/ccid/src/engine.rs:1353-1365 | over every run a Cancel of the id in flight returns exactly the cancellation of transfers and the Cancelled answer, leaves nothing pending, the card as it was and recovery needed; a Cancel of any other id leaves the engine as it was |
| EngineEnds.FailureEndsTheOperation | crates/ccid/src/engine.rs:1316-1334 | a failed transfer cancels and answers the operation in flight with its own error, makes recovery needed exactly for a timeout or an I/O error and drops the card exactly when it says the card was removed |
| EngineEnds.LossEndsTheOperation | crates/ccid/src/engine.rs:1367-1379 | the loss of the reader answers the operation in flight and nothing else, drops the card and leaves the generation |
| EngineEnds.SlotChangeEndsTheOperation | crates/ccid/src/engine.rs:670-699 | a packet that shows the slot empty or flags a change cancels, answers the operation in flight with the card removed and publishes, in that order; one that only shows a card publishes and lets it go on; one without news changes nothing |
| EngineEnds.HardwareErrorEndsTheOperation | crates/ccid/src/engine.rs:652-669 | a hardware error packet names its slot in octet 1; for the engine's slot it ends the operation and the card and makes recovery needed, for another it changes nothing |
| EngineEnds.StrayInterruptIsDropped | crates/ccid/src/engine.rs:652-699 | any other interrupt packet changes nothing |
| EngineEnds.StrayReplyIsDropped | crates/ccid/src/engine.rs:949-956 | a reply with no operation in flight changes nothing |
| EngineEnds.ControlIsForAborts | crates/ccid/src/engine.rs:937-947 | a completed control request makes an abort in flight send its frame, under the sequence of the request, and changes nothing otherwise |
| EngineEnds.RepliesEndExactly | crates/ccid/src/engine.rs:949-1314 | told from the trace, exactly which replies end the operation in flight, which of them answer it with Ok, and what each makes of the card: a PowerOff deactivates, a reply without a card loses it, an answered PowerOn activates |
| EngineEnds.StartLeavesTheCard | crates/ccid/src/engine.rs:701-914 | a Start says nothing of the card |
| EngineEnds.CallersWordIsTaken | crates/ccid/src/engine.rs:585-595 | the caller's word on activation is taken as it is, and an activated card is there |
| EngineRecovery.RecoveryGate | crates/ccid/src/engine.rs:702-804 | from then until an abort is acknowledged, every Bulk-OUT frame of the run is the abort frame of the control request before it and every other Start is answered with an error |
| EngineRecovery.GateHolds | crates/ccid/src/engine.rs:937-947 | the same for a single call on any state the observer agrees with |
| EngineRecovery.GateLifts | crates/ccid/src/engine.rs:1236-1259 | the gate lifts if and only if the reader acknowledges the abort with a slot status |
| EngineTimers.StepsReturnTheNewestDeadline | crates/ccid/src/engine.rs:1382-1389 | in every run the armed deadline is the newest handed out and every step returns it, a rejected Start alone returning none |
| EngineTimers.OnlyTheNewestDeadlineFires | crates/ccid/src/engine.rs:1336-1351 | an expiry report times the operation out exactly when it names the newest deadline and that has passed; any older one changes nothing |
| EngineTimers.OperationsAreDueInTime | crates/ccid/src/engine.rs:957-989 | without a continuation an operation is due within 10 000 ms of its Start; with a timely driver a split one within 10 000 ms plus 5 000 ms per continuation, fewer than its chunks |
| EngineTimers.ExtensionIsWhatWasAsked | crates/ccid/src/engine.rs:957-989 | an extension is the reader's multiplier times the unit the caller last set, granted exactly when it is among the first sixty the trace shows since the Start and ends within 10 000 ms of it; otherwise the operation times out |
| EngineTimers.StaleReplyIsHarmless | crates/ccid/src/engine.rs:949-956 | a frame with the sequence of any of the 255 allocations before the last neither answers with Ok nor changes what is believed of the card |
| EngineTimers.WritesAreMeasuredAgainstTheLastFrame | crates/ccid/src/engine.rs:916-935 | a completed write is short exactly when its length differs from the last frame submitted; a full one only asks for the reply |
| EngineCards.OnlyConnectionLossIsSilent | crates/ccid/src/engine.rs:1367-1379 | each call adds zero or one to the generation, and a card vanishes without a new one exactly when the connection is lost |
| EngineCards.SilentLoss | crates/ccid/src/engine.rs:1367-1379 | an input: an activated card is gone and the generation is the first one still |
| EngineCards.GenerationCountsBumps | crates/ccid/src/engine.rs:652-699 | the generation is one plus the number of bumps, modulo 2^64 |
| EngineCards.SameGenerationSameCard | crates/ccid/src/engine.rs:652-699 | equal generations at two moments of a run without connection loss, fewer than 2^64 bumps apart, mean one card, present throughout, with no change reported between |
| EngineCards.PublicationsTellTheCard | crates/ccid/src/engine.rs:670-699 | a slot change is published exactly when an interrupt brings news of the slot, and it carries the slot, the packet's presence bit and the new generation |
| EngineCards.OnlyPowerOnActivates | crates/ccid/src/engine.rs:1099-1190 | a card becomes activated exactly by an answered PowerOn or by the caller's word |
| Engine.CcidEngine.constructor | crates/ccid/src/engine.rs:505-540 | a new engine is the initial state under the bounds of its descriptor |
| Engine.CcidEngine.Drive | crates/ccid/src/engine.rs:647-1390 | a step on the object, field by field, returns what the run's step function returns and keeps the fields equal to the run's state, so every engine theorem is about the object |
| Engine.CcidEngine.QueueChunks | crates/ccid/src/engine.rs:859-866 | the cutting loop queues exactly the chunks after the first |
| Engine.CcidEngine.SetActivatedTo | crates/ccid/src/engine.rs:585-590 | the caller's word on activation, as a call of the run |
| Engine.CcidEngine.Deactivate | crates/ccid/src/engine.rs:593-595 | likewise for deactivation |
| Engine.CcidEngine.SetWaitingUnitMs | crates/ccid/src/engine.rs:634-636 | likewise for the waiting unit, at least one millisecond |
| ReaderSide.AcceptedStartIsWhatTheReaderSees | crates/ccid/src/engine.rs:701-914 | the one action of an accepted Start is read by a conforming reader as that operation, for the slot and under the next sequence number; an abort's is the class request 0x21 0x01 with sequence and slot in its value and the interface in its index; a refused one is answered with the refusal |
| ReaderSide.SmallReaderGetsALongFrame | crates/ccid/src/engine.rs:827-846 | an input: a reader accepted with messages of 11 octets is sent a frame of 15 |
| ReaderSide.FirstFrameReads | crates/ccid/src/codec.rs:333-446 | every encoded command is read back by a conforming reader as the operation, slot and sequence it was encoded from |
| ReaderSide.AbortReads | crates/ccid/src/codec.rs:440-446 | so is the abort frame |
| ReaderSide.NoticeReadsBack | crates/ccid/src/codec.rs:608-647 | every slot change notice decodes bit for bit to the presence and change it was built from, whatever follows |
| ReaderSide.DescriptorReadsBack | crates/ccid/src/descriptor.rs:248-332 | a functional descriptor is read back as the reader means it if and only if it conforms, with the exchange levels 0, 1, 2 and 4 in bits 16 to 18 of the features and message bounds of 11, 270 or 271 to 65 554 octets |
| ReaderSide.BlockFillsTheMessage | crates/ccid/src/descriptor.rs:208-226 | a transfer block fills the message after its header, up to 260 octets, 261 at the short APDU level, without bound at the extended one |
| Codec.ReaderFrameDecodes | crates/ccid/src/codec.rs:455-599 | the decoder reads every frame a conforming reader sends back to the response it was built from |
| Codec.AcceptedReply | crates/ccid/src/codec.rs:455-599 | an accepted reply was addressed to the slot and sequence awaited and is of a kind the awaited type can express |
| Codec.AcceptedFrame | crates/ccid/src/codec.rs:455-599 | an accepted successful reply is a conforming reader's frame apart from the error octet |
| Codec.RefusedReplyIsNamed | crates/ccid/src/codec.rs:455-599 | every other reply is refused for the first of its faults, told from its octets |
| Codec.ReadSlotChange | crates/ccid/src/codec.rs:608-647 | the decoding loop pushes exactly each slot's presence and change bit |
| Codec.EncodeBlock | crates/ccid/src/codec.rs:364-397 | a block frame carries its kind, length, slot, sequence, bBWI, level and block where the standard puts them |
| Descriptor.AcceptedDescriptor | crates/ccid/src/descriptor.rs:248-332 | every accepted descriptor leaves room for a non-empty transfer block inside its message |
| Descriptor.WalkFindsFirstMatch | crates/ccid/src/descriptor.rs:339-385 | over any list of well-framed descriptors the walk parses the first functional descriptor the target interface governs, and reports it missing exactly when there is none |
| Descriptor.BrokenTailIsNamed | crates/ccid/src/descriptor.rs:339-385 | octets that are no whole descriptor, behind descriptors none of which matches, are refused for what they lack |
| Descriptor.FirstFaultIsNamed | crates/ccid/src/descriptor.rs:248-332 | a functional descriptor is refused for the first of its faults, told from its octets |
| Descriptor.ParseFromUsbDescriptors | crates/ccid/src/descriptor.rs:339-385 | the loop computes that walk on any bytes, malformed ones included |
| Poller.EventsTellThePresence | crates/ccid/src/daemon.rs:124-215 | over any run each slot's insertions and removals alternate from an insertion on, their replay is the tracked presence, and presence agrees with the card status |
| Poller.SnapshotIsTaken | crates/ccid/src/daemon.rs:181-215 | over any run a snapshot of a tracked slot is recorded as it is, leaves the other slots alone and gives exactly the event due to the difference; one of any other slot does nothing |
| Poller.PacketIsTaken | crates/ccid/src/daemon.rs:142-170 | after a slot change packet every tracked slot has the presence its bit shows; a slot flagged or with another presence is inactive or absent, the others and every clock are as before |
| Poller.PacketIsReported | crates/ccid/src/daemon.rs:142-170 | the packet's events are exactly those due to its slots' differences and flags, in slot order |
| Poller.HardwareErrorIsReported | crates/ccid/src/daemon.rs:131-138 | a hardware error packet is reported for the slot in octet 1 with the code in octet 3 and moves no slot |
| Poller.OtherPacketsAreRefused | crates/ccid/src/daemon.rs:124-178 | every other packet is refused, and why |
| Poller.EveryChangeIsReported | crates/ccid/src/daemon.rs:124-215 | no slot changes without an event, status events carry the new state, and a packet alone never activates a card or moves the clock |
| Poller.MalformedPacketsChangeNothing | crates/ccid/src/daemon.rs:124-178 | an input reported as an error, and a hardware error report, leave every slot as it was |
| Poller.CcidEventPoller.constructor | crates/ccid/src/daemon.rs:100-106 | every slot starts absent |
| Poller.CcidEventPoller.ProcessInterrupt | crates/ccid/src/daemon.rs:124-178 | the array and the events after a packet are those the theorems speak of |
| Poller.CcidEventPoller.Sweep | crates/ccid/src/daemon.rs:142-170 | the loop over the slots updates each in place and pushes its event in slot order |
| Poller.CcidEventPoller.ProcessSlotStatus | crates/ccid/src/daemon.rs:181-215 | the array and the events after a snapshot are those `SnapshotIsTaken` states |
| CborProofs.RoundTrip | tools/rapp-vectors/primitives.py:31-109 | for every encodable value and every suffix, decoding the encoding followed by the suffix gives an equal value and leaves exactly the suffix |
| CborProofs.EncodingIsEquality | tools/rapp-vectors/primitives.py:43-62 | two values encode alike if and only if they are equal, dictionaries whatever their insertion order |
| CborProofs.PrefixFree | tools/rapp-vectors/primitives.py:43-62 | no encoding continues another |
| CborProofs.DecodeInvertsEncode | tools/rapp-vectors/primitives.py:65-70 | a whole encoding decodes to its value and is refused with anything after it |
| CborProofs.HeadIsRfc8949 | tools/rapp-vectors/primitives.py:31-41 | a head is the major type in the high three bits and the argument in the low five, or in the fewest of one, two, four or eight big-endian octets behind them |
| CborProofs.KindsAreRfc8949 | tools/rapp-vectors/primitives.py:43-62 | each kind of value has the major type RFC 8949 gives it, and false, true and null the octets F4, F5 and F6 |
| CborProofs.ArgumentAtAnyWidth | tools/rapp-vectors/primitives.py:76-84 | the decoder reads an argument at any of the four widths, needed or not |
| CborProofs.AssignedIsLookedUp | tools/rapp-vectors/primitives.py:101-106 | a later value for an equal key replaces the earlier one in its place, and every other key keeps its value and place |
| CborText.TextIsUnicode | tools/rapp-vectors/primitives.py:93-94 | octets are accepted as text if and only if Unicode scalar values spell them |
| CborFaults.FaultsAreNamed | tools/rapp-vectors/primitives.py:73-109 | what is said of octets that are no item, told from the initial octet and its argument |
| CborFaults.FaultBehindItems | tools/rapp-vectors/primitives.py:95-100 | a fault behind items that decode is the fault of the whole list |
| CborFaults.EntryStopsAtItsFault | tools/rapp-vectors/primitives.py:101-106 | an entry is refused for its key, its value, or a key that is a list or a dictionary, in that order |
| CborDeterministic.DecodedEncodesBack | tools/rapp-vectors/primitives.py:65-70 | what the decoder accepts encodes back to the same octets if and only if they are deterministic: at every depth shortest heads and strictly ascending encoded keys, none equal to an earlier one in Python |
| CborDeterministic.ReencodingIsIdentity | tools/rapp-vectors/primitives.py:73-109 | the same for an item with anything after it |
| CborDeterministic.SortsByOctets | tools/rapp-vectors/primitives.py:59-61 | the order of the keys is the lexicographic one: one begins the other, or the first octet that differs is lower |
| CborDeterministic.EncodingIsDeterministic | tools/rapp-vectors/primitives.py:43-62 | every encoding is deterministic in that sense, whatever follows it |
| CborDeterministic.LongHeadIsAccepted | tools/rapp-vectors/primitives.py:73-84 | an input: a longer head than the encoder writes |
| CborDeterministic.UnsortedKeysAreAccepted | tools/rapp-vectors/primitives.py:101-106 | an input: keys out of order |
| CborDeterministic.TruthKeyIsMerged | tools/rapp-vectors/primitives.py:101-106 | an input: the keys 1 and true become one entry |
| CborShortest.DeterministicIsShortest | tools/rapp-vectors/primitives.py:31-109 | whatever the decoder accepts can be encoded, in no more octets than it consumed |
| CborShortest.NormalisingKeepsTheValue | tools/rapp-vectors/primitives.py:31-109 | decoding, encoding and decoding again gives an equal value |
| CborReader.ReadItem | tools/rapp-vectors/primitives.py:73-109 | the decoder with its loops computes the item the theorems speak of |
| CborReader.ReadItems | tools/rapp-vectors/primitives.py:95-100 | so does the array loop |
| CborReader.ReadEntries | tools/rapp-vectors/primitives.py:101-106 | so does the dictionary loop, later keys replacing earlier ones in place |
| CborReader.ReadWhole | tools/rapp-vectors/primitives.py:65-70 | one item that fills the input |
| BerProofs.EncodedRecordParses | crates/ber/src/lib.rs:382-437 | an encoded record followed by anything parses back to its tag, value and size |
| BerProofs.RecordsIterateBack | crates/ber/src/lib.rs:493-511 | iterating over encoded records yields exactly them, in order, without error, sizes summing to the buffer |
| BerProofs.FaultEndsTheIteration | crates/ber/src/lib.rs:493-511 | octets that are no record, behind records, are yielded as one error after exactly those records, and nothing follows |
| BerProofs.SuffixDoesNotMatter | crates/ber/src/lib.rs:382-437 | any verdict but running out of input is the same whatever follows |
| BerProofs.ParsedRecordEncodes | crates/ber/src/lib.rs:204-222 | every accepted record re-encodes in at most as many octets to the same record, and to the same octets if and only if its length octets were shortest |
| BerProofs.LengthOctetsAreShortest | crates/ber/src/lib.rs:167-189 | length octets read as n are never fewer than the encoder's, and as many only when they are the encoder's |
| BerProofs.LengthIsX690 | crates/ber/src/lib.rs:167-189 | length octets are the number below 128, else 0x80 plus a count and that many big-endian octets, no more than needed |
| BerProofs.TagIsX690 | crates/ber/src/lib.rs:149-164 | a tag is one octet that does not end in five ones, or one that does and one below 0x80, and no other tag is encoded |
| BerProofs.AnyLengthParses | crates/ber/src/lib.rs:382-437 | a length in any long form of one to four octets is read, needed or not |
| BerProofs.RefusalsAreX690 | crates/ber/src/lib.rs:382-437 | exactly which octets are refused as empty, for the form of their tag and for the form of their length |
| BerProofs.CutRecordIsTruncated | crates/ber/src/lib.rs:382-437 | a record cut anywhere inside is reported truncated |
| Ber.BerEncoder.PushLength | crates/ber/src/lib.rs:167-189 | the length octets are appended, or nothing is when the length needs more than 32 bits |
| Ber.BerEncoder.PushTlv | crates/ber/src/lib.rs:126-137 | the record is appended exactly when tag and length are encodable; an oversized value leaves its tag behind |
| Ber.BerEncoder.PushTlvTag2 | crates/ber/src/lib.rs:149-164 | the same for two-octet tags |
| Ber.ParseTlv | crates/ber/src/lib.rs:382-437 | the index walk with its length loop computes the parse the theorems speak of |
| Ber.BerTlvIter.Next | crates/ber/src/lib.rs:493-511 | each call yields the next record of the buffer, none exactly at its end, an error once |
| AtrProofs.ParsedAtrPrintsBack | crates/atr/src/lib.rs:1157-1331 | every accepted byte string is printed back exactly and parses again to the same value, with a check character exactly when some TD names a protocol other than T=0 |
| AtrProofs.WellFormedAtrsParse | crates/atr/src/lib.rs:1157-1270 | a printed value parses back to itself if and only if it is a well-formed ATR |
| AtrGrammar.AcceptsTheGrammar | crates/atr/src/lib.rs:1157-1270 | the parser accepts a byte string as a value if and only if the grammar in plain numbers says it spells that value: 0x3B or 0x3F, each announcing nibble the sum of 1 for TA, 2 for TB, 4 for TC and 8 for TD, the bytes in that order, as many historical bytes as T0 says, and a check byte, with every bit set an even number of times, exactly when some TD names a protocol other than 0 |
| AtrGrammar.RefusalsNameTheFault | crates/atr/src/lib.rs:1186-1270 | where the interface bytes spell groups, the verdict is the one the grammar gives: short historical bytes, missing or wrong check byte with the one expected, or the end of the ATR before the end of the bytes |
| AtrGrammar.InterfaceBytesAreFound | crates/atr/src/lib.rs:1186-1223 | interface bytes are reported as cut short only when they spell no groups |
| AtrGrammar.OpeningIsChecked | crates/atr/src/lib.rs:1157-1185 | fewer than 2 or more than 33 bytes, or a first byte other than 0x3B and 0x3F, are refused as that |
| AtrGrammar.NoResidueIsEven | crates/atr/src/lib.rs:1224-1252 | the check passes exactly when every bit is set in an even number of bytes |
| AtrProofs.SingleByteErrorsAreCaught | crates/atr/src/lib.rs:1157-1270 | changing any one TA, TB, TC, historical or check byte of an ATR with a check character is always rejected as a check mismatch |
| Atr.ParseAtr | crates/atr/src/lib.rs:1157-1270 | the parser with its chain loop computes the parse the theorems speak of |
| Atr.WalkChain | crates/atr/src/lib.rs:1186-1223 | the loop over interface groups gathers exactly the chain |
| Atr.ToWireBytes | crates/atr/src/lib.rs:1308-1331 | the printing loop pushes exactly the bytes of the value |
| Credentials.WriteCredentialBlocks | crates/auth/src/verify.rs:258-276 | the buffer holds each group padded to twelve octets, or bare, back to back, and padding after |
| Credentials.ReferencesAreDistinct | crates/auth/src/verify.rs:110-130 | a card knows its own three references (0x11, 0x82, 0x83, or 0x03, 0x04, 0x12) and none of the other numbering's |
| Credentials.BlockOctets | crates/auth/src/verify.rs:258-276 | a citizen card's block is twelve octets, zero behind the digits; an organizational card's is the digits, at most twelve |
| Credentials.PaddedBodyKeepsBothEntries | crates/auth/src/verify.rs:258-276 | two padded entries can be told apart again from their body |
| Credentials.BareBodyKeepsTheConcatenation | crates/auth/src/verify.rs:258-276 | of two bare entries only the concatenation travels |
| Containers.ReadCounter | crates/auth/src/activation.rs:432-447 | the scan for the attributes window computes the counter of the first window that holds one |
| Containers.FirstWindowIsRead | crates/auth/src/activation.rs:432-447 | the counter read is the one of the first matching window |
| Containers.NoWindowNoCounter | crates/auth/src/activation.rs:432-447 | no counter is read exactly when no window matches |
| Containers.CounterOctets | crates/auth/src/activation.rs:432-447 | a window matches when it starts DF 21 04 and the octet behind is below sixteen |
| Containers.FirstFlagDecides | crates/auth/src/activation.rs:401-417 | where DF 2F 01 first stands with an octet behind, that octet says 0 unchanged, 1 changed, and else nothing |
| Containers.NoFlagNoRecord | crates/auth/src/activation.rs:401-417 | without those octets the record cannot be read |
| Containers.ReadRecord | crates/auth/src/activation.rs:401-417 | the scan for the changed flag, decided by the first window even when its value means nothing |
| RetryFloor.FloorServesExactly | crates/auth/src/retry_risk.rs:256-319 | exactly which readings each rule serves, for PINs and for the PUK |
| RetryFloor.FloorNamesTheRefusal | crates/auth/src/retry_risk.rs:256-319 | what each refused reading is met with |
| RetryFloor.FloorKeepsLastTries | crates/auth/src/retry_risk.rs:256-319 | a true reading either rule serves is never one of a credential at its last two tries |
| PinCard.OnlyAWrongPresentationSpends | crates/auth/src/retry_risk.rs:321-335 | of the card: a counter falls by one exactly when its own credential is shown and refused |
| ManageProofs.RunsSpareLastTries | crates/auth/src/manage.rs:178-702 | over every run of unblocks and activations, under either numbering and scheme, with any codes, card wordings and wire failures, no exchange takes a counter from two to one or from one to none, and no credential with a try left loses its last |
| ManageProofs.UnblockKeepsGuard | crates/auth/src/manage.rs:178-206 | the same for one unblock, and one the floor refuses sends only reads |
| ManageProofs.ActivateKeepsGuard | crates/auth/src/manage.rs:602-702 | the same for one activation |
| ManageProofs.RefusedPresetActivationOnlyReads | crates/auth/src/manage.rs:635-652 | a preset activation the floor refuses for either PIN sent nothing but reads and left the card as it was |
| ManageProofs.PukStatusTells | crates/auth/src/manage.rs:143-164 | the PUK status is true or says nothing, and reading it changes nothing |
| ManageProofs.ActivationTells | crates/auth/src/manage.rs:271-294 | so is the activation reading |
| ManageProofs.NumberingIsResolved | crates/auth/src/verify.rs:420-442 | resolving the numbering only reads, and finds the card's own if and only if the card is a citizen card or answers with a known status |
| ManageOutcomes.UnblockOutcome | crates/auth/src/manage.rs:143-206 | with all answers received, whatever they say, an unblock sets the PIN if and only if the PUK is right and its counter, from the probe or else from a citizen card's container, reads three to five; it is refused, changing nothing, exactly when there is no reading or one of one, two or above five; otherwise only a refused PUK lost one try, and the caller is told how many are left, that it is locked out, or the word that named no count |
| ManageOutcomes.ContainerServes | crates/auth/src/manage.rs:156-161 | a citizen card that answers the probe as verified, or names no count, is unblocked when its container shows three to five |
| ManageOutcomes.PukStatusSays | crates/auth/src/manage.rs:143-164 | the status read is the probe's counter, else the container's, else none |
| ManageOutcomes.NumberingOutcome | crates/auth/src/verify.rs:420-442 | with all answers received, the numbering and the status of PIN 1 found are exactly the card's own, except that an organizational card naming no status is taken for a citizen card that does not know the reference |
| ManageOutcomes.ChangeOutcome | crates/auth/src/manage.rs:119-134 | a change is accepted exactly when a try is left and the entries show the stored PIN first, and what is then set; a refused one spends a try and tells how many are left |
| ManageOutcomes.BareChangeSetsTheChosenPin | crates/auth/src/manage.rs:119-134 | on a bare card an accepted change sets the typed PIN if and only if the current one was typed right |
| ManageOutcomes.ShortEntryIsMadeUp | crates/auth/src/manage.rs:119-134 | for entries of four to twelve digits, a current PIN typed short is made up by the new one and another PIN than typed is set |
| ManageOutcomes.ShortEntryExample | crates/auth/src/manage.rs:119-134 | an input: 12345 stored, 1234 and 56789 typed, 6789 set |
| ActivationOutcomes.PukActivationOfBoth | crates/auth/src/manage.rs:602-702 | one activation with the code as the PUK sets PIN 1 if and only if the code is right and the PUK reads three to five, then PIN 2 if and only if it reads so again; on a card that names its counts and starts with the PUK unverified, that is exactly when the PUK's limit is at most five and the card is a citizen card or ends the PUK's verified state |
| ActivationOutcomes.SecondPinIsRefused | crates/auth/src/manage.rs:602-702 | an input: a factory organizational card has PIN 1 set and PIN 2 refused |
| ActivationOutcomes.PukActivation | crates/auth/src/manage.rs:602-702 | for every combination of awaiting PINs and given values, one activation with the code as the PUK is an unblock of PIN 1, then of PIN 2 unless PIN 1 was tried and not set, each exactly when the PIN awaits and a value is given; the caller gets the first refusal, else a report of exactly the PINs tried and how each ended |
| ActivationOutcomes.PresetActivation | crates/auth/src/manage.rs:602-702 | for every combination of awaiting PINs and given values, one activation with the preset PIN is refused with the card untouched exactly when the count of a PIN it would try is not read or cannot be served; otherwise PIN 1, then PIN 2 unless PIN 1 was tried and not set, take their values exactly where the code opens them and lose a try where not, and the report names exactly the PINs tried and how each ended |
| ActivationOutcomes.ActivationTouchesAwaitingPins | crates/auth/src/manage.rs:602-702 | whatever the card answers, a PIN that does not await activation, or got no new value, is left as it was |
| ActivationOutcomes.AwaitingIsTheFactoryState | crates/auth/src/activation.rs:189-206 | a PIN is found awaiting exactly when the container shows it unchanged, or shows nothing, the code is the PUK and the probe names no try left |
| PaceChannel.ChannelSparesLastTries | crates/auth/src/pace_channel.rs:214-261 | over every run in which no call loses the count, the record stays at most the card's count and no exchange spends a last try |
| PaceChannel.CallKeepsGood | crates/auth/src/pace_channel.rs:214-261 | one call keeps that exactly when no wrong presentation at an exact record loses its answer |
| PaceChannel.RecordNeverRises | crates/auth/src/pace_channel.rs:121-137 | whatever happens the record never rises, and a blocked or unknown one stays |
| PaceChannel.EndedChannelShowsNothing | crates/auth/src/pace_channel.rs:214-261 | once the record is unknown, or PIN 1 blocked, no later command carries the credential |
| PaceChannel.OpeningRecordHolds | crates/pace/src/handshake.rs:780-787 | the record a handshake starts with is at most the card's count exactly when a plain success stands for at least five tries |
| PaceOutcomes.PukChannelOutcome | crates/auth/src/pace_channel.rs:242-261 | with all answers received, showing the PUK again is refused, changing nothing, unless the record says none or three to five tries; sets the PIN named to the digits given when the PUK is right; and else spends a try, lowers the record and tells the caller |
| PaceOutcomes.Pin1ChannelOutcome | crates/auth/src/pace_channel.rs:214-235 | likewise for the change of PIN 1 on its own channel |
| PaceOutcomes.HandshakeOutcome | crates/auth/src/pace_channel.rs:214-261 | a handshake is proof enough: the PIN named is set to the digits given and the record stays |
| PaceOutcomes.NamedCountKeepsTheRecord | crates/auth/src/pace_channel.rs:121-137 | a refused presentation whose answer names a count leaves the record at the smaller of the two, readable while a try is left |
| PaceChannel.LostAnswerSpendsALastTry | crates/auth/src/pace_channel.rs:242-261 | the inputs on which a lost answer lets the next wrong PUK take the count from two to one |
| PaceChannel.LostAnswerExample | crates/auth/src/pace_channel.rs:242-261 | one such input |
| CardOps.CardTransport.CredentialExchange | crates/auth/src/verify.rs:286-310 | the laid-out body is sent once and the answer classified |
| CardOps.CardTransport.ChangePin | crates/auth/src/manage.rs:119-134 | performs the change the theorems speak of |
| CardOps.CardTransport.PukStatus | crates/auth/src/manage.rs:143-164 | performs the PUK reading, with its fall-back to the container |
| CardOps.CardTransport.Unblock | crates/auth/src/manage.rs:178-206 | performs the unblock |
| CardOps.CardTransport.VerifyPuk | crates/auth/src/manage.rs:211-224 | performs the PUK verification |
| CardOps.CardTransport.ResetPinOnly | crates/auth/src/manage.rs:230-244 | performs the reset without a code |
| CardOps.CardTransport.ReadActivation | crates/auth/src/manage.rs:271-294 | performs the activation reading, PIN 1 then PIN 2 |
| CardOps.CardTransport.Activate | crates/auth/src/manage.rs:602-702 | performs the activation, filling the report as it goes |
| CardOps.CardTransport.Pin1StatusAndNumbering | crates/auth/src/verify.rs:420-442 | performs the resolution of the numbering |
| CardOps.PaceTransport.ResetAfterPukPace | crates/auth/src/pace_channel.rs:242-261 | performs the reset on a PUK channel and lowers the record by its answer |
| CardOps.PaceTransport.ChangePin1AfterPin1Pace | crates/auth/src/pace_channel.rs:214-235 | performs the change on a PIN 1 channel likewise |

## Left out

- The USB transport, hot-plug detection and the daemon's endpoint loop: input and output, not logic.
- Zeroization, redacted debug output and error texts.
- Hashes, key derivation, PACE and Noise cryptography, secure messaging, CMS, X.509 and RAPP.
- Error variants only other layers raise are one `OtherError` or `OtherDesync`.
- A monotonic time within 5 000 ms of 2^64 ms, where the source's addition would overflow; `Instant` excludes it.
- The 32-bit counter of time extensions: it ends at 61, so it is unbounded here.
- What an unblock, a change or an activation returns after an exchange failed on the wire; what such a run keeps is covered (`RunsSpareLastTries`).
- A card's own length policy for a new PIN: the modelled card takes any.
- Length tables and entry validation (crates/auth/src/pin_lengths.rs, credentials.rs): their verdict is the flag `fits` of a call; an empty credential body, which they exclude, is not modelled.
- `change_pin1` and `change_pin2` as members of the run theorem: they leave the floor to their caller, so `ChangeOutcome` describes them alone.
- Cards whose limit is one or two tries, for which a verified PIN may stand at its last tries.
- A card that reports a credential invalidated while it has tries left; here a blocked word means no tries.
- CBOR: tuples and bytearrays (encoded like lists and bytes), the TypeError for other Python types, and Python's recursion limit.
- The choice of the activation scheme from a certificate date, the credential health summary and the length reading: each is a single table.
- Accessors of the descriptor and of the ATR (protocol names, Fi/Di tables, historical-byte parsing): they would add only easy members.
