# A verified model of the relayer and its Fabric light client

The relayer connects two chains that it can only observe: each chain is a growing history whose
finalized height lags behind its latest height, other users change it, and a send may fail. The
light client stands on one of the chains and accepts updates about a Fabric network. The model
covers:

- **the channel upgrade** (`UpgradeChain`, `ChannelUpgrade`, `UpgradeRun` and the modules on
  their properties). `UpgradeChain` has the on-chain handlers of ICS 4 `UPGRADES.md`, "Upgrade
  Handshake", "Cancel Upgrade Process" and "Timeout Upgrade Process"; `ChannelUpgrade` has the
  relayer's step with its table of sixteen state pairs; `UpgradeRun` lets both chains, their
  finality, their operators and the relayer take steps in any order. Main results: the two ends
  never settle on different fields, on every run but those on which operators cancel on both ends
  under the two TRYs of one decision (`UpgradeCancel` has the exact condition for those); an
  undisturbed upgrade accepts at most six messages, and from every point of it some steps complete
  it on the proposed fields (`UpgradeCompletion`); and an upgrade that one end has aborted is taken
  back on the other by the next settled step (`UpgradeRecovery`, which also has the exact table of
  what a step sends).
- **the opening handshakes** of connections (ICS 3) and channels (ICS 4) (`Handshake`,
  `HandshakeRun`, `HandshakeSafety`, `RelayLoop`, `HandshakeLoop`) with the path configuration that follows the
  chains' events (`PathConfig`). A chain accepts a message only if its client knows the height of the
  message's proof, from the client updates of this relayer or of others. Main results: the messages executed so far, followed by those
  still needed, are always the same sequence; the panic for an unexpected pair of states is
  unreachable unless an executed OpenConfirm was reported as failed, and after such a report the
  loop panics once both ends are settled, or gives up if it was the third failure in a row; and no
  state of the loop is a dead end.
- **packet relay**: lists, discovery and timeouts (`Packets`), the assembly of one round
  (`RelayService`), greedy batching with message ids (`RelayMsgs`) and the backlog counter
  (`Backlog`).
- **the wire codec** (`Varint`, `Wire`, `WireWriter`, `WireConcat`, `UnknownFields`, `FabricMsgs`,
  `FabricHeaders`, `FabricSchema`), which follows the Protocol Buffers Encoding specification, "Base 128 Varints"
  and "Message Structure". Buffers are filled from the back; parsers are one loop over a codec
  that gives each field's kind and the case that stores it. Nil and empty byte strings are the
  same value.
- **the light client** (`FabricClient`, `FabricSafety`, `FabricUpdate`): verification against the old state, the
  update in place, and what every run of received messages keeps. Signatures, policies and the
  reading of an endorsed write set are unknown functions; everything is proved for all of them.

Chains, clocks, query answers and send results are parameters, so each theorem holds for all of
them. `dafny verify dfyconfig.toml` checks the project.

## What the code does that its comments do not say

- Either acknowledgement flag stops the acknowledgements of both directions
  (`RelayService.NoAckFlags`): discovery skips one direction and relaying the other.
- The delay check adds unsigned 64-bit numbers; each of its two parts asks for the full delay at
  every moment exactly when its sum does not wrap (`FabricSafety.DelayExactIff`,
  `FabricSafety.BlockDelayExactIff`).
- MSP ids stay unique exactly when no id is created twice in one update, because every MSP header
  of an update is verified against the state before it (`FabricSafety.UniqueIff`,
  `FabricSafety.CreatedTwice`). A frozen organisation keeps its entry even without that.
- A create-loop whose OpenConfirm is executed but reported as failed panics once both ends are
  settled; the other three messages may be lost in the same way without harm
  (`HandshakeSafety.LostReportInv`, `HandshakeSafety.LostConfirmPanics`).
- CONFIRM does not compare the proposed fields again. When operators cancel on both ends of
  crossing proposals under the two TRYs of one decision, each end adopts what the other had
  proposed, so the ends agree if and only if the proposals mirrored each other
  (`UpgradeCancel.BothCancelledAgreeIff`, `UpgradeCancel.CancelledRun`). A cancel on one end alone
  does no harm, at any time (`UpgradeAgreement.UpgradeAgreement`).
- An end in FLUSHING is still sent CONFIRM after its own upgrade has timed out at a counterparty in
  FLUSHCOMPLETE (`ChannelUpgrade.ConfirmDespiteOwnTimeout`).
- The backlog counter counts a packet again each time it comes back
  (`Backlog.BacklogConservation`).

## Model

| member | source | states |
|---|---|---|
| ChannelUpgrade.FlushCompleteAction | core/channel-upgrade.go:400-427 | against an end in FLUSHCOMPLETE: OPEN exactly when the other end already has the proposed fields, TIMEOUT exactly when it does not and the timeout has elapsed, otherwise the cancel that needs a receipt; fails exactly when the proposed connection is unknown |
| ChannelUpgrade.AppendActionMsgs | core/channel-upgrade.go:555-582 | client updates first, then the one message for the action; the error is that of building the message |
| ChannelUpgrade.DetermineActions | core/channel-upgrade.go:381-543 | the table of sixteen pairs decided for both ends at once is the action of each end on its own (`ActionFor`), which `UpgradeRecovery.ActionExactly` states in full on the two ends |
| ChannelUpgrade.UpgradeChannelStep | core/channel-upgrade.go:308-634 | the whole step: wait while an end is unsettled, stop when both ends are back or at their targets, otherwise the two lists of messages; `UpgradeRecovery.StepExactly` states what each list sends |
| ChannelUpgrade.PlanMirrored | core/channel-upgrade.go:381-543 | swapping source and destination swaps the messages and nothing else |
| ChannelUpgrade.PlanMessages | core/channel-upgrade.go:550-627 | each list is empty or the client updates followed by one real action, never NONE; nothing is sent from an unsettled view or on the last step |
| ChannelUpgrade.ConfirmExactly | core/channel-upgrade.go:483-538 | between two flushing ends CONFIRM goes exactly to an end in FLUSHING with nothing in flight whose counterparty's upgrade has not timed out and, while both are in FLUSHING, whose own has not either; TIMEOUT exactly to an end whose upgrade has timed out at an end in FLUSHING |
| ChannelUpgrade.NoConfirmAfterTimeout | core/channel-upgrade.go:483-505 | when one of two flushing ends is sent TIMEOUT neither is sent CONFIRM, and when a FLUSHING end is too late to confirm one end is sent TIMEOUT |
| ChannelUpgrade.ConfirmDespiteOwnTimeout | core/channel-upgrade.go:514-538 | an end in FLUSHING is sent CONFIRM although its own upgrade has timed out at an end in FLUSHCOMPLETE |
| UpgradeRecovery.ActionExactly | core/channel-upgrade.go:381-543 | the exact condition of each of the seven actions, in the states, sequences, fields, timeouts and packets of the two ends: TRY and ACK by sequence, CONFIRM, OPEN, TIMEOUT, the cancel of an end that is behind or whose counterparty has no matching attempt, and the cancel in FLUSHCOMPLETE |
| UpgradeRecovery.StepExactly | core/channel-upgrade.go:308-627 | the last message that a settled step sends the source, by the same exact conditions |
| UpgradeRecovery.StepStopsExactly | core/channel-upgrade.go:334-379 | a step is the last exactly when both ends are settled and either have no upgrade, after the first call, or have one and are in the states asked for |
| UpgradeRecovery.StepCarries | core/channel-upgrade.go:753-836 | TRY names the connection of the counterparty's proposal as the receiving chain knows it, both cancels carry the counterparty's error receipt, the others carry none |
| UpgradeRecovery.StepFailsExactly | core/channel-upgrade.go:370-427 | a settled step fails exactly when no upgrade exists on the first call, or when it does not stop and an end needs a TRY or a check with an unknown connection, or a FLUSHCOMPLETE cancel without a receipt of its own sequence |
| UpgradeRecovery.AbortedIsTakenBack | core/channel-upgrade.go:396-427 | recovery: when one end has an upgrade that the other has aborted with a receipt for it, a settled step sends it a cancel with that receipt, and the chain accepts that cancel whenever it arrives and is back on OPEN without an upgrade and with its old fields |
| UpgradeRecovery.CompleteNeedsReceipt | core/channel-upgrade.go:809-826 | the cancel of an end in FLUSHCOMPLETE fails to be built exactly when the other end proves no receipt for its sequence |
| UpgradeRecovery.ElapsedExactly | core/channel-upgrade.go:738-750 | a timeout has elapsed from its height or its timestamp on, whichever is set |
| UpgradeRecovery.MirrorsExactly | core/channel-upgrade.go:722-736 | fields mirror each other exactly with equal ordering and version and connections that are the two ends of one |
| UpgradeRecovery.OutcomeMeans | core/channel-upgrade.go:141-194 | a round of the loop is complete exactly when both ends are settled and either both without an upgrade, not in the first round, or both in the states asked for; it waits while an end is unsettled, and otherwise the result of its send decides |
| UpgradeRecovery.VerdictMeans | core/channel-upgrade.go:160-194 | each verdict says what the last round came to, and is the only one that does |
| UpgradeHistory.SettledMeansUnchanged | core/channel-upgrade.go:658-710 | an end that looks the same at the finalized and the latest height has not changed in between |
| UpgradeSafety.InvTry | core/channel-upgrade.go:764-775 | an accepted TRY keeps the joint invariant of the two ends |
| UpgradeSafety.InvConfirm | core/channel-upgrade.go:783-790 | an accepted CONFIRM keeps the joint invariant |
| UpgradeSafety.InvOpen | core/channel-upgrade.go:791-795 | an accepted OPEN keeps the joint invariant |
| UpgradeSafety.InvCancel | core/channel-upgrade.go:796-826 | an accepted cancel, with a receipt or by an authority, keeps the joint invariant |
| UpgradeSafety.InvTimeout | core/channel-upgrade.go:827-831 | an accepted timeout keeps the joint invariant |
| UpgradeAgreement.DecideInv | core/channel-upgrade.go:308-634 | every decision of the relayer keeps the system's invariant: what it sends is justified by what it saw |
| UpgradeAgreement.UpgradeAgreement | core/channel-upgrade.go:141-194 | on every run, with any lag, failing sends, timeouts, cancels and repeated upgrades, two ends that are OPEN have the same ordering and version and the two ends of one connection, unless at some moment both ends had been cancelled under the two TRYs of one decision |
| UpgradeAgreement.UnchangedUntilAdopted | core/channel-upgrade.go:722-736 | the channel fields that the completion check compares only change by adopting an upgrade |
| UpgradeAgreement.StopsInAgreement | core/channel-upgrade.go:370-376 | when the relayer stops because both ends are back, they agree and neither has an upgrade |
| UpgradeCancel.BothCancelledAgreeIff | core/channel-upgrade.go:428-437 | for all crossing proposals at one sequence: both TRYs decided, both ends cancelled, both TRYs accepted, then CONFIRM and OPEN decided and accepted on both sides, and the ends are OPEN on matching fields if and only if the proposals mirrored each other |
| UpgradeCancel.CancelledRun | core/channel-upgrade.go:428-543 | the same as a run from two fresh ends in which the relayer decides every message: it ends in agreement if and only if the proposals were the same |
| UpgradeProgress.DecisionTimely | core/channel-upgrade.go:381-543 | in an undisturbed state every settled decision is TRY, ACK, CONFIRM, OPEN or waiting, and its message is one the chain accepts |
| UpgradeProgress.AcceptedMakesProgress | core/channel-upgrade.go:753-836 | every accepted message of an undisturbed upgrade strictly decreases the measure |
| UpgradeTermination.UpgradeProgresses | core/channel-upgrade.go:141-194 | over an undisturbed run, the messages accepted and the measure left are together at most the measure at the start, which is at most six |
| UpgradeTermination.NeverStuck | core/channel-upgrade.go:370-543 | a settled relayer stops exactly when both ends are back, and otherwise sends nothing exactly while packets are in flight |
| UpgradeCompletion.UpgradeCompletes | core/channel-upgrade.go:141-194 | from every undisturbed state with nothing under way some undisturbed steps reach two OPEN ends on the proposed, matching fields, where the relayer stops |
| UpgradeCompletion.InitStartsUpgrade | core/channel-upgrade.go:80-137 | an upgrade started on either end, if its sequence is not the lower one, begins such a run with measure six and can be completed |
| UpgradeCompletion.CrossingInitsComplete | core/channel-upgrade.go:428-437 | so do crossing starts with mirrored proposals, whatever the sequences |
| Handshake.CreateStep | core/channel.go:168-319 | the step of both handshakes equals its plan: nothing while an end is unsettled, the panic, or the client updates and the message |
| Handshake.PlanSendsTheNextMessage | core/connection.go:268-397 | a step waits exactly when an end is unsettled, panics exactly when the settled pair is none of the seven, otherwise sends to one chain one client update for each header of the other chain, none with a channel's OpenInit, and then the next message of the handshake with its proof height; it is the last exactly when only that message is missing |
| HandshakeSafety.DecisionKnown | core/connection.go:299-310 | the client updates sent with a decision make the height of its proof known to the receiving chain, which refuses the message otherwise |
| HandshakeSafety.Recorded | core/config.go:150-213 | after a successful send exactly the generated identifier of that handshake is written, and recording does not fail |
| HandshakeSafety.HandledNext | core/channel.go:198-286 | the chain accepts the next message and stores the end the standard asks for under the right identifier |
| HandshakeSafety.NextIsAccepted | core/channel.go:198-286 | a message under way is accepted whenever it arrives, its proof height included |
| HandshakeSafety.NextInv | core/channel.go:37-80 | every step keeps identifiers coupled with the chains and the message under way the next one |
| HandshakeSafety.HandshakeSafe | core/connection.go:271-365 | while no executed OpenConfirm is reported as failed, no run panics and success is reported exactly when both ends are OPEN |
| HandshakeSafety.ExecutedInOrder | core/channel.go:198-286 | over every run with truthful reports, what was executed followed by what is needed stays the same sequence |
| HandshakeSafety.NewPathHandshake | core/channel.go:23-88 | from a new path each of Init, Try, Ack, Confirm is executed at most once and in order, and success comes exactly after the fourth, with both ends OPEN and naming each other |
| HandshakeSafety.LostReportInv | core/channel.go:52-80 | an executed message reported as failed either leaves an unreferenced end or advances the handshake, and keeps the invariant |
| HandshakeSafety.OpenedUnseen | core/channel.go:284-286 | once both ends are OPEN behind the relayer's back, no run reports success |
| HandshakeSafety.OpenedPanics | core/channel.go:284-286 | and as soon as both ends are settled the next decision is the panic |
| HandshakeSafety.LostConfirmPanics | core/channel.go:66-80 | losing an OpenConfirm opens both ends; the loop then gives up if that was the third failure in a row, and otherwise panics once both ends are settled |
| HandshakeLoop.StatusIsVerdict | core/channel.go:36-88 | on every run the status kept with the chains is the verdict of the loop on the outcomes of the run's rounds |
| HandshakeLoop.DecisionIsRound | core/connection.go:45-75 | a decision and the result of its send are one round of the loop |
| HandshakeSafety.HandshakeCompletes | core/utils.go:171-193 | from every state between sends, as many undisturbed rounds as messages are missing complete the handshake |
| RelayLoop.Create | core/connection.go:31-96 | the loop goes on or ends, with its verdict, exactly as the outcomes of the rounds say |
| RelayLoop.ExecuteChannelUpgrade | core/channel-upgrade.go:141-194 | the same for the upgrade loop, where only the first step may not stop at two ends without an upgrade |
| RelayLoop.GivesUpOnThirdFailure | core/channel.go:68-75 | the loop gives up exactly on the third of three sends in a row that failed, however many rounds waited in between |
| RelayLoop.EndsOnce | core/utils.go:171-193 | a loop ends at one round and with one verdict only |
| RelayLoop.CheckCreateReady | core/channel.go:90-136 | a configured end that does not exist is an error, two OPEN ends mean there is nothing to do |
| PathConfig.UpdatePathConfig | config/core.go:22-55 | the end of the given chain gets the entries, the other end is unchanged, an unknown chain is refused |
| PathConfig.SetEntries | config/core.go:38-52 | the order in which a map's entries are visited does not matter |
| PathConfig.SyncChainConfigFromEvents | core/config.go:150-213 | the configuration after the messages' events, up to the first failure, and that failure; entries before it stay |
| PathConfig.SyncChainConfigsFromEvents | core/config.go:140-148 | source first, destination only if the source succeeded |
| PathConfig.OneEvent | core/config.go:162-208 | which identifier each event sets, the three checks of an upgrade event in their order with their errors, and that a failing or other event changes nothing |
| PathConfig.OneMsg | core/config.go:151-160 | a missing id is skipped, a result that cannot be fetched or that failed is an error, otherwise the events are applied |
| PathConfig.AfterEventsSplit | core/config.go:162-208 | the events of a list are those of its first part and then, if none failed, those of the rest |
| PathConfig.AfterMsgsSplit | core/config.go:151-210 | the same for messages, so the entries before the first failure stay and nothing after it is written |
| PathConfig.LastEventWins | core/config.go:162-208 | the last event that sets a key decides its value |
| PathConfig.UnsetKeyKept | core/config.go:162-208 | a key that no event sets is unchanged |
| RelayMsgs.Submit | core/relayMsgs.go:79-92 | one call; the slots of its messages get their ids, or stay empty when it fails, and no other slot changes |
| RelayMsgs.SendTo | core/relayMsgs.go:65-121 | every message once and in order; a call of more or fewer messages than one keeps to `maxMsgLength` messages and `maxTxSize` bytes when these are set, a call ends only where the next message would go over one of them, the first call is empty exactly when the first message alone is longer than `maxTxSize`, and every id or failure is recorded |
| RelayMsgs.Round.Send | core/relayMsgs.go:50-187 | both chains served in turn within the limits whatever fails, success exactly when every call succeeded, all ids recorded |
| RelayMsgs.BatchBytes | core/relayMsgs.go:43-46 | the limits in messages and bytes, inclusive: what they allow a call to hold and where they end it |
| RelayMsgs.SizeIsBytes | core/relayMsgs.go:65-74 | the size a batch is held to is the number of bytes of its messages |
| RelayMsgs.IdSlot | core/relayMsgs.go:86-92 | the slot of message i of call j holds the id that call returned for it, or nothing if the call failed |
| RelayMsgs.GreedyIsOptimal | core/relayMsgs.go:43-46 | no split of the same messages into batches within the two limits, or of one message, has fewer batches than the calls that carry messages |
| RelayMsgs.NoLimitsOneCall | core/relayMsgs.go:43-46 | without limits a chain gets at most one call |
| Packets.Filter | core/types.go:44-55 | the packets whose sequence is listed, in order, once each |
| Packets.SelectExactly | core/types.go:30-55 | what is selected are exactly the elements that meet the condition, each at its own position and in the order of the list |
| Packets.Subtract | core/types.go:30-42 | the packets whose sequence is not listed, in order |
| Packets.FilterSubtractPartition | core/types.go:30-55 | the two split every list without loss |
| Packets.UnrelayedPackets | core/naive-strategy.go:101-197 | what is discovered in one direction, with and without the second filter |
| Packets.DiscoveryRefines | core/naive-strategy.go:155-197 | when receipts only grow, it is in order exactly what is committed and not received at the latest height |
| Packets.Classify | core/naive-strategy.go:288-319 | relay and timeout lists of one direction, for ordered and unordered channels |
| Packets.TimeoutExactly | core/naive-strategy.go:283-286 | a packet has timed out exactly from its timeout height on, a later revision included, or from its timeout timestamp on; an unset bound never |
| Packets.UnorderedMembers | core/naive-strategy.go:290-319 | unordered: exactly the packets that have timed out at the finalized clock are timed out, exactly those that neither clock has reached are relayed |
| Packets.ProcessTimeoutPackets | core/naive-strategy.go:211-363 | each direction by the order of its sender and the clocks of its receiver, overwriting the four lists |
| Packets.UnorderedPartition | core/naive-strategy.go:283-319 | when the finalized clock is not ahead, every packet goes to exactly one of relay, timeout and held back |
| Packets.OrderedExclusive | core/naive-strategy.go:290-319 | ordered: the longest prefix without a timeout is relayed; the first packet is timed out exactly when its timeout has passed at the finalized clock and the receiver expects it next, no other ever, and then nothing is relayed |
| RelayService.Assemble | core/service.go:109-149 | the list for one chain: client updates, packets, acknowledgements, timeouts, or the first error |
| RelayService.ListExactly | core/service.go:109-149 | each position of the list: the headers' updates when a proof or the refresh asks for them, the packets and acknowledgements when due, the timeouts with the packet's sequence if ordered and 1 otherwise, all proved at the finalized height |
| RelayService.ListFails | core/service.go:109-149 | there is no list exactly when the refresh check, asked only if nothing needs a proof, the headers or one of the proofs fails |
| RelayService.ShouldExecuteRelay | core/service.go:248-288 | relay to a chain exactly when the oldest packet is old enough or there are enough; to neither when an age is unknown |
| RelayService.Discover | core/naive-strategy.go:456-587 | the packets to relay and to return in both directions, and the acknowledgements of a chain unless its counterparty's flag is set |
| RelayService.PendingMembers | core/naive-strategy.go:79-209 | pending are exactly the packets committed at the sender and received at the receiver neither at its finalized nor at its latest height, and likewise the acknowledgements |
| RelayService.Serve | core/service.go:152-246 | from what the chains answer: each chain gets the pending packets and acknowledgements of the other that are due and its own timed-out packets; a failure on either side sends nothing |
| RelayService.ListOrder | core/service.go:119-147 | updates before packets before acknowledgements before timeouts |
| RelayService.ProofsHaveHeaders | core/naive-strategy.go:733-789 | with any message that bears a proof, headers were requested and lead the list, and the last one is for the finalized height at which every proof is taken, unless the light client answered that none is needed |
| RelayService.ListContents | core/naive-strategy.go:589-651 | the list holds exactly the job's packets and timeouts, once and in order |
| RelayService.NoAckFlags | core/naive-strategy.go:659-708 | acknowledgements are sent exactly when neither flag is set, they are due and there are some |
| Backlog.Metrics.Update | core/naive-strategy.go:841-850 | the counter grows by the packets that left, the new backlog replaces the old |
| Backlog.BacklogConservation | core/naive-strategy.go:807-850 | counter plus backlog exceed the distinct packets ever seen by exactly the number of returns |
| Backlog.CountedOnce | core/naive-strategy.go:807-850 | from the start they are equal exactly when no packet that left came back |
| Varint.SovIsLength | lightclients/fabric-msp/fabricmsp.pb.go:1572-1574 | the size formula is the length of the varint, for every number |
| Varint.EncodeVarint | lightclients/fabric-msp/fabricmsp.pb.go:1299-1309 | writes exactly the varint in front of the offset and nothing else |
| Varint.DecodeVarint | lightclients/fabric-msp/fabricmsp.pb.go:1583-1598 | reads the value modulo two to the 64, with its overflow and end-of-input errors |
| Varint.DecodeEncode | lightclients/fabric-msp/fabricmsp.pb.go:1299-1309 | decoding an encoded number gives it back and consumes exactly its bytes, whatever follows |
| Varint.EncodeDigits | lightclients/fabric-msp/fabricmsp.pb.go:1299-1309 | byte i holds bits 7i to 7i+6 and the high bit of all but the last is set; no superfluous last byte |
| Wire.SkipField | lightclients/fabric-msp/fabricmsp.pb.go:3398-3475 | the loop terminates with the length that the recursive reading of nested groups gives, or its error |
| Wire.Unmarshal | lightclients/fabric-msp/fabricmsp.pb.go:1578-1665 | the parser loop equals the recursive parse, field by field |
| Wire.ParseKnown | lightclients/fabric-msp/fabricmsp.pb.go:1609-1644 | a written known field is consumed exactly and stored |
| WireConcat.ParseConcat | lightclients/fabric-msp/fabricmsp.pb.go:1578-1665 | for arbitrary bytes: if a first part parses, parsing it followed by more is parsing the rest into its result |
| UnknownFields.SkipIsOneField | lightclients/fabric-msp/fabricmsp.pb.go:3398-3475 | skipping returns exactly one field's length, whatever follows and however deeply groups are nested |
| UnknownFields.UnknownFieldsTransparent | lightclients/fabric-msp/fabricmsp.pb.go:1645-1658 | with well-formed unknown fields anywhere, the message is the one the known fields give |
| UnknownFields.InsertionIgnored | lightclients/fabric-msp/fabricmsp.pb.go:1645-1658 | inserting them into an encoding changes nothing that is parsed |
| WireWriter.WriteNum | lightclients/fabric-msp/fabricmsp.pb.go:698-707 | a non-zero number is written with its tag in front of what is there, zero is left out, nothing else changes |
| WireWriter.WriteBlob | lightclients/fabric-msp/fabricmsp.pb.go:731-737 | the same for byte strings and strings |
| WireWriter.WriteRepeated | lightclients/fabric-msp/fabricmsp.pb.go:775-783 | the elements are written last to first and read first to last, empty ones included |
| FabricMsgs.SequenceRoundTrip | lightclients/fabric-msp/fabricmsp.pb.go:1578-1665 | a sequence is parsed back from its encoding, negative timestamps included |
| FabricMsgs.SequenceSizeIsLength | lightclients/fabric-msp/fabricmsp.pb.go:1310-1323 | Size is the length, at most 22 |
| FabricMsgs.SequenceInjective | lightclients/fabric-msp/header_verify.go:30-37 | equal bytes mean equal value and timestamp |
| FabricMsgs.MarshalSequence | lightclients/fabric-msp/fabricmsp.pb.go:693-709 | fills exactly Size bytes before the end with the encoding, whose bytes are those of `FabricSchema.SequenceBytes` |
| FabricMsgs.ChaincodeIDRoundTrip | lightclients/fabric-msp/fabricmsp.pb.go:1666-1811 | parsed back |
| FabricMsgs.MarshalChaincodeID | lightclients/fabric-msp/fabricmsp.pb.go:726-753 | fills exactly Size bytes |
| FabricMsgs.CommitmentProofRoundTrip | lightclients/fabric-msp/fabricmsp.pb.go:1812-1997 | parsed back, with both repeated fields in order |
| FabricMsgs.MarshalCommitmentProof | lightclients/fabric-msp/fabricmsp.pb.go:770-811 | fills exactly Size bytes |
| FabricMsgs.MessageProofRoundTrip | lightclients/fabric-msp/fabricmsp.pb.go:1998-2111 | parsed back |
| FabricMsgs.MarshalMessageProof | lightclients/fabric-msp/fabricmsp.pb.go:828-852 | fills exactly Size bytes |
| FabricMsgs.MSPInfoRoundTrip | lightclients/fabric-msp/fabricmsp.pb.go:2736-2905 | parsed back |
| FabricMsgs.MarshalMSPInfo | lightclients/fabric-msp/fabricmsp.pb.go:1076-1113 | fills exactly Size bytes |
| FabricHeaders.ChaincodeHeaderRoundTrip | lightclients/fabric-msp/fabricmsp.pb.go:2112-2227 | parsed back through both nested messages |
| FabricHeaders.MarshalChaincodeHeader | lightclients/fabric-msp/fabricmsp.pb.go:869-895 | nested messages in place, length and tag in front of each |
| FabricHeaders.ChaincodeInfoRoundTrip | lightclients/fabric-msp/fabricmsp.pb.go:2228-2446 | parsed back, a missing proof stays missing |
| FabricHeaders.MarshalChaincodeInfo | lightclients/fabric-msp/fabricmsp.pb.go:912-961 | fills its bytes exactly |
| FabricHeaders.MSPHeaderRoundTrip | lightclients/fabric-msp/fabricmsp.pb.go:2447-2651 | parsed back, for every 32-bit type |
| FabricHeaders.MarshalMSPHeader | lightclients/fabric-msp/fabricmsp.pb.go:978-1022 | fills exactly Size bytes |
| FabricHeaders.MSPHeadersRoundTrip | lightclients/fabric-msp/fabricmsp.pb.go:2652-2735 | every header of a list, in order |
| FabricHeaders.MSPInfosRoundTrip | lightclients/fabric-msp/fabricmsp.pb.go:2906-2989 | every organisation of a list, in order |
| FabricHeaders.MarshalMSPInfos | lightclients/fabric-msp/fabricmsp.pb.go:1130-1150 | the elements are written last to first |
| FabricHeaders.MarshalHeader | lightclients/fabric-msp/fabricmsp.pb.go:963-971 | Marshal reserves exactly the bytes it fills |
| FabricHeaders.UnmarshalHeader | lightclients/fabric-msp/fabricmsp.pb.go:2447-2651 | on the bytes of a marshalled header the loop returns that header |
| FabricHeaders.MSPHeaderSignBytesIdentify | lightclients/fabric-msp/header_verify.go:150-157 | equal sign bytes exactly when all fields but the proof are equal |
| FabricHeaders.ChaincodeInfoSignBytesIdentify | lightclients/fabric-msp/header_verify.go:141-148 | the same for chaincode information |
| FabricSchema.SequenceBytes | lightclients/fabric-msp/fabricmsp.pb.go:693-709 | tag 08 and the value, tag 10 and the timestamp, negative ones plus two to the 64; zeros are left out |
| FabricSchema.ChaincodeIDBytes | lightclients/fabric-msp/fabricmsp.pb.go:726-753 | tags 0a, 12, 1a for path, name and version, each with its length, empty ones left out |
| FabricSchema.CommitmentProofBytes | lightclients/fabric-msp/fabricmsp.pb.go:770-811 | tags 0a, 10, 18 for proposal and the two indices, 22 for every identity, 2a for every signature |
| FabricSchema.MessageProofBytes | lightclients/fabric-msp/fabricmsp.pb.go:828-852 | tag 0a for every identity, then 12 for every signature |
| FabricSchema.MSPInfoBytes | lightclients/fabric-msp/fabricmsp.pb.go:1076-1113 | tags 0a, 12, 1a for id, configuration and policy, and the two bytes 20 01 when frozen |
| FabricSchema.ChaincodeHeaderBytes | lightclients/fabric-msp/fabricmsp.pb.go:869-895 | tags 0a and 12 with the lengths and bytes of the two nested messages, written even when empty |
| FabricSchema.ChaincodeInfoBytes | lightclients/fabric-msp/fabricmsp.pb.go:912-961 | tags 0a, 12, 1a, 22 and, unless the proof is missing, 2a; the chaincode id is written even when empty |
| FabricSchema.MSPHeaderBytes | lightclients/fabric-msp/fabricmsp.pb.go:978-1022 | tag 08 and the type, tags 12, 1a, 22, and 2a unless the proof is missing |
| FabricSchema.ListBytes | lightclients/fabric-msp/fabricmsp.pb.go:1130-1150 | tag 0a for every element of the two list messages, in order |
| FabricSchema.WideNumbers | lightclients/fabric-msp/fabricmsp.pb.go:1878-1912 | a number read into 32 bits keeps its low bits, a flag is any number but zero, a timestamp above two to the 63 is negative |
| FabricSchema.ChaincodeHeadersMerge | lightclients/fabric-msp/fabricmsp.pb.go:2141-2206 | a chaincode header after another: fields that are present replace, inside the nested messages too, and repeated fields are appended |
| FabricSchema.BadTags | lightclients/fabric-msp/fabricmsp.pb.go:1600-1610 | which tags end parsing with which error: a group's end, no valid field number, a known field with another wire type, an unknown one with wire type 6 or 7 |
| FabricSchema.BadLengths | lightclients/fabric-msp/fabricmsp.pb.go:1697-1726 | a length that is no signed 64-bit number is invalid, one that points past the input is an end of input |
| FabricSchema.BadVarints | lightclients/fabric-msp/fabricmsp.pb.go:1583-1598 | the two errors of a varint: ten bytes that all ask for more, and an end of input before that |
| FabricClient.IndexOf | lightclients/fabric-msp/msp.go:41-48 | the first organisation with the id, or -1 when there is none |
| FabricClient.GetMSPPBConfigs | lightclients/fabric-msp/msp.go:17-32 | the verification root or the error; `FabricSafety.RootIsLive` states which configurations it holds |
| FabricSafety.RootIsLive | lightclients/fabric-msp/msp.go:17-32 | the root holds the configurations of exactly the organisations that are not frozen, in their order; it exists exactly when each of these has a configuration that decodes |
| FabricSafety.RootIgnoresFrozen | lightclients/fabric-msp/msp.go:19-22 | whatever is stored in a frozen organisation, the root is the same |
| FabricClient.VerifyMSPHeader | lightclients/fabric-msp/header_verify.go:55-137 | which header is accepted: by type, by the organisation's state, by its own policy for a configuration and the client's for the rest |
| FabricClient.VerifyClientMessage | lightclients/fabric-msp/update.go:14-40 | accepted exactly when some part is present and every part is verified against the old state |
| FabricUpdate.PartsAccepted | lightclients/fabric-msp/update.go:14-40 | a message is accepted exactly when it has a part and each of its parts alone is accepted |
| FabricUpdate.HeaderAccepted | lightclients/fabric-msp/header_verify.go:22-42 | a chaincode header alone: a higher sequence whose bytes are endorsed under the fixed key by the endorsement policy and the root |
| FabricUpdate.InfoAccepted | lightclients/fabric-msp/header_verify.go:44-53 | chaincode information alone: signed without its proof under the current IBC policy |
| FabricUpdate.MSPAccepted | lightclients/fabric-msp/header_verify.go:55-137 | an MSP header alone: create needs a new id, the others the first organisation with the id, not frozen; its own policy signs a configuration, the IBC policy all else |
| FabricClient.ApplyMSPHeaders | lightclients/fabric-msp/header_verify.go:161-181 | the loop equals applying the headers one after the other |
| FabricClient.Client.UpdateState | lightclients/fabric-msp/update.go:62-90 | each part of the new client state and, with a chaincode header, the timestamp, time and height stored at its sequence; nothing else is stored |
| FabricClient.Client.Receive | lightclients/fabric-msp/update.go:56-90 | a message that is not verified changes nothing |
| FabricUpdate.LastHeaderDecides | lightclients/fabric-msp/header_verify.go:161-181 | the first organisation with an id gets the configuration and policy of the last header of each kind that names it, keeps what none names, and is frozen if it was or a header says so |
| FabricUpdate.CreatedAsGiven | lightclients/fabric-msp/header_verify.go:161-181 | an accepted update appends exactly the organisations of its create headers, in order, live, with their configuration and policy |
| FabricClient.Client.constructor | lightclients/fabric-msp/client_state.go:83-91 | one consensus state and no processed time or height |
| FabricClient.Client.VerifyDelayPeriodPassed | lightclients/fabric-msp/store.go:83-106 | the time delay is checked before the block delay, each with its missing-metadata error; no delay passes, and a check that passes has reached the 64-bit sums |
| FabricSafety.StepExtends | lightclients/fabric-msp/header_verify.go:22-42 | one message only extends the store; the latest height grows exactly when an accepted message has a chaincode header |
| FabricSafety.HistoryAppendOnly | lightclients/fabric-msp/update.go:62-90 | over every run nothing stored is overwritten, the latest height is stored and bounds all others, and exactly the added heights get metadata |
| FabricSafety.OneStateForEachAdvance | lightclients/fabric-msp/update.go:80-90 | every accepted chaincode header, and nothing else, adds one consensus state |
| FabricSafety.EndorsedSequenceUnique | lightclients/fabric-msp/header_verify.go:22-42 | one proof cannot advance a client to two different heights or timestamps |
| FabricUpdate.EveryStateEndorsed | lightclients/fabric-msp/update.go:62-90 | every consensus state that a run added holds the timestamp of a sequence of that height, endorsed under the chaincode information and root of the moment it arrived, with that moment's time and height |
| FabricUpdate.EveryInfoEndorsed | lightclients/fabric-msp/header_verify.go:44-53 | after any run the chaincode information is the first or was signed under the IBC policy in force when it arrived |
| FabricSafety.IdsAfter | lightclients/fabric-msp/header_verify.go:161-181 | organisations are never removed, renamed or reordered; created ones are appended |
| FabricSafety.UniqueIff | lightclients/fabric-msp/header_verify.go:70-82 | ids stay unique exactly when no id is created twice in the update |
| FabricSafety.CreatedTwice | lightclients/fabric-msp/header_verify.go:161-181 | an accepted update that creates an id twice, after which freezing that id leaves its configuration in the root |
| FabricSafety.UnnamedUnchanged | lightclients/fabric-msp/header_verify.go:161-181 | an organisation that the update does not name keeps everything |
| FabricSafety.FrozenForever | lightclients/fabric-msp/header_verify.go:84-137 | over every run a frozen organisation stays frozen with the same configuration and policy |
| FabricSafety.FrozenOutOfRoot | lightclients/fabric-msp/msp.go:17-32 | with unique ids, after any run the root consists of configurations of live organisations whose ids differ from a once frozen one, and no configuration stored under the frozen id changes it |
| FabricSafety.EveryChangeEndorsed | lightclients/fabric-msp/header_verify.go:84-137 | a configuration changes only to that of a header endorsed under the organisation's own policy, a policy only to that of a header endorsed under the client's, a freeze only under the client's, and nothing is unfrozen |
| FabricSafety.DelayNeedsUpdate | lightclients/fabric-msp/store.go:83-106 | after any run from initialization, a delay in time or in blocks fails for lack of metadata exactly at the first height and at heights without a consensus state |
| FabricSafety.DelayExactIff | lightclients/fabric-msp/store.go:89-92 | the time check asks for the full delay at every moment exactly when the sum fits 64 bits |
| FabricSafety.BlockDelayExactIff | lightclients/fabric-msp/store.go:99-103 | the block check asks for the full delay at every height exactly when the sum fits 64 bits |

## Left out

- ChannelUpgrade.UpgradeChannelStep: models a successful first attempt of the retried message building; a failed first attempt can leave extra messages in the lists. When both sides fail, the source's error is returned, where the original returns whichever came first.
- UpgradeAgreement.UpgradeAgreement: excludes the runs on which both ends were cancelled under the two TRYs of one decision; `UpgradeCancel.BothCancelledAgreeIff` says when those agree. The authority of a cancel's sender is chosen anew for each cancel. The loop's failure counter is not part of these runs: it only ends a run early, and the theorem holds at every moment of every run.
- UpgradeRecovery.AbortedIsTakenBack: asks that the aborting end is not flushing another attempt and that, against an end still in OPEN, it has no upgrade of its own; what is sent then is in `UpgradeRecovery.StepExactly`. An end in FLUSHCOMPLETE is taken back as the code allows it: by the receipt of its own sequence, before its timeout, and not when the other end is already on the new fields.
- HandshakeSafety.HandshakeSafe: other users of the chains may change anything but the path's own ends, and chains neither revert nor remove ends.
- HandshakeSafety.NewPathHandshake: every send is reported truthfully; the lost reports have their own rows.
- UpgradeTermination.UpgradeProgresses: holds for runs in which no operator interferes, no upgrade timeout elapses and the proposals match; an upgrade started on the end with the lower sequence is cancelled by the relayer instead.
- Wire.Unmarshal: a length that overflows the index counts as one that points past the end; the original reports it with another error text.
- FabricHeaders.ChaincodeHeaderRoundTrip: asks that nested messages are shorter than two to the 63 bytes, which every Go slice is.
- FabricClient.GetMSPPBConfigs: a missing and an empty configuration are the same value, as they are once the client state has been stored.
- FabricClient.VerifyClientMessage: gives acceptance or rejection, not the text of the error.
- PathConfig.UpdatePathConfig: works on the two ends of one existing path; the lookup of the path by its name and the failing write of the file are left out.
- RelayService.Serve: the queries of a round succeed; only proofs, headers and the refresh check can fail.
- PathConfig.SyncChainConfigFromEvents: the chain belongs to one of the path's two ends, which have different chain ids; writing the configuration file is left out.
- RelayMsgs.SendTo: the byte counter does not wrap at 64 bits; marshalling a message does not fail.
- In the on-chain upgrade model a TRY or an ACK with incompatible fields behaves as in ICS 4 (rejected, aborted); only the first connection hop is kept, channel heights carry no revision number, and the send sequence at the start of an upgrade is left out.
- The two reads of the latest height in a settled check happen at one moment, and queries do not fail transiently; a failing query ends a create or upgrade loop with an error.
- The proofs of client and consensus states inside connection messages, path validation and the delay period of connections.
- Telemetry export, tracing, logging, waiting and goroutine scheduling; parallel branches run one after the other.
- RPC, the Fabric gateway, key management, event parsing and configuration files.
- X.509, MSP and policy evaluation; which write an endorsed proposal contains; membership proofs, which use the same unknown function.
- The messages Header, ClientState and ConsensusState of the codec and the other generated codecs, which repeat the same patterns.
- Misbehaviour, recovery and upgrade of the Fabric client, which the original does not implement.
