# Verified models of the earbud reference design

Dafny models of three parts of the repository, with proofs about them.

**The charger-case link** (`rdp/charger_case_comms_stm32`). A tick-driven transmitter sends
groups of nine bit periods, a forced transition and eight data bits. A receiver samples the
line ten times per period, records the times at which it crosses a threshold, and rebuilds
octets from those times. `Bits`, `Framing`, `Demodulator`, `Decoding`, `EdgeRecorder`,
`Reception` and `Transmitter` model both sides, and `Exchange` a message with its reply on one
link; the main results say that the receiver inverts the framing under jitter, that the header is
read correctly while the packet is still arriving, that the transmitter produces the framing, and
that it leaves both sides ready for the reply. `Crc8` is the packet check and `Crc32` the image
checksum of the build script. `Wire` is the retry layer with its sequence bits, `Ccp` the polled
request protocol above it, `CcpOverWire` the two together, and `CaseStatus`, `CaseSequences` and
`CaseProgress` the reset and status sequences on top: the code, what keeps a sequence from being
lost, and how it gets to its end.

**Handover and application state** (`earbud/src`). `Handover` marshals the objects of all
registered interfaces in chunks and delivers them on the other earbud; `SmTimers` moves live
timers between two earbuds across a wrapping clock; `GamingMode` and `EarbudSm` are the two
state machines, with re-entrant state entry, message locks and bit-encoded states. The rules
engine that `EarbudSm` tells of its changes is modelled as it is written, with its loops over
one table, in `RulesLoop`; `RulesOrder` proves that each event is affected by its own rules only,
and that over every sequence of calls the engine is the rule set of `RulesEngine` (each event with
the status of each of its rules), on which `EarbudSm` and `RoleRules` build. `RulePositions` tells
where an event stands in its list of rules, and `RuleTables` holds the tables as they are listed.

**Two refinements.** `Crc32` (a reflected library computes an MSB-first CRC) and `Thermistor`
(a hinted table search equals the plain one).

Code that updates state is modelled by classes and methods with loops, each proved equal to a
specification function on values (`Snapshot() == Step(old(Snapshot()), ...)`). In the table below
such a method is the link between the code and that function; the results about runs are the
lemmas on the functions. Calls into code outside the model (wire layer, radio,
audio, power manager, role topology, callbacks of other components) are answers passed in as
parameters, arbitrary at every call.

Where the code differs from what its comments or callers suggest, the model follows the code
and the difference is stated as a lemma or a method contract:

- `EdgeRecorder.ParityEverywhere`: a line that touches the threshold and goes back to the side it
  came from makes the recorded edges lose their parity (`EdgeRecorder.ThresholdSampleBreaksParity`
  is the shortest such line); nothing else does.
- `EdgeRecorder.RecordAll`: a recording window with more than 512 crossings is written behind the end
  of its buffer (`EdgeRecorder.AlternatingOverruns` gives such samples).
- `Transmitter.SendMessage`: a transmission ends in a division by zero exactly when one side has drawn
  no current on any write tick from the sixth period on. A message without octets, which is accepted,
  always does (`Transmitter.SendNothing`); so does any message when one earbud is absent.
- `Wire.PendingIsBounded` and `Wire.RefusalGoesOn`: a message for which nothing is taken is given up
  in bounded time exactly as long as the bits are not reset again and again; an earbud that goes on
  refusing keeps it pending for ever.
- `CaseStatus.OtherReplyLoses`: a final reply that is not an earbud status loses the outcome.
- `Handover.HandoverApp.Marshal` leaves the application in the marshalling state when it returns
  true, although its comment promises the initial state; a further call then produces nothing.
- `Handover.Handover`: with nothing to hand over the new primary panics at the end.
- `Handover.ReceiveAfterAbort`: an abort keeps the marshalling cursor, which can make a later
  first unmarshal call panic; the condition is exact.
- `Handover.FullEmissionFits`: the receiver's list is sized in an octet.
- `GamingMode.CountHoldsExactly`: exactly which events make accepted requests and what they start
  disagree; after a change of role an accepted request may start nothing (`GamingMode.RoleChangeBreaksCount`
  is a run).
- `GamingMode.UnguardedExactly`: a connection that comes up at the wrong time leaves a blocked
  reconfigure message without its timer (`GamingMode.MessageWithoutTimer` is a run).
- An aborted handover leaves the timers written down on the primary, and a new primary that was
  sent none starts those of its own structure (`SmTimers.AbortLeavesTimers`, `SmTimers.StaleTimersRestart`).
- `RoleRules.OppositesExactly`: the rules of one role, unlike the common ones, can hold an event
  together with its opposite; in the primary role a deferred pairing rule is enough
  (`RoleRules.PairingHolds`).
- `RoleRules.DfuRuleNeverCompletes`: the secondary rule for firmware updates is never reported complete.
- `RulesOrder.CheckIsClean`: a deferred rule makes the engine look at rules of an event that it has
  just cleared, and may run one of them a second time (`RulesOrder.DeferredRunsAgain`).

Run `dafny verify dfyconfig.toml`.

## Model

| member | source | states |
|---|---|---|
| Reception.JitterTolerantDecoding | rdp/charger_case_comms_stm32/src/charger_comms.c:105-245 | every message of 1 to 16 octets is restored from edge times that are each up to two samples off, with or without an extra edge at the frame end, whatever else the buffer holds |
| Reception.PrefixAgrees | rdp/charger_case_comms_stm32/src/charger_comms.c:105-193 | decoding any prefix of the edges agrees with the message on every data bit before the first missing edge |
| Reception.EarlyHeaderIsFinal | rdp/charger_case_comms_stm32/src/charger_comms.c:247-264 | once the low nibble of the header is covered, the length read from a partial recording is the final one |
| Reception.HeaderInTime | rdp/charger_case_comms_stm32/src/charger_comms.c:284-326 | with the samples up to the sixth period recorded, the header read is already the final one |
| Reception.RecordedTimes | rdp/charger_case_comms_stm32/src/charger_comms.c:299-313 | what the recorder keeps of the samples of a framed line is one rise and then the time of each of its edges, in order, within the jitter |
| Reception.SamplesDecode | rdp/charger_case_comms_stm32/src/charger_comms.c:241-326 | from samples of a framed message to its octets, through recorder and demodulator |
| Reception.ChannelDecodes | rdp/charger_case_comms_stm32/src/charger_comms.c:241-326 | the same for the channel object in any state it can reach |
| Reception.ReceiveMessage | rdp/charger_case_comms_stm32/src/charger_comms.c:241-326 | the whole reception of a message: thresholds set, rise awaited, samples recorded, header read while they come in, the rest recorded, octets fetched; the octets and their number are those of the message, and the end index shortened by the header still covers its last edge |
| Reception.RoomForMessage | rdp/charger_case_comms_stm32/src/charger_comms.c:295-313 | the samples of a framed message never record more than 146 edges, so the unchecked buffer of 512 is enough |
| Decoding.RoundingIsExact | rdp/charger_case_comms_stm32/src/charger_comms.c:123-128 | rounding to bit periods absorbs exactly errors of -5 to 4 samples |
| Decoding.FilledBits | rdp/charger_case_comms_stm32/src/charger_comms.c:120-192 | after any number of edges of a framed line the buffer, with its tail fill, has every data bit before the next edge |
| Demodulator.ProcessBits | rdp/charger_case_comms_stm32/src/charger_comms.c:105-193 | the loop writes exactly the demodulated bits into the buffer, from the top of each octet, and returns their number |
| Demodulator.LongGapCutsOff | rdp/charger_case_comms_stm32/src/charger_comms.c:154-168 | a gap of more than nine periods ends the demodulation with what is written before it, so nothing recorded after it can change the octets |
| Demodulator.WriteLevels | rdp/charger_case_comms_stm32/src/charger_comms.c:170-182 | a run of equal bits is shifted in, up to the end of the buffer |
| Bits.WriteMessage | rdp/charger_case_comms_stm32/src/charger_comms.c:179-181 | shifting the bits of a message into a buffer restores its octets whatever the buffer held |
| Framing.DataBitsOfFramed | rdp/charger_case_comms_stm32/src/charger_comms.c:426-440 | dropping every ninth period of the framing gives the message bits back, from either initial level |
| EdgeRecorder.EarbudChannel.Process | rdp/charger_case_comms_stm32/src/charger_comms.c:284-326 | one sample: the buffer goes on holding exactly the crossings of all samples so far, unless this one is an edge for which there is no room |
| EdgeRecorder.RecordAll | rdp/charger_case_comms_stm32/src/charger_comms.c:299-313 | a channel that records its samples up to the end of its window writes behind its buffer exactly when the window has more than 512 crossings, and else keeps them all |
| EdgeRecorder.AlternatingOverruns | rdp/charger_case_comms_stm32/src/charger_comms.c:299-313 | a line that crosses the threshold at every sample overruns the buffer in the window of any packet of five octets or more |
| EdgeRecorder.EarbudChannel.FetchRxData | rdp/charger_case_comms_stm32/src/charger_comms.c:241-245 | the buffer is cleared and filled with what the recorded times demodulate to |
| EdgeRecorder.EarbudChannel.ReadHeader | rdp/charger_case_comms_stm32/src/charger_comms.c:247-264 | the octet count lies in 1..16 and the end of the packet in 240..1590 |
| EdgeRecorder.RecorderIsLossless | rdp/charger_case_comms_stm32/src/charger_comms.c:299-313 | recorded times strictly increase and a sample is high exactly when an odd number of them lie at or before it |
| EdgeRecorder.ParityExactly | rdp/charger_case_comms_stm32/src/charger_comms.c:305-306 | off the threshold the parity of the recorded edges tells the side of a sample exactly when the line has so far returned from the threshold, to the side it came from, an even number of times |
| EdgeRecorder.ParityEverywhere | rdp/charger_case_comms_stm32/src/charger_comms.c:299-313 | it tells the side of every sample off the threshold exactly when no stay on the threshold ends on the side on which it began |
| Transmitter.ChargerLink.Tick | rdp/charger_case_comms_stm32/src/charger_comms.c:328-468 | every write tick adds to the line exactly the level the schedule of the message asks for, and sending ends with write tick 9n+21, which leaves both recording windows open for the longest packet and each threshold at the average non-zero reading plus the offset; on a tick of reading both channels take their sample; a tick goes wrong exactly when it divides by an empty count or writes behind a buffer |
| Transmitter.SendMessage | rdp/charger_case_comms_stm32/src/charger_comms.c:328-442 | over a whole transmission of 0 to 16 octets, whatever is measured: all levels of the schedule are driven; the last tick divides by zero exactly when on one side no reading from the sixth period on, the last included, is other than zero; otherwise both end indices are 1590 and the threshold of each side is the sum of its inputs on those ticks by the number of them that are not zero, plus the offset, in 16 bits |
| Exchange.SendAndReceive | rdp/charger_case_comms_stm32/src/charger_comms.c:212-468 | on one link a message is sent and a reply received from the state this leaves: the reply rises within the time limit above the average current of the transmission, the recorder asks for the header after ten periods, and at any time after that its length is read, and in the end its octets are fetched |
| Exchange.ListenInVain | rdp/charger_case_comms_stm32/src/charger_comms.c:445-465 | without a reply listening ends after exactly one tick more than the limit, with no valid data on either side |
| Transmitter.ChargerLink.Transmit | rdp/charger_case_comms_stm32/src/charger_comms.c:212-239 | a message of at most 16 octets, empty or not, starts a new schedule; a longer one changes nothing |
| Transmitter.SendNothing | rdp/charger_case_comms_stm32/src/charger_comms.c:379-400 | a transmission without octets always divides by zero, whatever both sides draw |
| Transmitter.ChargerLink.DriveLevel | rdp/charger_case_comms_stm32/src/charger_comms.c:426-442 | the forced transition or next data bit that is driven is the level of the framing at this period |
| Transmitter.ChargerLink.ReadTick | rdp/charger_case_comms_stm32/src/charger_comms.c:445-465 | both recorders take their sample, and reading ends exactly when each side is complete or too late; it goes wrong exactly when an edge does not fit |
| Transmitter.SentIsFramed | rdp/charger_case_comms_stm32/src/charger_comms.c:426-440 | the schedule is the start sequence and then 9n levels of the framing with a transition at every ninth |
| Transmitter.NoLongHold | rdp/charger_case_comms_stm32/src/charger_comms.c:426-431 | no level is held for more than nine periods |
| Transmitter.SentBits | rdp/charger_case_comms_stm32/src/charger_comms.c:426-440 | the levels sent determine the message |
| Crc8.CrcEncoder | rdp/charger_case_comms_stm32/src/crc.c:51-78 | the 16-bit loops compute the 8-bit register over the data, with the check octet when verifying |
| Crc8.VerifyCrc8 | rdp/charger_case_comms_stm32/src/crc.c:87-92 | verification passes exactly when the last octet is the computed check octet |
| Crc8.RegisterIsFeed | rdp/charger_case_comms_stm32/src/crc.c:27-37 | absorbing octets equals feeding their bits one at a time, least significant first |
| Crc8.BurstDetected | rdp/charger_case_comms_stm32/src/crc.c:51-92 | two passing packets of equal length never differ only within 8 consecutive bits |
| Crc8.NineBitErrors | rdp/charger_case_comms_stm32/src/crc.c:27-92 | of two packets that differ only within 9 consecutive bits, one of which passes, the other passes exactly if it is the same or differs in the places of the coefficients of x^8 + x^7 + x^4 + x^3 + x + 1 |
| Crc8.StartComplements | rdp/charger_case_comms_stm32/src/crc.c:51-78 | starting from all ones is starting from zero with the first octet complemented |
| Crc8.ZerosFail | rdp/charger_case_comms_stm32/src/crc.c:51-92 | octets of zeros alone never pass |
| Crc8.OddErrorsDetected | rdp/charger_case_comms_stm32/src/crc.c:51-92 | a packet that differs from a passing one in an odd number of bits does not pass |
| Crc8.ShiftKeepsParity | rdp/charger_case_comms_stm32/src/crc.c:33-33 | a shift step keeps the parity of the register |
| Crc32.ImageCrc | rdp/charger_case_comms_stm32/build.py:114-131 | the checksum of an image equals the MSB-first CRC-32 with polynomial 0x04C11DB7 over its byte-swapped words, from all ones and without final complement |
| Crc32.BitSwap | rdp/charger_case_comms_stm32/build.py:89-100 | the loop reverses the low 32 bits and drops the others |
| Crc32.RegistersMirror | rdp/charger_case_comms_stm32/build.py:120-120 | for any polynomial the reflected register mirrors the MSB-first one |
| Crc32.WordFeed | rdp/charger_case_comms_stm32/build.py:120-120 | the octets of a reversed word enter the library in the bit order of the byte-swapped word, highest bit first |
| Wire.AlwaysGood | rdp/charger_case_comms_stm32/src/wire.c:160-333 | over every run, whatever the earbuds send, each accepted send ends exactly once (acknowledged, given up or aborted), and since the sequence bits were last reset the accepted packets alternate their bits: the next one is accepted exactly if its bit differs from the last, so a packet received twice counts once |
| Wire.AsksForTheNext | rdp/charger_case_comms_stm32/src/wire.c:229-300 | in the other direction, over every run: since the bits were last reset the packets that count as new alternate their bits, and the bit that the layer sends asks for the one that the last new packet did not have |
| Wire.PendingIsBounded | rdp/charger_case_comms_stm32/src/wire.c:229-397 | over every run in which nothing is taken for an earbud and no broadcast is made above, whatever both earbuds send, its message is pending for at most 605 of its turns and 405 more for each reset of the bits |
| Wire.SilenceIsGivenUp | rdp/charger_case_comms_stm32/src/wire.c:335-397 | a message for which nothing comes is pending until its last turn and given up with it, neither earlier nor later, over every run without a broadcast or restart |
| Wire.WaitsFor | rdp/charger_case_comms_stm32/src/wire.c:160-333 | this is the 201st turn after a new message, and the 202nd after an answer that was corrupted or refuses the message, as long as it may be sent again, and for the acknowledgement of a payload |
| Wire.BroadcastEnds | rdp/charger_case_comms_stm32/src/wire.c:399-431 | a broadcast is over after exactly its number of ticks with a free line, when it has been sent three times, and pending messages stay pending |
| Wire.BroadcastTakes | rdp/charger_case_comms_stm32/src/wire.c:132-158 | 22 ticks for a message to both earbuds, 23 for the restart that follows persistent refusals |
| Wire.RefusalIsUnbounded | rdp/charger_case_comms_stm32/src/wire.c:362-380 | a message whose earbud refuses it at each of its turns is never given up, in either earbud |
| Wire.RefusalGoesOn | rdp/charger_case_comms_stm32/src/wire.c:335-397 | from the start of the layer and for every n: after n refusals of a sent message it is still pending, the bits have been reset (n + 23) / 26 times, and it has had three turns for each |
| Wire.WireLayer.OnPeriodic | rdp/charger_case_comms_stm32/src/wire.c:399-431 | the periodic function: a broadcast, or each earbud in turn |
| Wire.WireLayer.Tx | rdp/charger_case_comms_stm32/src/wire.c:160-227 | a message of at most 14 octets is accepted exactly if the line is free, no broadcast is on its way and none is pending for the earbud |
| Ccp.Protocol.Tx | rdp/charger_case_comms_stm32/src/ccp.c:120-168 | a send needs a fitting message, an idle transaction and an accepting wire, and makes the transaction busy only if an answer is needed |
| Ccp.Protocol.ManageTransaction | rdp/charger_case_comms_stm32/src/ccp.c:342-382 | one tick of the poll timeout, with polls that the wire may refuse |
| Ccp.AlwaysTracked | rdp/charger_case_comms_stm32/src/ccp.c:120-168 | over any run poll_count stays within 5 and counts the accepted polls, poll_timeout stays within 50, and an untimed busy transaction still awaits an acknowledgement |
| Ccp.GiveUpAfterFivePolls | rdp/charger_case_comms_stm32/src/ccp.c:342-382 | the layer gives up by itself exactly after five accepted polls and the wait that follows |
| Ccp.PollTakes50 | rdp/charger_case_comms_stm32/src/ccp.c:276-382 | after an acknowledgement of a request nothing is sent for 49 ticks; the 50th sends the next poll if the wire takes it, is repeated on the next tick if it does not, and gives up after the fifth poll |
| Ccp.BusyIsBounded | rdp/charger_case_comms_stm32/src/ccp.c:276-311 | with at most one acknowledgement per send a transaction stays busy for at most 556 productive events after its request |
| CcpOverWire.AlwaysLinked | rdp/charger_case_comms_stm32/src/wire.c:229-397 | over every run of both layers a busy transaction is owed an answer exactly if the wire has a message for its earbud pending |
| CcpOverWire.FairExactly | rdp/charger_case_comms_stm32/src/ccp.c:276-311 | so a busy transaction sees an acknowledgement that is not owed exactly if it comes with nothing pending |
| CcpOverWire.Projects | rdp/charger_case_comms_stm32/src/wire.c:229-333 | a run of both layers is, for each earbud, a run of the protocol on what the wire tells it |
| CcpOverWire.BusyEnds | rdp/charger_case_comms_stm32/src/ccp.c:342-382 | from its request on, without stray acknowledgements, a transaction is not busy for more than 3636 turns of its messages on the wire and 405 more for each reset of the bits, nor for more than 556 productive events; and it always has a message pending or a poll timed |
| CaseStatus.NoOutcomeLost | rdp/charger_case_comms_stm32/src/case.c:390-554 | in every reachable state an earbud awaiting a status or the end of a reset has a busy transaction or a latched outcome, and after a reset command its transaction is not busy |
| CaseStatus.OtherReplyLoses | rdp/charger_case_comms_stm32/src/ccp.c:248-273 | exactly when a final reply of another kind loses the outcome |
| CaseSequences.LostIsStuck | rdp/charger_case_comms_stm32/src/case.c:437-547 | an earbud whose outcome is lost stays in its waiting state over every run in which no outcome that it did not ask for, abort by a broadcast or reset command reaches it |
| CaseStatus.OutcomeIsUsed | rdp/charger_case_comms_stm32/src/case.c:489-546 | an outcome moves the sequence on, unless only the battery reading or the wire holds back the report |
| CaseSequences.ResetIsSeenThrough | rdp/charger_case_comms_stm32/src/case.c:447-502 | from an accepted reset command on, over every run, the earbud stays in the reset sequence until it is idle with a status sent since the reset was acknowledged, or until the command could not be delivered |
| CaseSequences.LatchedIsAnswered | rdp/charger_case_comms_stm32/src/case.c:441-547 | over every run a latched status counts exactly when it has arrived since the earbud was last asked |
| CaseSequences.StatusIsSeenThrough | rdp/charger_case_comms_stm32/src/case.c:504-546 | from a wanted status on, over every run, the sequence ends only with a report of a status sent since it was asked for, without an answer, or with a reset command; an aborted request is made again |
| CaseStatus.RightFollowsLeft | rdp/charger_case_comms_stm32/src/case.c:525-545 | when the left sequence ends the right one starts, if it is not already running |
| CaseStatus.ReadingTakes | rdp/charger_case_comms_stm32/src/case.c:336-388 | a battery reading is done after exactly 233 ticks, with the percentage measured at the last one |
| CaseStatus.ReportFinishes | rdp/charger_case_comms_stm32/src/case.c:514-552 | a report ends the sequence with clear latches whatever the broadcast aborts |
| CaseStatus.QuietDuringDfu | rdp/charger_case_comms_stm32/src/case.c:317-334 | once both earbuds are idle and an update is allowed, both stay idle until it has finished |
| CaseStatus.Case.OnPeriodic | rdp/charger_case_comms_stm32/src/case.c:390-554 | the periodic function: an event, or the battery and then each earbud in turn |
| CaseStatus.Case.EarbudSwitch | rdp/charger_case_comms_stm32/src/case.c:441-547 | the state machine of one earbud with its sends, reports and follow-up |
| CaseStatus.Case.StatusDue | rdp/charger_case_comms_stm32/src/case.c:263-293 | a status command as code: the new state is that of CaseStatus.StatusTime, of which CaseProgress.StatusBegins says what it begins |
| CaseProgress.StatusBegins | rdp/charger_case_comms_stm32/src/case.c:263-293 | a status command, or the lid that has been opened, without a planned update: a reading in progress goes on, otherwise one of 233 ticks begins; the LED flag is set if asked for; the left earbud wants a status if it was idle, else the right one if it was. Any other event begins nothing |
| CaseProgress.ReadingFinishes | rdp/charger_case_comms_stm32/src/case.c:336-388 | over every run a reading that has begun cannot be restarted before it is done, is done after exactly its number of calls that take turns, with the percentage of the last one, and stays so until a status is called for again |
| CaseProgress.StatusIsReported | rdp/charger_case_comms_stm32/src/case.c:263-546 | from the call for a status on: when 232 calls have taken turns, or those a reading in progress has left but one, the next turn of an earbud that has answered since it was asked makes its report and leaves it idle, if the wire takes it |
| CaseProgress.SequenceGetsThere | rdp/charger_case_comms_stm32/src/case.c:441-547 | over every run a sequence is over exactly after as many helpful turns (it can send, or has what it waits for) as it has stages, four for a reset and two for a status, and one more for each setback |
| CaseProgress.TimeIsCounted | rdp/charger_case_comms_stm32/src/case.c:390-393 | over every run the time that delays a reset is the number of calls since the earbud has entered its state, in 16 bits |
| CaseProgress.LevelIsAsAnswered | rdp/charger_case_comms_stm32/src/case.c:441-547 | over every run the battery level and charging state kept for a report are those of the last status once the earbud has answered since it was asked, and the level is unknown before that |
| CaseProgress.OutcomesAreHeard | rdp/charger_case_comms_stm32/src/ccp.c:240-382 | exactly which inputs latch an acknowledgement, a failed delivery or an abort for an earbud, and which end its transaction |
| CaseProgress.AcknowledgedResetGoesOn | rdp/charger_case_comms_stm32/src/case.c:455-477 | in every reachable state an acknowledged reset enters its delay with the next turn, whatever the other earbud does in between |
| CaseProgress.ChangeIsAnnounced | rdp/charger_case_comms_stm32/src/case.c:395-434 | the lid and charger states that count as reported follow a change once the wire has taken its broadcast; nothing is broadcast without a change |
| CaseStatus.Case.BatteryPeriodic | rdp/charger_case_comms_stm32/src/case.c:336-388 | the battery reading and its delays |
| CaseStatus.Case.PermitDfu | rdp/charger_case_comms_stm32/src/case.c:317-329 | the answer is true exactly when both earbuds are idle, and from then on no sequence starts |
| Handover.HandoverApp.Marshal | earbud/src/earbud_handover.c:403-480 | one call emits the longest part of what is pending that fits, leaves exactly the rest pending, and returns true just when nothing is |
| Handover.HandoverApp.MarshalInterface | earbud/src/earbud_handover.c:440-463 | the inner loop over the types of one interface, resumable at a type |
| Handover.HandoverApp.GetNextInterface | earbud/src/earbud_handover.c:298-321 | the first interface with types behind the current one |
| Handover.HandoverApp.Unmarshal | earbud/src/earbud_handover.c:499-562 | one call appends exactly the whole objects of the buffer, unless the caller's count already covers it; the conditions under which it panics are exact |
| Handover.HandoverApp.InitializeUnmarshalDataList | earbud/src/earbud_handover.c:188-207 | the list is sized by the number of registered types, in an octet |
| Handover.HandoverApp.GetInterfaceForType | earbud/src/earbud_handover.c:215-241 | the first interface that registers a type |
| Handover.InterfaceIsFirst | earbud/src/earbud_handover.c:215-241 | no interface before it registers the type, and there is one if any does |
| Handover.HandoverApp.ClientUnmarshal | earbud/src/earbud_handover.c:333-354 | every object in the list is given once, in order, to the interface of its type |
| Handover.HandoverApp.DeinitializeUnmarshalDataList | earbud/src/earbud_handover.c:159-181 | an entry whose status is that its client keeps the object leaves its address with the kept ones, every other one with the freed ones, once each, and the list is emptied |
| Handover.HandoverApp.Complete | earbud/src/earbud_handover.c:359-384 | the end of a handover delivers, then tells every interface its role, and resets; a delivered object has been kept, once, exactly if the verdict of the interface of its type is not to free it, and every other object has been freed once; it panics exactly if the new primary was not unmarshalling or a client fails |
| Handover.VerdictDecides | earbud/src/earbud_handover.c:159-181 | if every entry of the judged list has gone where its status says, each object has gone where the verdict of its client says |
| Handover.CommitsTell | earbud/src/earbud_handover.c:356-381 | every interface is told once, in order, and all of them the same role |
| Handover.HandoverApp.Abort | earbud/src/earbud_handover.c:568-571 | an abort frees everything undelivered and leaves the cursor where it was |
| Handover.EmissionIsProvided | earbud/src/earbud_handover.c:435-476 | what one-shot marshalling produces is what the callback of every registered type provides, once each, in registration order |
| Handover.ChunksArePrefix | earbud/src/earbud_handover.c:403-480 | for all buffer sizes the chunks are a prefix of the one-shot emission |
| Handover.ChunksComplete | earbud/src/earbud_handover.c:403-480 | and all of it as soon as there is, in order, a buffer for each object that could hold it; the others may have any size |
| Handover.SmallBuffersStall | earbud/src/earbud_handover.c:448-454 | as long as all buffers are too small for the next object nothing is sent |
| Handover.HandoverDelivers | earbud/src/earbud_handover.c:215-241 | the k-th object emitted is the k-th one delivered, to the interface that provided it |
| Handover.Transfer | earbud/src/earbud_handover.c:403-562 | marshal calls on one earbud and unmarshal calls on the other, for any buffer sizes, never panic and leave exactly the chunks in the receiver's list |
| Handover.Handover | earbud/src/earbud_handover.c:359-562 | a whole handover delivers every emitted object once and in order, after that tells each interface on both sides its role once, and frees each object once unless the verdict of its client keeps it; it panics exactly if nothing was emitted or a client rejects its object |
| Handover.FreedExactlyOnce | earbud/src/earbud_handover.c:159-181 | by the conservation that every step keeps, no object is freed twice or both freed and kept, and none is left over when the list is gone; which of the two happens is said by Handover.VerdictDecides |
| Handover.FullEmissionFits | earbud/src/earbud_handover.c:188-207 | a full emission fits the list exactly if fewer than 256 types are registered |
| Handover.ReceiveAfterAbort | earbud/src/earbud_handover.c:304-320 | after marshalling into any number of buffers and an abort, the next unmarshal panics exactly when no typed interface follows that of the object that was to be sent next |
| SmTimers.OffsetIsExact | earbud/src/earbud_sm_handover.c:49-75 | on the wrapping clock the remaining time is exact, rounded down to a millisecond, if and only if less than half a clock period is left |
| SmTimers.AlwaysInv | earbud/src/earbud_sm_handover.c:117-253 | over any run of handovers the secondary has no timer pending and none written down |
| SmTimers.HandoverMovesTimers | earbud/src/earbud_sm_handover.c:117-253 | a completed handover gives the new primary exactly the timers pending at marshalling and leaves the old one none |
| SmTimers.HandoverKeepsDeadlines | earbud/src/earbud_sm_handover.c:49-75 | each timer is due when it was to within a millisecond, or at once if that has passed, across clock wrap |
| SmTimers.HandoverKeepsTimes | earbud/src/earbud_sm_handover.c:49-75 | in terms of the pending time itself: the timer is due less than two milliseconds before it, never after it, or at once if it has passed |
| SmTimers.EarbudSm.HandoverMarshal | earbud/src/earbud_sm_handover.c:117-168 | the structure is cleared and holds the due times of the pending timers; it is offered if there is one |
| SmTimers.EarbudSm.HandoverCommit | earbud/src/earbud_sm_handover.c:213-253 | a new secondary cancels its timers, a new primary starts the written ones, and the structure is cleared |
| GamingMode.AlwaysInv | earbud/src/earbud_gaming_mode.c:116-315 | in every role history the state lock is held exactly while enabling or disabling, which always has a reconfigure message or completion on its way, and a held peer lock has a confirmation on its way |
| GamingMode.DeferredRunSteady | earbud/src/earbud_gaming_mode.c:436-450 | deferred peer toggles and disconnections run only in a steady state |
| GamingMode.AwaitedCanHappen | earbud/src/earbud_gaming_mode.c:196-217 | in a transition something that it waits for can always happen |
| GamingMode.AwaitedAdvances | earbud/src/earbud_gaming_mode.c:147-177 | and brings it closer to a steady state |
| GamingMode.TransitionEnds | earbud/src/earbud_gaming_mode.c:147-263 | without a new peer connection a transition lasts through at most two awaited events |
| GamingMode.TransitionHoldsCourse | earbud/src/earbud_gaming_mode.c:147-315 | a transition ends where it was headed, unless a secondary earbud loses its peer |
| GamingMode.RequestsSetOut | earbud/src/earbud_gaming_mode.c:459-491 | an accepted request sets out for the other mode, or is there at once |
| GamingMode.PrimaryIsExact | earbud/src/earbud_gaming_mode.c:147-369 | on a fixed primary each accepted request starts exactly one reconfiguration or tone, and a running timer guards a blocked reconfigure message; which of the two it is, GamingMode.AudioDecides and GamingMode.AudioCounts say |
| GamingMode.AudioDecides | earbud/src/earbud_gaming_mode.c:147-177 | a reconfigure message, or the timer in its place, handled in a transition: while the audio is streaming Kymera is asked and a completion awaited, and nothing else changes; otherwise the tone is played, the target reached and the lock freed |
| GamingMode.StepBecomes | earbud/src/earbud_gaming_mode.c:147-388 | in every role and reachable state a table over state, role, peer, streaming, mirroring and profile tells the state after an event, whether Kymera is asked, whether the tone is played and whether the peer is told |
| GamingMode.AudioCounts | earbud/src/earbud_gaming_mode.c:147-263 | over every run, in every role history, Kymera has been asked and the tone played exactly as often as events occurred for which the table says so |
| GamingMode.PeerIsFollowed | earbud/src/earbud_gaming_mode.c:371-450 | over every run the messages of the peer are followed in the order in which they came, each once |
| GamingMode.UnguardedExactly | earbud/src/earbud_gaming_mode.c:493-532 | on a fixed primary a reconfigure message is blocked without a timer exactly when a connection has come up after its confirmation; then only a confirmation or the loss of the peer frees it |
| GamingMode.CountChanges | earbud/src/earbud_gaming_mode.c:147-369 | in every role, exactly by how much an event changes the number of accepted requests that have started nothing and have nothing pending |
| GamingMode.CountHoldsExactly | earbud/src/earbud_gaming_mode.c:436-532 | over every run, in every role history, requests and what they start agree throughout exactly when no reconfigure message is handled or dropped outside a transition and no transition that reconfigures is started by the peer or its loss |
| GamingMode.EarbudGamingMode.EnterState | earbud/src/earbud_gaming_mode.c:219-299 | the re-entrant state entry, which terminates |
| GamingMode.EarbudGamingMode.OnCancelWait | earbud/src/earbud_gaming_mode.c:361-369 | the cancel timer frees the lock, drops the blocked message and handles it |
| GamingMode.EarbudGamingMode.PeerDisconnected | earbud/src/earbud_gaming_mode.c:518-532 | a lost peer frees the lock, cancels the timer and disables gaming mode on a secondary |
| GamingMode.EarbudGamingMode.HandleMessage | earbud/src/earbud_gaming_mode.c:390-428 | every message takes the module to the state of GamingMode.Step, of which GamingMode.StepBecomes says what it is |
| RulesLoop.RuleEngine.UpdateRuleStatus | adk/src/common/rules_engine/rules_engine.c:116-156 | the two loops mark the matching rules done and clear exactly those of their events that have no other rule left |
| RulesLoop.RuleEngine.RunRules | adk/src/common/rules_engine/rules_engine.c:174-273 | the loop over the table: a rule that runs or is in progress keeps the later rules of its event from being looked at |
| RulesLoop.RuleEngine.SetEvent | adk/src/common/rules_engine/rules_engine.c:322-328 | an event is set and all rules are looked at |
| RulesLoop.RuleEngine.SetRuleComplete | adk/src/common/rules_engine/rules_engine.c:360-381 | rules in progress that sent a message are done, and all rules are looked at |
| RulesLoop.RuleEngine.ResetEvent | adk/src/common/rules_engine/rules_engine.c:331-351 | events are cleared and their rules start afresh |
| RulesOrder.LoopScans | adk/src/common/rules_engine/rules_engine.c:174-273 | the loop over the table does to each event what a scan of its own rules does: rules of different events do not affect each other |
| RulesOrder.SetEventRefines | adk/src/common/rules_engine/rules_engine.c:322-328 | setting an event sets it and makes every event that is set look at its own rules |
| RulesOrder.CompleteRefines | adk/src/common/rules_engine/rules_engine.c:360-381 | a completed message finishes the rules in progress that sent it, clears an event whose last rule this was, and makes every event that is set look at its own rules |
| RulesOrder.AlwaysAgrees | adk/src/common/rules_engine/rules_engine.c:116-381 | from a fresh engine, over every sequence of calls and for all answers, deferred ones included, each event and the status of each of its rules are as in the rule set |
| RuleTables.EngineHasRuleSets | earbud/src/earbud_primary_rules.c:110-230 | this holds of the common, the primary and the secondary table as they are listed |
| RulePositions.HeedsMoves | adk/src/common/rules_engine/rules_engine.c:174-273 | as long as no rule of an event defers, the number of its rule in progress tells the status of all of its rules, and a call moves it to the next rule that runs |
| RulePositions.StartsExactly | adk/src/common/rules_engine/rules_engine.c:174-273 | whatever the statuses, an event that is set stays set exactly if one of its rules is in progress, runs or is deferred, or all are done |
| RulePositions.CheckedAgain | adk/src/common/rules_engine/rules_engine.c:174-273 | looking at the rules of an event a second time with the same answers changes nothing |
| RulesOrder.CheckIsClean | adk/src/common/rules_engine/rules_engine.c:174-273 | exactly when looking at the rules leaves a cleared event with rules that are not fresh: all are done or ignored, and the last was done before, behind a deferred one |
| EarbudSm.AlwaysInv | earbud/src/earbud_sm.c:721-913 | after every message in every role history the common rules hold the in-case event exactly in those states, the in-ear event at most in those states, and never an event with its opposite; one idle timeout is pending exactly in the idle state out of the case, and sleep is allowed exactly in sleepy states |
| EarbudSm.InEarHeldExactly | earbud/src/earbud_sm.c:1289-1305 | over every run the in-ear event is held exactly when the LEDs go off in the ear, the earbud is there, and the message of its LED rule has not been handled since it came there |
| EarbudSm.IdleTimeoutNeverPanics | earbud/src/earbud_sm.c:1536-1541 | the assertion of the idle timeout can never fail |
| EarbudSm.ShutdownTerminates | earbud/src/earbud_sm.c:916-922 | a shutdown reaches a supported terminating state under the same parent from every reachable state but the factory reset |
| EarbudSm.PanicsExactly | earbud/src/earbud_sm.c:976-1136 | the messages on which the machine panics, and no others |
| EarbudSm.PlaceReachesRules | earbud/src/earbud_sm.c:1022-1099 | after a change of place in a core state the common rules hold the in-case event exactly in the case and the in-ear event exactly in the ear while its LED rule is not complete, and the state says whether the earbud is playing |
| EarbudSm.AudioReachesState | earbud/src/earbud_sm.c:1566-1630 | after a change of the audio in a core state the state is busy exactly if the earbud plays outside the case, its parent is the place, and no idle timeout is pending while it is busy; in another state nothing changes |
| EarbudSm.BusyAsLastReported | earbud/src/earbud_sm.c:283-321 | over every run, in a core state the earbud is busy, in the case and in the ear exactly as at the last report that has set the core state, and no idle timeout is pending while it is busy |
| EarbudSm.StateIsAsTold | earbud/src/earbud_sm.c:976-2180 | over every run a table over message, state and role tells the state, place and role after every message: pairing and its end, entering and leaving the firmware update, factory reset, sleep and its cancellation, shutdown, start-up and all others; fatal messages panic |
| EarbudSm.OwnRulesHear | earbud/src/earbud_sm.c:153-213 | a change of state tells the common rules and those of the current role of the same events and completions in the same order, and tells those of another role nothing |
| RoleRules.ClashExactly | earbud/src/earbud_sm.c:2024-2157 | exactly which messages bring an event and its opposite together in the rules of a role, by what is known before the message: role, place, the event that is still set, and whether a rule of its opposite is in progress, runs or is deferred |
| RoleRules.OppositesExactly | earbud/src/earbud_sm.c:153-213 | over every run, and whatever the rules answer, the rules of a role never hold an event with its opposite exactly as long as no such message comes |
| RoleRules.PairingHolds | earbud/src/earbud_primary_rules.c:280-336 | a fresh out-of-case event of the primary rules stays set exactly if one of its rules runs or the other earbud is pairing |
| RoleRules.DeferredIsTakenUp | adk/src/common/rules_engine/rules_engine.c:174-273 | a rule that is the last one left of its event and has been put off is taken up when another event occurs: it runs, is put off again, or lets the event go |
| RoleRules.HeldExactly | earbud/src/earbud_sm.c:653-713 | over every run the order of places, roles and handled rule messages tells exactly whether the in-case or in-ear event is still set in the rules of a role, and the status of each of its rules |
| RoleRules.RoleChangeConflicts | earbud/src/earbud_sm.c:2105-2151 | before an earbud takes a role: its rules will hold in-case with out-of-case exactly if it is out of the case, an out-of-case rule is in progress, runs or is deferred, and in this role it was put in and not taken out while an in-case rule is not complete, unless it crosses the boundary of the case at once |
| RoleRules.SecondaryRulesConflict | earbud/src/earbud_sm.c:2105-2151 | from every core state out of the case as secondary: put in, primary, the message of the started rule handled, taken out, secondary again leads there |
| RoleRules.SecondaryIsReached | earbud/src/earbud_sm.c:2160-2180 | a run from power-on leads to such a state |
| RoleRules.DfuRuleNeverCompletes | earbud/src/earbud_sm.c:1155-1172 | once its firmware-update rule is in progress the in-case event stays set in the secondary rules until the earbud is taken out in this role or loses it |
| EarbudSm.BitTests | earbud/src/earbud_sm.h:98-180 | the parents and substates of a state are what the bit tests on its number say |
| EarbudSm.TerminatingIsSupported | earbud/src/earbud_sm.c:916-922 | replacing the substate bits of any state by the terminating one gives a supported state |
| EarbudSm.AppSm.EnterState | earbud/src/earbud_sm.c:721-913 | a change of state with all exit and entry actions, the rules they tell and the events these clear; re-entrant in the firmware-update check |
| EarbudSm.AppSm.SetInitialCoreState | earbud/src/earbud_sm.c:323-364 | the first core state with the events of the place, and what the rules make of them |
| EarbudSm.AppSm.ChangeRole | earbud/src/earbud_sm.c:2024-2157 | a change of role with the events for its own rules |
| EarbudSm.AppSm.HandleMessage | earbud/src/earbud_sm.c:2549-2954 | every message that can change the state or the rules takes the machine to that of EarbudSm.Step, of which EarbudSm.StateIsAsTold says what it is |
| Thermistor.MillivoltsToDegreesCelsius | earbud/src/peripherals/thermistor.c:49-94 | for every strictly decreasing table and every hint the result is that of the plain search |
| Thermistor.ScanFinds | earbud/src/peripherals/thermistor.c:59-93 | the search finds the first entry at most the voltage, else the last |
| Thermistor.Antitone | earbud/src/peripherals/thermistor.c:43-48 | a higher voltage never gives a higher temperature |
| Thermistor.InvertsLookup | earbud/src/peripherals/thermistor.c:34-38 | the conversion inverts the lookup on clamped temperatures |
| Thermistor.RoundsUp | earbud/src/peripherals/thermistor.c:43-48 | between two entries the temperature is rounded up |

## Left out

- EdgeRecorder.EarbudChannel.Process: what a write behind the buffer destroys is not modelled, only that it happens; readings are below 0x8000, as a 16-bit signed sample needs.
- Reception.SamplesDecode: assumes that no sample equals the threshold; EdgeRecorder.ParityEverywhere says exactly which lines that touch it keep the parity of their edges.
- Reception.ReceiveMessage: the header is read after the first ten periods, when its low bits have arrived, and its low nibble tells the length of the message, as the protocol has it.
- Exchange.SendAndReceive: one earbud answers and the other side stays below its threshold; when two answer at once, each side is Reception.ReceiveMessage.
- Transmitter.ChargerLink.Tick: what follows a division by zero is not modelled, only that it happens; the 32-bit tick counter does not wrap.
- Wire.SilenceIsGivenUp: a turn on which the message would have to be sent while the line is in use does not count.
- CaseStatus.NoOutcomeLost: holds as long as final replies are earbud-status messages; CaseStatus.OtherReplyLoses says exactly what happens otherwise.
- CaseStatus.Case.OnPeriodic: the broadcast and case-event power run reasons, voltage conversion, LED indication and the contents of the broadcast message.
- Mutual exclusion of the left and right status sequences, which the code does not establish.
- Ccp.Protocol.Rx: message octets; a received message is an earbud status with its fields, or something else.
- Ccp.BusyIsBounded: the acknowledgements of the wire are events of the environment here, at most one for each send; CcpOverWire.FairExactly says when that holds of the wire layer.
- CcpOverWire.BusyEnds: time is counted in turns and ticks that move a transaction on; how long the line is kept busy is an answer at every call.
- Wire.AlwaysGood: message octets and header fields other than the sequence bits and the presence of a payload; whether the line is in use is an answer at every call.
- Handover.HandoverApp.Marshal: the marshalling library appends a whole object or refuses it; writing part of an object into the end of a buffer is not modelled, and the callbacks give the same answers throughout one handover.
- Handover.Transfer: the list of unmarshalled objects is a sequence with a size limit, not an allocated array; the packets of the profile that calls the interface carry only the chunks.
- Handover.Handover: assumes that no type is registered twice, that fewer than 256 are, and that every object takes at least one octet; the veto callbacks and the link policy of the new primary are not modelled.
- SmTimers.HandoverMovesTimers: at most one message pending per timer, roles that change only by handover, and one clock for both earbuds.
- SmTimers.HandoverKeepsDeadlines: at most half a clock period between marshalling and completion.
- GamingMode.PrimaryIsExact: for a fixed primary role; instants of muting are not modelled, and convergence of both earbuds across peer disconnections is not claimed.
- EarbudSm.AlwaysInv: the rule predicates are answers, one for each rule while a message is handled; of events that other parts of the earbud set the model has only that all rules are looked at again; user-interface contexts, disconnection locks, pairing flags and firmware-update timers are not modelled, and internal messages may arrive at any time.
- EarbudSm.BusyAsLastReported: the mode of a device under test, which takes any state to the idle one out of the case, counts as a report of that.
- RoleRules.OppositesExactly: the rule tables are those of a build without account keys and dynamic handover; the answers of the rules do not change while one message is handled.
- RoleRules.DeferredIsTakenUp: for one deferred rule behind which nothing is left; what looking at the rules does to any list of them is RulesEngine.Scan, to which RulesOrder.LoopScans ties the loop.
- RulesLoop.RuleEngine.RunRules: a rule belongs to one event, as all rules of the earbud do; rules that are always evaluated, message parameters and the notice that nothing is in progress are left out.
- Crc32.ImageCrc: reading records from files and the header record of the image; the CRC library is modelled bit by bit from its standard (section 8 of RFC 1952).
- Thermistor: scaling of ADC readings to millivolts.
- Hardware drivers, audio, LED and tone tables, flash layout, serial scripts and boot loader: no algorithm beyond small branches.
