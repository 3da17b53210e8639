# Guardian: a verified model of its modem codes, mail custody, link control and wire formats

Guardian carries mail between radio stations, over RF or through an internet server. This project models
four parts of it and proves what they promise.

**Error correction** (`Trellis`, `Survivors`, `Viterbi`, `Correction`, `Puncturing`, `LdpcGraph`,
`LdpcEncoder`, `MinSum`, `LdpcDecoder`, `Coding`, `Interleaving`, `Framing`, `Mfsk`). Both Viterbi decoders
return a best input path among all paths of that length from state 0. From the linearity of the trellis it
follows that any two coded bits may be wrong, anywhere in a message of any length, and exactly two: three
flips can defeat every message. The punctured code, the accumulate LDPC code, the interleaver and the MFSK
symbol path are proved down to round trips over arbitrary payloads; on soft values the correction radius becomes
a balance of confidences.

**Mail custody** (`CustodyProtocol`, `CustodyService`, `ReceiptSlots`, `ReceiptCoordinator`, `MailboxState`,
`Mailbox`). A transition system over one durable index, volatile state, one server worker, one control thread,
the control transport and a crash step. Custody exclusion, the receipt obligation and the rule that RF announces
no held message hold in every run but for steps that are determined exactly. The mailbox operations are
transactions under arbitrary write failures.

**Transmission and link control** (`TxProtocol`, `ControlTransport`, `CalibrationProtocol`,
`CalibrationSteps`, `CalibrationRuns`, `CalibrationSession`, `CalibrationService`, `Adaptation`,
`MixedPolicies`, `AdaptationController`, `LinkFeedback`). The control transmitter's queue under all
interleavings of its workers, the two-station AutoTune handshake over a lossy in-order channel, and the rate
controller over every sequence of delivery reports a link passes on.

**Parsers and printers** (`BleFraming`, `PngRewrite`, `Bundle`). BLE fragments, the PNG rewrite and the
attachment names of stored bundles.

Code that changes things step by step is a class or a method with loops, proved against a pure function of
the state; what the program promises is proved about those functions, over whole runs where it is about
runs. `Arithmetic` and `Wrappers` hold what several modules share.

## What the proofs found

- Gray coding in the MFSK modem: the header of `guardian/modem/mfsk.py` says that a tone decided as its
  neighbour costs one bit. With the table as it is used, the neighbours 3/4, 7/8 and 11/12 differ in two
  bits (`Mfsk.AdjacentToneCost`). A slipped symbol is still repaired.
- `_ldpc_graph` never ends its inner search for one byte at rates 4/5, 7/8 and 9/10 and for two bytes at
  rate 9/10, where the code has fewer than three checks; it ends for every other block (`LdpcGraph.EndsExactly`,
  `Coding.UnbuildableBlocks`).
- `set_status` changes the index in memory and keeps the change when the save fails
  (`MailboxState.StatusNotRolledBack`); `mark_sent` is written the same way. `queue_remote_text` removes, on
  a failure after minting, an older entry that happened to have the same id (`MailboxState.QueueRemoteRollback`).
- A restart that cannot read its index counts ids from zero and repeats earlier ones
  (`MailboxState.UnreadableIndexRepeats`).
- A relay that the server path declines is announced without a look at its custody. With one radio,
  `accept_relay` answers no when the server is switched off or not preferred, and `_maybe_relay` then opens the
  outbound leg, also of a message that the server holds or that is being uploaded
  (`CustodyProtocol.DeclinedRelayMayClash`). Custody exclusion holds exactly in the runs without such a step
  (`CustodyProtocol.CustodyHoldsExactly`).
- A held record and a live RF session can coincide in three more ways: after the 90 s fallback reconciliation
  reports that the server holds the message after all; an upstream station relays it here once more, to another
  radio, while its session is live; or the worker reports on an upload that a declined relay stands beside.
  There is no other (`CustodyProtocol.OverlapExactly`).
- `pending_receipt` is one slot for each message. A second, different receipt frame for the same message, to
  another upstream station, takes the first one's place on disk, and whichever goes out first clears it for both
  (`ReceiptSlots.ExposedExactly`).
- A message's receipt survives crashes only until it is handed to the control transport. `flush_receipts` then forgets it
  on disk although the transport may have stopped or still wait for the channel; then a crash, a stop or a dropped
  frame before the radio is keyed loses it, and nothing else does (`CustodyProtocol.ReceiptLostExactly`,
  `CustodyProtocol.CrashBeforeAiring`).
- A second deferred frame equal to one already held loses its completion callback when the queue is resumed,
  and an object held twice loses its first one; no other held frame does (`TxProtocol.HeldCallbackLostExactly`).
- TURN and DONE can go out more than three times. The worker sets the pending flag before it sets the counter
  back, and the timer compares with the time of a frame long past, so a tick in between sends a frame that is
  not counted (`CalibrationSession.FourTurns`, `CalibrationRuns.FourthTurnExactly`). Four is the limit unless
  the worker stalls for a whole retry interval, seven if it does (`CalibrationRuns.FramesBounded`,
  `CalibrationSession.SevenTurns`).
- In the AutoTune handshake the answer that a complete callee keeps ready for a repeated TURN is never called
  for over an in-order channel, unless the caller's timer overtook its worker (`CalibrationRuns.FramesBounded`).
- The rate controller's class would let a loss raise the density if one controller were given to both policies
  (`MixedPolicies.LossClimbs`; `Adaptation.LossNotDenserExactly` is the exact condition). No link does that:
  `LinkFeedback.LossNeverClimbs` covers every run of every link.
- An initial code outside the family the controller adapts in leaves it without a place on its ladder
  (`Adaptation.InitValid`).

## Model

| member | source | states |
|---|---|---|
| Trellis.EncodedAt | guardian/modem/fec.py:41-49 | At every step the two coded bits are the sums of the inputs tapped by 171 and 133 over the last seven: the register arithmetic is a fixed linear filter |
| Trellis.ConvEncode | guardian/modem/fec.py:41-49 | The encoding loop yields the flushed message filtered, two bits per input and six flush steps |
| Trellis.Linear | guardian/modem/fec.py:28-38 | The code is linear: outputs of two inputs differ exactly where the output of their difference is set |
| Trellis.DivergenceWeight | guardian/modem/fec.py:17-49 | Any two inputs that part at a step differ in at least five coded bits over the next seven steps |
| Survivors.Take | guardian/modem/fec.py:78-85 | An improving edge keeps the tables of a step justified and dominating: every stored metric is the cost of a stored edge, and no relaxed edge is cheaper |
| Survivors.LowerBound | guardian/modem/fec.py:71-86 | No admissible path of any length costs less than the metric of the state it ends in |
| Survivors.TracebackOptimal | guardian/modem/fec.py:88-94 | The survivor traced from the best end state costs its stored metric and is optimal among all paths of that length |
| Viterbi.Traceback | guardian/modem/fec.py:88-93 | The back pointers, followed and reversed, are that survivor |
| Viterbi.ViterbiDecodeSoft | guardian/modem/fec.py:52-94 | For every stream of confidences the decoded input, with its flush, has the greatest correlation of all inputs of that length from state 0; the flush is dropped |
| Viterbi.ViterbiDecode | guardian/modem/fec.py:97-133 | For every received stream no input of that length with fewer than 2^30 errors is nearer, in Hamming distance, than the decoded one; the flush is dropped |
| Correction.FreeDistance | guardian/modem/fec.py:17-49 | Different inputs of equal length that part before the last seven steps encode to words at distance five or more |
| Correction.GuaranteedCorrection | guardian/modem/fec.py:97-133 | A nearest path to a code word with at most two wrong bits starts with exactly the message, for every message and every pair of positions |
| Correction.SendWithTwoErrors | guardian/modem/fec.py:41-133 | Encoding, flipping any two coded bits and decoding returns the message |
| Correction.ThreeErrorsDefeat | guardian/modem/fec.py:97-133 | For every nonempty message there are three flips after which no nearest path carries it: the radius is exactly two |
| Correction.ErasuresRepaired | guardian/modem/fec.py:52-94 | If no confidence has the wrong sign and every step keeps one output, the best path is the one sent, whatever the magnitudes |
| Correction.UniformSoftIsHard | guardian/modem/fec.py:52-94 | With one confidence throughout, a best-correlated path is a nearest one |
| Correction.SoftCorrection | guardian/modem/fec.py:52-94 | Among unequal confidences, wrong signs that weigh less than the right ones the free distance leaves do not change the message: two of them while confidences stay within a factor below 3/2, one within a factor below 4 |
| Puncturing.Depuncture | guardian/ofdm/coding.py:291-305 | Restoring fails exactly on a wrong length, and puncturing a restored stream gives the stream back |
| Puncturing.PuncturedBitsExact | guardian/ofdm/coding.py:252-261 | The length both ends compute from periods and tail is the number of kept positions |
| Puncturing.EveryStepTransmitted | guardian/ofdm/coding.py:50-63 | Each of the five masks sends at least one output of every trellis step |
| Puncturing.EncodeConv | guardian/ofdm/coding.py:308-311 | The punctured encoding is the flushed message's code word thinned by the mask |
| Puncturing.DecodeConv | guardian/ofdm/coding.py:314-320 | For all five rates and every message, any confidences of the right sign decode to the message; a wrong length is an error |
| LdpcGraph.FreeCheck | guardian/ofdm/coding.py:157-160 | With at most two checks taken, and fewer than there are, the search ends at the first free one |
| LdpcGraph.SearchMeetsFree | guardian/ofdm/coding.py:152-161 | In as many lanes as there are checks, up to three, every search meets a free check |
| LdpcGraph.SearchStuck | guardian/ofdm/coding.py:152-161 | With one or two checks, a variable that went through as many lanes holds each check once, and no step of its next search meets a free one |
| LdpcGraph.EndsExactly | guardian/ofdm/coding.py:130-161 | The construction ends if and only if there are no information bits or at least three checks, for any lane permutations |
| LdpcGraph.ConstructionValid | guardian/ofdm/coding.py:130-179 | Every information bit has three distinct checks, data and check lists agree, parity is dual-diagonal, for any lane permutations |
| LdpcGraph.DegreeAtLeastTwo | guardian/ofdm/coding.py:162-165 | Every check of a graph with information bits has degree two or more |
| LdpcGraph.BuildGraph | guardian/ofdm/coding.py:130-179 | The construction loops end and build that graph, for three or more checks |
| LdpcEncoder.CheckSumSplits | guardian/ofdm/coding.py:182-195 | A check sum is the data syndrome plus two neighbouring parity bits |
| LdpcEncoder.CodewordUnique | guardian/ofdm/coding.py:182-195 | Two code words with the same data are equal |
| LdpcEncoder.Encode | guardian/ofdm/coding.py:182-195 | For every data word the result is systematic with zero syndrome |
| MinSum.OutgoingIsLeastOfOthers | guardian/ofdm/coding.py:220-232 | The minimum, its count and the second minimum give each edge the least magnitude of the others |
| MinSum.SatisfiedCheckConfirms | guardian/ofdm/coding.py:233-238 | A check satisfied by the signs of its messages answers each edge with that edge's own sign |
| LdpcDecoder.FirstRoundKeepsSigns | guardian/ofdm/coding.py:209-244 | If the signs are those of a code word, no posterior of the first round changes sign, whatever the magnitudes |
| LdpcDecoder.Decode | guardian/ofdm/coding.py:198-249 | An early return happens exactly on a code word and yields its data; right signs decode to the right data; a wrong length is an error |
| Coding.ParityCount | guardian/ofdm/coding.py:109-113 | The parity count is the least that meets the rate, and never none |
| Coding.UnbuildableBlocks | guardian/ofdm/coding.py:109-161 | The construction never ends for exactly four short blocks: one byte at rates 4/5, 7/8 and 9/10, two bytes at 9/10 |
| Coding.EncodedLength | guardian/ofdm/coding.py:264-269 | Every encoding has the length both ends compute from the byte count |
| Coding.EncodingUnique | guardian/ofdm/coding.py:308-311 | The encoding of a message under a profile is determined |
| Coding.EncodeBits | guardian/ofdm/coding.py:308-311 | For all twelve profiles the transmitted bits are the encoding |
| Coding.DecodeSoft | guardian/ofdm/coding.py:314-320 | For all twelve profiles, right signs of an encoding decode to the message |
| Interleaving.Bezout | guardian/ofdm/interleaving.py:57-61 | The greatest common divisor is an integer combination, which is what coprimality is used for |
| Interleaving.StrideFor | guardian/ofdm/interleaving.py:46-61 | From any start the search ends with a stride coprime to the length, before the fallback, for every length above two |
| Interleaving.Injective | guardian/ofdm/interleaving.py:64-67 | A coprime stride sends different positions to different ones |
| Interleaving.Surjective | guardian/ofdm/interleaving.py:64-67 | It reaches every position |
| Interleaving.Interleave | guardian/ofdm/interleaving.py:70-75 | The output array has each value at its destination and nothing else |
| Interleaving.InterleavingUnique | guardian/ofdm/interleaving.py:70-75 | No transmitted position is left over: a block has one interleaving |
| Interleaving.RoundTrip | guardian/ofdm/interleaving.py:70-81 | Deinterleaving undoes interleaving |
| Interleaving.ResidueClasses | guardian/ofdm/interleaving.py:19-26 | For every divisor of the length, transmitted positions are congruent exactly when their sources are |
| Interleaving.DamageSpread | guardian/ofdm/interleaving.py:19-33 | Two coded bits damaged by one carrier are at least the symbol length apart |
| Framing.BytesRoundTrip | guardian/modem/afsk.py:41-52 | Packing the bits of any bytes gives the bytes back |
| Framing.ExtractFrames | guardian/modem/afsk.py:55-73 | The search loop finds the frames of the recursive definition, in order and without overlap |
| Framing.FrameRoundTrip | guardian/modem/afsk.py:55-73 | A framed payload is the first frame found in its own bits, for every sync error limit |
| Mfsk.ToneCarriesBits | guardian/modem/mfsk.py:52-57 | Every four bits survive the symbol and tone tables |
| Mfsk.AdjacentToneCost | guardian/modem/mfsk.py:3-5 | Neighbouring tones differ in one bit, except 3/4, 7/8 and 11/12, which differ in two |
| Mfsk.TonesCarryBits | guardian/modem/mfsk.py:103-115 | The bits of the tones are the coded bits with their padding |
| Mfsk.OneSymbolWrong | guardian/modem/mfsk.py:103-115 | Changing one tone changes only that symbol's bits |
| Mfsk.DataTones | guardian/modem/mfsk.py:103-118 | The transmit side refuses payloads over 255 bytes and otherwise sends the tones of the framed code word |
| Mfsk.OneHotDecided | guardian/modem/mfsk.py:249-261 | One-hot energies, each symbol with an amplitude of its own, give every bit its symbol's confidence with the right sign |
| Mfsk.LoudBalanced | guardian/modem/mfsk.py:253-260 | Amplitudes above twice the constant of the normalisation tolerate two wrong bits, however unequal they are |
| Mfsk.UnharmedBalanced | guardian/modem/mfsk.py:253-260 | With no wrong bit any positive amplitudes do |
| Mfsk.DecodeBounded | guardian/modem/mfsk.py:301-313 | A window too short yields nothing; a window that carries a frame whose wrong signs are outweighed yields the payload, whatever the confidences |
| Mfsk.SlipBalanced | guardian/modem/mfsk.py:52-57 | A slip to an adjacent tone damages at most two bits, which loud symbols of any energies tolerate |
| Mfsk.SlippedFrameCarried | guardian/modem/mfsk.py:249-261 | A frame of one-hot symbols of unequal energies, one of them read as another tone, carries its payload while the damaged bits are outweighed |
| Mfsk.SlippedRoundTrip | guardian/modem/mfsk.py:103-313 | Payload to tones to energies and back returns the payload, whatever surrounds the frame and however its symbols' energies differ, even with one data symbol read as another tone |
| CustodyProtocol.RunExclusive | guardian/ardos_cz/service.py:155-246 | In every run, crashes included, at most one server task is active and the preparing set is the upload plus the compressions |
| CustodyProtocol.CustodyExclusion | guardian/ardos_cz/service.py:155-246 | In every run a message with an upload in flight is not being prepared for RF, and is in a session of this station only after a declined relay of it during the upload |
| CustodyProtocol.ClashExactly | guardian/session/orchestrator.py:838-885 | A step puts a session beside an upload in flight if and only if it is a declined relay of that message that opens its outbound leg |
| CustodyProtocol.CustodyHoldsExactly | guardian/session/orchestrator.py:838-885 | Throughout a run no session is opened for a held or delivered message and none stands beside an upload, if and only if no step is a leg-opening declined relay of a message that is held, delivered or in flight |
| CustodyProtocol.AnnouncesOnlyFree | guardian/operations.py:3702-3733 | A step that opens a session does so for a message neither held nor delivered at that moment, except exactly the declined relay of one that is |
| CustodyProtocol.AcceptedReleasedByServerOnly | guardian/ardos_cz/service.py:248-293 | Only an answer of the server takes a message out of `accepted`; no timeout, error or crash does |
| CustodyProtocol.ReceiptObligation | guardian/ardos_cz/service.py:143-153 | In every run each bridged delivered message has its receipt durably due, durably queued, in the control transport or aired, unless a step of that run lost it |
| CustodyProtocol.ReceiptLostExactly | guardian/multi_radio.py:170-176 | A step loses a receipt if and only if its durable traces are gone, nothing was keyed, and the station crashes, the transport stops or drops its last frame, or the frame is handed to a stopped transport |
| CustodyProtocol.CrashBeforeAiring | guardian/multi_radio.py:174-176 | From every state with a queued receipt, handing it over and crashing leaves nothing of it on disk or in the queue |
| CustodyProtocol.DeletedOnlyAfterReceipt | guardian/operations.py:957-967 | Such a message leaves the mailbox only when its receipt was aired, is in the transport, or was lost by a step of the run |
| CustodyProtocol.OverlapExactly | guardian/session/orchestrator.py:838-885 | A step makes a held record and a live session coincide if and only if it is a reconciliation answer, the renewed relaying to another radio, the worker's report on an upload beside the session, or the declined relay of a held message |
| CustodyProtocol.HeldWhileLive | guardian/ardos_cz/service.py:118-293 | In every run a message is held while its session is live only after one of these steps |
| CustodyProtocol.FallbackMayOverlapAcceptance | guardian/ardos_cz/service.py:286-293 | A run in which an RF session is live for a message the server has accepted |
| CustodyProtocol.RelayMayOverlapSession | guardian/ardos_cz/service.py:118-141 | A run of two steps, on two radios, without timeout or poll, in which a live session's message is put back to checking |
| CustodyProtocol.DeclinedRelayMayClash | guardian/operations.py:470-477 | A run of three steps on one radio after which RF announces a message beside its own upload |
| CustodyService.Station.Restart | guardian/multi_radio.py:43-56 | A restart keeps the durable records, empties the volatile state and reloads pending receipts |
| CustodyService.Station.Send | guardian/ardos_cz/service.py:155-246 | The offer to the server is its protocol step; `None` changes nothing, and `True` means held or in flight |
| CustodyService.Station.AnnouncePrepared | guardian/operations.py:3702-3733 | The session is opened under the custody recheck |
| CustodyService.Station.SendQueued | guardian/operations.py:3734-3926 | RF submission is its protocol step, in all its refusals |
| CustodyService.Station.Done | guardian/ardos_cz/service.py:232-240 | The completion callback releases the preparation and falls back to RF only when nothing is held; a fallback mark that cannot be written ends it there |
| CustodyService.Station.PublishReceipt | guardian/ardos_cz/service.py:143-153 | A delivery reply raises the receipt obligation in the same durable write |
| CustodyService.Station.Reconcile | guardian/ardos_cz/service.py:248-265 | A handoff answer is its protocol step, a failed write included |
| CustodyService.Station.TickTimeouts | guardian/ardos_cz/service.py:286-293 | The loop over the mailbox is a run of timeout steps; the first record that cannot be written ends it, and the records left are as they were |
| CustodyService.Station.AcceptRelay | guardian/ardos_cz/service.py:118-141 | It declines exactly when the protocol says so, changing nothing, and otherwise takes the message as its protocol step, whichever write fails |
| CustodyService.Station.RelayHandoff | guardian/operations.py:470-477 | The server path is asked first, then the coordinator of several radios; on one radio a declined relay is nobody's |
| CustodyService.Station.MaybeRelay | guardian/session/orchestrator.py:838-885 | Passing a relayed message on is its protocol step; a leg is opened exactly when nobody took the message, its hops are not used up and there is somewhere to ask |
| CustodyService.Station.QueueRfReceipts | guardian/ardos_cz/service.py:337-360 | The loop is a run in which each receipt is durable before its obligation is cleared; a write that fails, whichever of the three it is, ends it in a state of the protocol |
| CustodyService.Station.FlushReceipts | guardian/multi_radio.py:170-176 | The loop is a run of hand-overs, each forgotten on disk after it; the first record that cannot be written ends it |
| CustodyService.Station.DeleteMail | guardian/operations.py:930-1000 | Deletion is its protocol step, refused while work or a receipt is pending |
| ReceiptSlots.ExposedExactly | guardian/multi_radio.py:158-176 | A waiting receipt frame loses its place on disk if and only if a different frame for the same message is made durable over it, or is handed over and clears the slot they share |
| ReceiptSlots.WaitingIsDurable | guardian/multi_radio.py:43-56 | In every run, restarts and failed writes included, each waiting frame is durable unless a step displaced it so, and none waits twice |
| ReceiptCoordinator.RadioCoordinator.TransmitReceipt | guardian/multi_radio.py:158-168 | Filing a frame, slot first, is its protocol step |
| ReceiptCoordinator.RadioCoordinator.FlushReceipts | guardian/multi_radio.py:170-176 | The loop over a copy of the queue is a run of hand-overs that leaves exactly the frames of radios that cannot transmit; a slot that cannot be written ends it |
| MailboxState.AddIsTransaction | guardian/message/store.py:116-146 | Adding either returns with memory equal to disk, or raises with index, disk and counter as before |
| MailboxState.PathIsTransaction | guardian/message/store.py:280-294 | A path update either returns with memory equal to disk, the merged value in place and no other entry moved, or raises and changes nothing |
| MailboxState.ImportIsTransaction | guardian/message/store.py:306-339 | A server import either returns with memory equal to disk or raises with index, disk and counter as before |
| MailboxState.ImportIsDurable | guardian/message/store.py:306-339 | A successful import has bundle and entry on disk with the content the server named |
| MailboxState.DeleteIsTransaction | guardian/message/store.py:341-365 | A deletion returns true with exactly that entry gone from memory, disk and files, and otherwise leaves index and disk as they were |
| MailboxState.StatusNotRolledBack | guardian/message/store.py:258-270 | A failed save leaves the index as it was if and only if nothing was changed |
| MailboxState.QueueRemoteRollback | guardian/message/store.py:156-176 | A failed request leaves the index as it was if and only if the token was known, the mint failed or the id was new |
| MailboxState.TokensStayUnique | guardian/message/store.py:156-176 | In every run with failures and restarts each token maps to at most one message |
| MailboxState.RetryIsIdempotent | guardian/message/store.py:156-176 | A retry after any operations that keep the message gets the same id; other content under the token is refused |
| MailboxState.SameId | guardian/message/store.py:103-114 | Ids are equal exactly when prefixes are and counters agree modulo 2^20 |
| MailboxState.MintedIdsDiffer | guardian/message/store.py:103-114 | Two ids minted fewer than 2^20 attempts apart differ, across `clear` and every restart that can read the index |
| MailboxState.UnreadableIndexRepeats | guardian/message/store.py:28-50 | After a restart that cannot read the index, the ids minted repeat the earlier one exactly where prefix and counter agree, at once for a station that had minted one |
| Mailbox.MessageStore.QueueRemoteText | guardian/message/store.py:156-176 | The scan for the token, the mint, the add and the rollback amount to the token transaction |
| Mailbox.MessageStore.Add | guardian/message/store.py:116-146 | Writing the bundle, replacing the entry, saving and rolling back amount to the add transaction, for every pattern of write failures |
| Mailbox.MessageStore.ImportServer | guardian/message/store.py:306-339 | Checking, storing, saving and rolling back amount to the import transaction, conflicting identities refused |
| Mailbox.MessageStore.PollDelivery | guardian/ardos_cz/service.py:266-280 | The server is acknowledged only after bundle and index are durable |
| Mailbox.MessageStore.Delete | guardian/message/store.py:341-365 | Removing file and entry, saving and putting the entry back amount to the delete transaction |
| TxProtocol.RunSound | guardian/modem/audio.py:910-1137 | In every interleaving the books, the transmitter lock and the Morse order agree |
| TxProtocol.PendingCountExact | guardian/modem/audio.py:1003-1058 | The pending count is the size of the token map; cancelled tokens are pending ones |
| TxProtocol.OneTransmitter | guardian/modem/audio.py:1139-1228 | At most one worker is between acquiring and releasing the channel |
| TxProtocol.MorseAfterEarlierFrames | guardian/modem/audio.py:1059-1107 | A Morse identifier is keyed only when every earlier admitted frame has finished |
| TxProtocol.CancelledNeverKeyed | guardian/modem/audio.py:1193-1223 | A token cancelled before its PTT check is never keyed afterwards |
| TxProtocol.SuspendedStaysQuiet | guardian/modem/audio.py:936-961 | After a drained suspension nothing is pending or keyed until resume or start |
| TxProtocol.CallbacksFireOnce | guardian/modem/audio.py:950-1058 | While held frames are pairwise unequal each callback fires at most once, and once nothing is left it has fired |
| TxProtocol.HeldCallbackLostExactly | guardian/modem/audio.py:1008-1023 | In every accounted state that holds frames, resuming after a new offer loses a callback if and only if its object has one already or an equal frame waits under another object |
| TxProtocol.EqualFrameLosesCallback | guardian/modem/audio.py:950-961 | In the second case nobody carries the new callback after the resume and it has not fired; a stop that comes first does fire it |
| ControlTransport.AudioControl.SendFrame | guardian/modem/audio.py:1003-1034 | Refusing, holding or admitting a frame is its protocol step |
| ControlTransport.AudioControl.SendMorseAfterPending | guardian/modem/audio.py:1059-1087 | Queueing a Morse identifier is its protocol step |
| ControlTransport.AudioControl.ResumeQueued | guardian/modem/audio.py:950-961 | The resume loop is the take step followed by one submit step per held item |
| ControlTransport.AudioControl.StopTransport | guardian/modem/audio.py:910-923 | Stopping cancels what is pending, drops what is held and fires each callback registered for it |
| ControlTransport.AudioControl.DiscardDeferredMessage | guardian/modem/audio.py:963-998 | Withdrawing a message's requests is its protocol step, held and pending ones alike |
| ControlTransport.AudioControl.ControlPtt | guardian/modem/audio.py:1215-1223 | The radio is keyed only if not stopped and not cancelled |
| ControlTransport.AudioControl.FinishWorker | guardian/modem/audio.py:1048-1057 | The final section of a worker is its protocol step |
| CalibrationRuns.CompleteAfterBothSweeps | guardian/operations.py:2042-2083 | In every run of two stations over a lossy in-order channel, either counts the session complete only after both sweeps were sent to the end and both reports received from a peer that sent one |
| CalibrationRuns.OneSweepEach | guardian/operations.py:1982-1992 | No station sends more than one sweep in a session, however offers and probes are repeated |
| CalibrationRuns.FramesBounded | guardian/operations.py:1776-1830 | OFFER goes out at most three times; so do TURN and DONE while no retry falls into the worker's announcement, at most four times with one such retry, at most seven whatever happens; a prompt caller's TURN is never answered by a complete callee |
| CalibrationRuns.FourthTurnExactly | guardian/operations.py:2685-2717 | Once the caller's run is over, some continuation brings a fourth TURN if and only if there was one already, or a TURN went out between the flag and the reset and the timer has retries left |
| CalibrationRuns.FourthDoneExactly | guardian/operations.py:2685-2717 | The same for the callee's DONE |
| CalibrationSession.FourTurns | guardian/operations.py:1780-1785 | A session of any two resting stations in which four TURNs are sent |
| CalibrationSession.SevenTurns | guardian/operations.py:1780-1785 | One in which seven are, the worker stalling before and after the reset |
| CalibrationSteps.DoKept | guardian/operations.py:2579-2717 | Every step of the UI thread and the workers keeps the counters, the sweep and the pending flags consistent |
| CalibrationSteps.HearKept | guardian/operations.py:1919-2104 | Every frame heard keeps them too; a turn starts a run only in a station that has begun none |
| CalibrationRuns.NextInv | guardian/operations.py:1919-2191 | Every event of either station or of the channel keeps what ties the two together: turns heard were sent, completion follows an announced end, reports and probes have a sender |
| CalibrationSession.UndisturbedCompletes | guardian/operations.py:1698-3057 | With nothing lost, two willing stations of one version do complete on both sides |
| CalibrationService.CalibrationStation.StartCalibration | guardian/operations.py:1736-1761 | Calling a peer is its protocol step |
| CalibrationService.CalibrationStation.TickCalibration | guardian/operations.py:1776-1830 | The retry timer is its protocol step |
| CalibrationService.CalibrationStation.OnFrame | guardian/operations.py:1919-2104 | Handling a frame is its protocol step, for every frame and state |
| CalibrationService.CalibrationStation.OnOffer | guardian/operations.py:2106-2191 | Handling an offer is its protocol step, repeated and refused ones included |
| CalibrationService.CalibrationStation.WaitOver | guardian/operations.py:2611-2683 | The end of a report wait hands over, asks again or gives up, as its protocol step says |
| CalibrationService.CalibrationStation.SetPending | guardian/operations.py:2685-2689 | Setting the state and the pending flag is the first step of the announcement |
| CalibrationService.CalibrationStation.ResetAttempts | guardian/operations.py:2690-2694 | Setting the counter back is the second |
| CalibrationService.CalibrationStation.SignalDirection | guardian/operations.py:2697-2713 | Sending the frame is the third |
| CalibrationService.CalibrationStation.CountAttempt | guardian/operations.py:2705-2717 | Counting it is the last |
| CalibrationService.CalibrationStation.RunFinished | guardian/operations.py:3018-3057 | The completion callback is its protocol step |
| CalibrationService.CalibrationStation.ReceptionFinished | guardian/operations.py:2970-3016 | The report of a reception is sent and cached as its protocol step says |
| Adaptation.InitValid | guardian/ofdm/adaptation.py:129-144 | The constructor leaves every choice on its ladder if and only if a given initial code belongs to the adaptive family |
| Adaptation.RunOnLadders | guardian/ofdm/adaptation.py:189-612 | After every sequence of reports to either policy, moves of the modulation along the ladder and message starts, the modulation, code and burst are on their ladders and a baseline exists exactly while a probe-from field is set |
| Adaptation.CapacityValid | guardian/ofdm/adaptation.py:189-489 | One capacity report keeps every lookup successful and the baseline sound |
| Adaptation.IncrementalValid | guardian/ofdm/adaptation.py:491-612 | One incremental report keeps every lookup successful and the baseline sound |
| Adaptation.CapacityRun | guardian/ofdm/adaptation.py:225-333 | In every run of capacity reports a lost one never leaves a denser profile, and a trial remembers exactly what it changed |
| Adaptation.LossNotDenserExactly | guardian/ofdm/adaptation.py:225-333 | No loss report makes a valid controller denser if and only if a trial's baseline is not denser than what is sent |
| Adaptation.IncrementalLossNotDenser | guardian/ofdm/adaptation.py:529-588 | A loss in the incremental policy never raises the density |
| LinkFeedback.McsFeedbackValid | guardian/ofdm/link.py:340-404 | The link's own modulation feedback moves along the ladder only, and never up on a loss |
| LinkFeedback.LinkOnLadders | guardian/ofdm/link.py:406-430 | Every run of a link, whichever policy its configuration picks and message starts included, keeps all choices on their ladders; the incremental policy never has a trial |
| LinkFeedback.LossNeverClimbs | guardian/ofdm/link.py:406-430 | In every run of every link a lost report never leaves a denser profile than the one that lost |
| LinkFeedback.TargetRung | guardian/ofdm/link.py:371-404 | A clean report never lowers the modulation, and raises it one rung at most unless the link may jump |
| LinkFeedback.OfdmLink.ReportMcsFeedback | guardian/ofdm/link.py:340-404 | The method is the feedback step |
| LinkFeedback.OfdmLink.ReportDeliveryFeedback | guardian/ofdm/link.py:406-430 | The dispatch hands the report to the policy its configuration picks, and the state is that step's |
| LinkFeedback.OfdmLink.BeginMessage | guardian/ofdm/link.py:792-800 | The warm start of an acquiring link |
| MixedPolicies.LossClimbs | guardian/ofdm/adaptation.py:289-333 | A run of the controller class, which no link makes, that gives reports to both policies and after which a loss raises the density |
| Adaptation.CleanClimbsFromDelivered | guardian/ofdm/adaptation.py:335-489 | A clean report keeps the delivered profile or starts a denser, bounded trial whose baseline is the delivered profile |
| Adaptation.LostTrialReturns | guardian/ofdm/adaptation.py:289-333 | A lost trial returns to its baseline, burst included, and is remembered with the baseline's quality |
| Adaptation.FailedTrialWaits | guardian/ofdm/adaptation.py:474-482 | A remembered failure bars the same constellation with as weak a code until the quality is clearly better |
| Adaptation.McsClimbs | guardian/ofdm/adaptation.py:415-440 | Every constellation candidate lies on the ladders and is denser than the delivered profile |
| Adaptation.FecClimbs | guardian/ofdm/adaptation.py:441-457 | Every code candidate, the forced 4/5 included, lies on the ladders and is denser than the delivered profile |
| Adaptation.ProductionAscends | guardian/ofdm/link.py:447-465 | Every prefix of the production ladder is free of repeats and ascends in density |
| Adaptation.RetryNeverWeaker | guardian/ofdm/adaptation.py:165-187 | Retries keep or strengthen the code; a modern code's third attempt is the mother code |
| AdaptationController.LinkAdaptationController.constructor | guardian/ofdm/adaptation.py:129-144 | The constructor sets the initial choices of the policy |
| AdaptationController.LinkAdaptationController.ReportBurst | guardian/ofdm/adaptation.py:491-612 | The method is the incremental step |
| AdaptationController.LinkAdaptationController.ReportCapacityBurst | guardian/ofdm/adaptation.py:189-489 | The method is the capacity step |
| AdaptationController.LinkAdaptationController.CollectTargets | guardian/ofdm/adaptation.py:415-432 | The loop collects the admitted rungs from the top, then the blind one |
| AdaptationController.LinkAdaptationController.CollectMcs | guardian/ofdm/adaptation.py:433-440 | The nested loops collect every denser pairing in the order they are tried |
| AdaptationController.LinkAdaptationController.FirstAllowed | guardian/ofdm/adaptation.py:458-482 | The loop picks the first candidate that pays for its turn and is not spoiled |
| BleFraming.Fragments | guardian/guard_mesh_rpc.py:34-38 | The generator yields the numbered fragments, each of 5 to 20 bytes |
| BleFraming.Assembler.Take | guardian/guard_mesh_rpc.py:48-75 | The method is the feeding step, state changes before an error included |
| BleFraming.RoundTrip | guardian/guard_mesh_rpc.py:34-75 | The fragments of any run of messages of 1 to 32768 bytes yield exactly those messages, each at its last fragment |
| BleFraming.AcceptedIsUnbroken | guardian/guard_mesh_rpc.py:48-75 | Whatever any stream makes the assembler accept is the concatenation of one index-ordered run from a start fragment, one id, inside the window, and the index never wraps |
| PngRewrite.ParsePrinted | guardian/message/aggressive.py:155-196 | Printed chunks parse back, with their lengths and checksums |
| PngRewrite.PrintParsed | guardian/message/aggressive.py:171-196 | Parsed chunks print back to the bytes they were read from |
| PngRewrite.RewriteSound | guardian/message/aggressive.py:164-226 | The output is never longer, parses again, keeps the other chunks in order and the scanlines, and a second rewrite changes nothing |
| PngRewrite.OptimizePng | guardian/message/aggressive.py:164-226 | The parsing and writing loops compute that rewrite, with each of its errors |
| Bundle.SafeNames | guardian/message/mail.py:73-84 | The reduction always yields a bare name, leaves exactly the bare names alone and is idempotent |
| Bundle.UniqueName | guardian/message/mail.py:87-99 | The search ends with the first free candidate and records it |
| Bundle.NumberedDiffer | guardian/message/mail.py:87-99 | Candidates with different numbers differ, which is why the search ends |
| Bundle.StoredNamesSound | guardian/message/mail.py:142-147 | Stored names are bare, hence fixed points of the reduction, and pairwise distinct, whatever the attachments are called |
| Bundle.RoundTrip | guardian/message/mail.py:142-281 | Opening a bundle gives every field back and every attachment's data in order |
| Bundle.SecondBundleSame | guardian/message/mail.py:142-281 | A message that went through a bundle once is bundled the same way again |

## Left out

- Correction.GuaranteedCorrection: about nearest paths with a free end state, as the decoder leaves it; it does not use that the true frame ends in state 0.
- Viterbi.ViterbiDecodeSoft: confidences are reals, so the rounding of the source's doubles is not modelled; the same holds for the min-sum decoder and the tone energies.
- LdpcGraph.ConstructionValid: the three lane permutations are parameters; the pseudo-random generator that draws them, and the flat edge arrays, are not modelled (checks keep their own edge lists).
- LdpcDecoder.Decode: at least one information bit, so that every check has a second edge; the empty block, whose only check has one, is answered in `Coding.DecodeLdpc`.
- Interleaving.StrideFor: the golden-ratio start is a parameter between 2 and the length less one.
- Mfsk.DecodeBounded: starts at tone energies; preamble search, offset fit, and the unbounded first pass that proposes frame positions are signal processing.
- `iterative_decode_candidates` and `combine_harq_soft` of `guardian/ofdm/coding.py`: they would add only easy members.
- The rest of `guardian/modem/afsk.py`: demodulation and candidate selection are signal processing.
- CustodyProtocol.CustodyExclusion: sessions are the outbound ones; receptions enter only by their result, a stored or relayed message, and the session orchestrator's own states are not part of this model. `send_message` is taken to open a non-terminal session.
- CustodyProtocol.ReceiptObligation: receipts are counted per message id; what different frames for one id do to each other is the subject of `ReceiptSlots`, which stops at the hand-over. Aired means past the PTT check, and the transport inside is the one of `TxProtocol`, of which only taking, keying and dropping a frame show here.
- Route discovery, radio selection and the choice of egress: their answers are parameters of the RF step.
- MailboxState.ImportIsDurable: bundles are identified by content hash; JSON and ZIP corruption and the `mark_read` and `store_incoming` paths are left out.
- TxProtocol.OneTransmitter: keyed means past the PTT check under the lock; sound devices, PTT hardware and waveforms are foreign calls that may fail.
- CalibrationRuns.FramesBounded: handlers of the UI thread are single steps, as are a worker's stretches between two blocking calls; the announcement of a direction alone is taken statement by statement.
- CalibrationRuns.OneSweepEach: one session in Quick mode between two stations whose workers are idle when it is called; a worker still running from an earlier session, and Full mode, are not modelled. Times are replaced by a flag that the retry interval has passed.
- Adaptation.RunOnLadders: the success, retry and goodput averages are left out because no decision reads them. Modulation indices are those of the SC table, and the exponential in the admission test is a parameter.
- LinkFeedback.LossNeverClimbs: one link at a time uses a controller, so the link's copies of its modulation and clean streak are not kept apart from the controller's; train length, retries and the burst itself are not modelled.
- Adaptation.ProductionAscends: the ladder of ceilings outside 17 to 19 is sorted by threshold at run time and enters the theorems as any ascending ladder.
- BleFraming.AcceptedIsUnbroken: JSON decoding of an accepted message is left to its caller; the caller drops the connection after any error, which the theorem does not need.
- PngRewrite.RewriteSound: checksum, decompressor and compressor are parameters, of which only that nothing decompresses from nothing is assumed; Zopfli's iteration count is inside the compressor.
- Bundle.RoundTrip: an archive is the sequence of its members and UTF-8 and JSON are exact; a NUL in an attachment name, at which the ZIP library cuts member names short, is outside the model. The compressed and aggressive envelopes are left out.
- Sound devices, serial and CAT control, HTTPS, enrolment, update checks, the LAB tools, translations and the user interface: I/O and presentation.
