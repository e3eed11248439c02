# Pouch: a verified model

Pouch carries messages between a device and the cloud. On the device, whole messages (entries) are
packed into shared blocks and long ones (streams) are cut over blocks of their own; finished blocks are
queued, sealed by the crypto layer, put behind a header and pulled by a transport in pieces of any size.
On the other side arbitrary fragments are put back together into a header and length-prefixed blocks,
which two work queues open and hand to callbacks. This project models both directions and proves that
they fit together.

The model has two layers.

* **Values.** Each component is a set of functions over bytes and states, and the theorems are about
  those: round trips, refinement to a simple parser, conservation over every run, integrity of the
  block chain. `Uplink`, `Device`, `Pipeline`, `Replay` and `Dispatch` are state machines whose steps
  are one API call or one handler run each.
* **Heap.** Where the C code updates static state and buffers in place, a class does the same on a
  `PouchBuf` (an array and a byte count), and every method is proved equal to a step of the value
  layer: `UplinkDevice.PouchDevice` (src/uplink.c, src/entry.c, src/stream.c, src/block.c, src/buf.c),
  `DownlinkDevice.PouchDownlink` (src/downlink.c), `DownlinkEntry` (the decoding loops of src/entry.c),
  `SaeadDevice` (src/saead/), `Packetizer.GattPacketizer` and `Dispatch.Dispatcher`. The device also
  carries a ledger that gives every live buffer exactly one owner.

What the code does not decide by itself is a parameter: whether an allocation or a mutex succeeds
(`Luck`, `budget`, flags), random ids, derived keys, and the order in which calls and handlers run. The
payload size is a parameter `p` (`PayloadSize`). A cipher is a pair of functions (`Cipher`); the
plaintext build and the AEAD build are two of them.

## Main results

1. `EndToEnd.Loopback`: for every interleaving of entry writes, stream calls, handler runs and fills in
   one session, every fragmentation that keeps up with the blocks, and every schedule of the receiver's
   handlers that leaves nothing waiting, the callbacks assemble to exactly the accepted messages of each
   id. `LoopbackPlain` and `LoopbackSealed` are its two builds, `LoopbackSessions` is about any number of
   sessions. `Application.WholeWay` puts the GATT packets around it, with the run's own fill calls as the
   packetizer's callback, and the dispatcher inside: each service is given exactly the messages of its paths.
2. `Reassembly.Reassembles`: the reassembler refines a simple parser, for any fragmentation.
   `Completeness.WholeIff`, `SettledIff` and `FittingIff`: exactly when it hands out everything, a
   condition on the lengths of the blocks and of the fragments alone (`Pacing.KeepsUp`).
   `Pipeline.AllDelivered`: after any pushes and handler runs, any schedule of the handlers ends with
   everything delivered.
3. `Saead.AcceptedArePrefix`: whatever is offered, what is accepted is a prefix of what was sealed.
   `Saead.ChainRoundTrip`: what was sealed opens, and the two ends stay level. `Sealed.PouchSpelled` and
   `Sealed.NextOpensIff` write out what a sealed block is and which offer is accepted, with lengths,
   nonces and associated data in literal bytes. `Replay.AcceptedFromBoot`: exactly which sessions the
   device lets in, over every run.
4. `Uplink.RunKeeps`: conservation over all sessions of all runs, alternating events, no lost wake-up.
   `Device.RunKeeps`: the same for the streams and entries of all sessions, with finishes between them.
   `UplinkEnds.NextSessionSendsAll`: however a session ended, the next one sends all that was left waiting.
5. `UplinkDevice.PouchDevice.Run`: in every run of calls from power-up each live buffer has one owner
   that points to it, the counters are exact (`Ownership.LiveCount`), and the session, the open entry
   block, every open stream and every reply to the packetizer are those of the value machine.
   `DeviceView.RunLooks` says that this machine is `Device` without its history, so
   `DeviceLoopback.CallsDeliver` is the loopback for the device on the heap.
6. `Stream.StreamSegmentation`, `Entry.WritePacks` and `Packing.PacksTight` (entries are packed next fit),
   `Packetizer.PacketsRoundTrip`, `Derivation.InfoReads`, `Dispatch.PickedIff` and `DeliveredToOwner`.

Round trips alone would not notice a format that both sides get wrong in the same way, so the formats are
also stated in literal bytes (`Vectors`, `Sealed`) or read back by a decoder of its own (`Derivation`).

## Where the code falls short of what one would expect

Each of these is a theorem, with the exact condition where there is one.

* A path of 256 bytes or more is accepted by `pouch_uplink_entry_write` when it fits the block, but its
  length is stored in one byte, and the receiver is told something else (`Entry.EntriesRoundTrip`,
  `Entry.LongPathExample`); the same for streams (`Stream.StreamRoundTripIff`).
* The loop of `pouch_downlink_push` hands out at most one block each time round, and
  `pouch_downlink_finish` hands out none: a fragment that completes two blocks leaves the second one in
  the buffer (`Reassembly.SecondBlockWaits`). A run of pushes hands out the whole stream if and only if
  at the start, and after every piece the loop writes, the blocks not yet complete are no more than the
  pieces still to come (`Completeness.WholeIff`; `Completeness.OneBlockPerTurn` for one push). Fragments
  no longer than the shortest block always do (`Completeness.ShortKeepsUp`).
* The block index goes into the nonce cut to 16 bits, so the nonces of one pouch are pairwise distinct
  exactly up to 65536 blocks (`Saead.NoncesDistinctIff`).
* Starting a downlink session clears its flags. Until a block of it decrypts, a sequence number that
  was used before is accepted again (`Replay.OldNumberAcceptedIff`, `Replay.SameNumberTwice`), and the
  pouch id check never refuses anything (`Replay.PouchCheckNeverRefuses`).
* The device gives its own sessions random ids only, so a downlink that claims to reuse the uplink
  session is always refused (`SaeadDevice.SaeadDownlink.SessionStart`). A failed key derivation goes
  unnoticed in src/saead/uplink.c:45, which looks at an earlier error.
* Device ids may be 32 bytes long (include/pouch/pouch.h:34), but the header buffer of src/header.c:33
  has no room for the inner array head: the header fits exactly for shorter ids (`PouchHeader.HeaderFitsIff`).
* `pouch_uplink_finish` frees what the transport has not pulled, accepted blocks included
  (`UplinkEnds.FinishLosesBlock`). Whatever is called later, it has lost nothing of its session if and only
  if nothing was left to pull (`UplinkEnds.FinishLosesNothingIff`). The receiver still gets the blocks that are whole in what was pulled,
  as far as the fragments keep up with them (`EndToEnd.CutSession`). Open streams are cut off: their last
  block is never sent, their message has no end, and their handle is dead (`Device.FinishKeeps`,
  `Stream.BodyDelivers`).
* A close before the session starts makes the handler run close the pouch at once: the session that follows
  sends nothing, whatever is queued, and its first fill says NO_MORE_DATA (`UplinkEnds.ClosedBeforeStart`,
  `ClosedEnds`, `ClosedSendsNothing`). After NO_MORE_DATA nothing is left waiting if and only if the
  handler run that closed the pouch was inside the session, or had nothing to take, and nothing was
  enqueued after it (`UplinkEnds.NothingWaitsIff`).
* A close that does not get the lock of the entry block closes the pouch all the same, and the entries in
  that block wait for a later one; closing again changes nothing (`Device.CloseWithoutLock`).
* A start that finds a header still pending, which `pouch_uplink_finish` would have freed, loses that
  buffer (`UplinkDevice.PouchDevice.StartUplink`; a run that gets there is `UplinkEnds.HeaderOverwritten`).
* A handler run that cannot open its block does not schedule itself again, even with blocks waiting
  (`Pipeline.DecryptKeeps`; a run is `Pipeline.LeftWaiting`). When every block opens, no wake-up is lost
  (`Pipeline.RunLive`).
* A service that a new stream matches while it is receiving another one loses the rest of the first
  (`Dispatch.StreamKeptIff`; a transcript is `Dispatch.BusyServiceTaken`).
* A service path without a wildcard is also started for every longer path that begins with it
  (`Dispatch.PlainMatchIff`, `Dispatch.LongerPathTaken`): a service gets its own path if and only if none
  before it in the table matches it (`Dispatch.OwnPathIff`).

## Model

| member | source | states |
|---|---|---|
| EndToEnd.Loopback | src/uplink.c:176-216 | any run of one session, any fragmentation that keeps up and any handler schedule: the receiver's callbacks assemble to exactly the accepted messages of every id |
| EndToEnd.LoopbackPlain | src/crypto_none.c:51-68 | the same for the plaintext cipher and the concrete plaintext header |
| EndToEnd.LoopbackSealed | src/saead/session.c:201-325 | the same for the AEAD chain, with the receiver as the device's mirror: same key, same pouch, any tag left from before |
| Application.WholeWay | src/transport/ble_gatt/uplink_characteristic.c:25-46 | with the run's fill calls as the packetizer's callback, any room in every packet, any schedule of the handlers, and the dispatcher behind the callbacks: each service is given exactly the messages of its paths, whole and in order on every id, if no start reaches a service that is receiving |
| Application.ServicesReceive | golioth_sdk/dispatch.c:18-92 | when the callbacks assemble to the accepted messages, each message goes to the first service matching its path, and to no other |
| Application.PacketsCarryFills | src/transport/ble_gatt/uplink_characteristic.c:25-46 | in a run of one session, the payloads of the packets made by its fill calls are exactly the bytes pulled from the session, FIRST only on the first packet and LAST only on the last |
| Application.PacketsCarry | lib/pouch_ble_gatt_common/packetizer.c:124-191 | the payloads of the packets are what the packetizer's callback replied |
| Application.StartsAreFresh | golioth_sdk/dispatch.c:18-53 | when the callbacks assemble to messages and no start reaches a busy service, the id of every start is held by no service |
| Pulls.RunPulls | src/uplink.c:176-216 | over any run the fills gave exactly what was pulled from the sessions, and all fills of a session that goes on said MORE_DATA |
| Pulls.FillsArePulled | src/transport/ble_gatt/uplink_characteristic.c:25-46 | in a run of one session up to NO_MORE_DATA, the replies to the packetizer are the bytes of the session, none longer than asked for, all MORE_DATA but the last |
| EndToEnd.CompleteLogDelivers | src/entry.c:155-177 | the blocks a device enqueued, with nothing left open, decode to each id's messages, once, whole and in order |
| EndToEnd.SessionReassembles | src/downlink.c:139-227 | the bytes of a session come out as its sealed blocks if and only if the fragments keep up; those open to the blocks that were enqueued |
| EndToEnd.ShortKeepsUp | src/downlink.c:139-227 | fragments no longer than the session's shortest block keep up |
| EndToEnd.LoopbackSessions | src/uplink.c:134-249 | any run of any number of sessions, each pulled to its end: what is delivered in one session after the other assembles to exactly the accepted messages of every id, also when a block waited for a later session |
| EndToEnd.CutSession | src/uplink.c:223-249 | of a session that was finished early the receiver gets a prefix of its blocks: no more than are whole in the bytes pulled, all of these if and only if the fragments keep up with them, and all of the session's only if everything was pulled |
| Device.StepKeeps | src/stream.c:55-155 | every entry, stream, close, work, start, fill and finish call keeps: each open stream is where its accepted bytes put it on its id, ids of open streams differ, entries are packed in order, all blocks fit the wire |
| Device.RunKeeps | src/stream.c:55-155 | the same for every run in which no open stream has the id of a stream being opened |
| Device.FinishKeeps | src/uplink.c:223-249 | a finish frees what can still be pulled and keeps the blocks not yet processed and the open entry block; of each open stream no more than the full blocks it had sent is ever enqueued, and its handle is dead |
| Device.OpensIff | src/stream.c:55-85 | a stream is opened if and only if fewer than 126 are open, those of earlier sessions included, and both allocations succeed; an id is used up as soon as the first of them has |
| Device.CloseWithoutLock | src/uplink.c:106-118 | a close that does not get the lock closes the pouch, leaves the open entry block, and makes later closes do nothing |
| Device.StaleIgnored | src/stream.c:94-97 | writing to a stream of a finished session does nothing |
| Device.StaleClosed | src/stream.c:141-154 | closing it sends nothing |
| Device.WholeWithoutFinish | src/uplink.c:223-249 | only a finish cuts streams off |
| Decoder.DemultiplexBlocks | src/entry.c:155-177 | filtering the callbacks by id is decoding the filtered blocks |
| Reassembly.Reassembles | src/downlink.c:139-227 | for a valid header and valid blocks and any fragmentation: header, emitted blocks and buffer are exactly the bytes pushed, emitted blocks are a prefix of those sent, the buffer is never full |
| Reassembly.AllHonest | src/downlink.c:185-225 | whatever bytes are pushed, every block that is handed out has an honest size field and fits the buffers |
| Reassembly.FrontComesOut | src/downlink.c:185-225 | a whole block at the front of the buffer is handed out in one turn, an empty one as soon as a byte follows it |
| Reassembly.OversizeStops | src/downlink.c:189-195 | after a size field above the limit nothing that is pushed comes out any more |
| Reassembly.NoHeaderStops | src/downlink.c:153-157 | a full buffer without a header takes nothing more |
| Reassembly.ReassemblesAll | src/downlink.c:139-227 | with no fragment longer than the shortest block every complete block is out, and a whole stream comes out whole |
| Completeness.OneBlockPerTurn | src/downlink.c:185-226 | a push that fits the free space, in any state and with the header in it or not, leaves no complete block behind if and only if the block after the next one still lacks a byte |
| Completeness.PushEmits | src/downlink.c:139-227 | how many blocks are out after one push of any size, from any state of the stream |
| Completeness.RunEmits | src/downlink.c:139-227 | the same for any run of pushes: m blocks are out if and only if there are turns enough and after every piece no more of them are incomplete than pieces are to come |
| Completeness.FittingIff | src/downlink.c:139-227 | from any state, with fragments that fit the free space: the whole stream is out if and only if the fragments keep up, by their lengths |
| Completeness.WholeIff | src/downlink.c:139-229 | from the start of a downlink, for any fragments: the whole stream is out if and only if they keep up, a condition on lengths alone |
| Completeness.SettledIff | src/downlink.c:139-229 | and of any part of it every complete block is out if and only if they keep up with those |
| Completeness.ShortKeepsUp | src/downlink.c:139-227 | fragments no longer than the shortest block keep up |
| Completeness.WritesByLength | src/downlink.c:139-227 | the pieces in which the loop writes a fragment, and how many blocks are out after them, follow from the lengths of header, blocks and fragment |
| Completeness.AllWritesByLength | src/downlink.c:139-227 | the same for any run of pushes |
| Pacing.FittingPieces | src/downlink.c:139-160 | fragments that fit the free space are the pieces |
| Reassembly.SecondBlockWaits | src/downlink.c:185-229 | a fragment with the header and two smallest blocks leaves the second one buffered |
| Reassembly.CutTracks | src/downlink.c:185-225 | at a block boundary of a sound stream the cut takes the next sent block if it is complete, and nothing else |
| Pipeline.RunKeeps | src/downlink.c:52-91 | for every interleaving of submissions and handler runs: delivered then waiting is what the decrypted part opens to, and that part followed by the decrypt queue is what was submitted |
| Pipeline.DecryptKeeps | src/downlink.c:70-85 | one decryption moves one block along; it is rescheduled exactly if it succeeded and more blocks wait |
| Pipeline.HandlerProgress | src/downlink.c:52-85 | when blocks open, every scheduled handler run lowers 2 times the decrypt queue plus the consume queue by one, and each handler stays scheduled exactly while its queue has blocks |
| Pipeline.RunLive | src/downlink.c:52-91 | in every run of pushes and handlers in which the blocks open, each handler is scheduled exactly while its queue has blocks: no wake-up is lost |
| Pipeline.Quiesces | src/downlink.c:52-85 | from such a state every schedule is finite, and when nothing is scheduled everything submitted was delivered in order |
| Pipeline.AllDelivered | src/downlink.c:52-91 | from power-up, after any pushes and handler runs: every schedule of the handlers is finite, nothing is scheduled exactly after so many runs as there were steps to do, and then everything pushed has been delivered in order |
| Pipeline.LeftWaiting | src/downlink.c:70-85 | a run in which a block that does not open leaves the next one waiting with no handler scheduled |
| PouchHeader.HeaderSelfDelimits | src/header.cddl:1-15 | the decoder finds the end of the header whatever follows, and fails on every proper prefix |
| PouchHeader.HeaderFitsIff | src/header.c:31-63 | the header fits its buffer exactly for ids shorter than the permitted 32 bytes |
| Cipher.SealedOpens | src/crypto_none.c:60-68 | for a lawful cipher nothing is dropped, every sealed block fits the wire, and opening in order gives the blocks and the state back |
| Cipher.PlainLawful | src/crypto_none.c:60-68 | the plaintext build is a lawful cipher |
| Sealed.PouchSpelled | src/saead/session.c:191-262 | the sealed blocks of a pouch in literal terms: block k is its length, then the AEAD under the nonce of pouch id, k, the sender and seven zeros, with no associated data for the first block and the last sixteen bytes of wire block k - 1 for every other |
| Sealed.OpenIs | src/saead/session.c:264-325 | an offer is accepted if and only if its length is honest and it decrypts at the place after the accepted ones with the tag of the last of them; a refused one changes nothing |
| Sealed.NextOpensIff | src/saead/session.c:264-325 | the same after any offers since the start of the pouch |
| Saead.StartLevels | src/saead/session.c:178-189 | two ends stand level after starting the same pouch exactly if they have the same key: the tag left from before is not used |
| Saead.SealOpens | src/saead/session.c:201-325 | a receiver level with the sender gets the block back, both ends are in the same state after it, and the sealed block meets the receiver's length checks |
| Saead.ChainRoundTrip | src/saead/session.c:201-325 | any blocks sealed and opened in order between level ends come back, and after every block key, pouch, index and tag are equal |
| Saead.LevelMirrors | src/saead/session.c:264-325 | level ends open whatever is offered in the same way |
| Saead.ChainLawful | src/saead/session.c:201-325 | with a correct AEAD the chain is a lawful cipher |
| Saead.NonceInjective | src/saead/session.c:191-199 | two nonces are equal exactly if pouch id, index modulo 65536 and sender are |
| Saead.NoncesDistinctIff | src/saead/session.c:191-259 | the nonces of the blocks sealed in a pouch are pairwise distinct if and only if there are at most 65536 |
| Saead.DirectionsApart | src/saead/session.c:211-273 | the device's and the server's nonces never coincide, so one key may serve both directions |
| Saead.AcceptedIsNext | src/saead/session.c:264-325 | with an ideal log, a receiver in step with the sender accepts nothing but the sender's next block, and stays in step |
| Saead.AcceptedArePrefix | src/saead/session.c:264-325 | offered any blocks in any order with repeats, what is accepted in a pouch of at most 65536 blocks is a prefix of what was sealed for it |
| Saead.NextIsAccepted | src/saead/session.c:264-325 | and the sender's next block is accepted |
| Saead.OpenCons | src/saead/session.c:278-316 | a refused block leaves the chain as it was |
| SaeadDevice.Session.constructor | src/saead/session.h:56-68 | a new session has no key, is not active and has no pouch |
| SaeadDevice.Session.NonceGenerate | src/saead/session.c:191-199 | the array filled in place is the nonce of the chain state |
| SaeadDevice.Session.PouchStart | src/saead/session.c:178-189 | an active session starts a pouch at index 0, another one is left alone |
| SaeadDevice.Session.EncryptBlock | src/saead/session.c:201-262 | the new buffer and the new chain state are those of the sealing step; without a key or without memory nothing changes |
| SaeadDevice.Session.DecryptBlock | src/saead/session.c:264-325 | the new buffer and the new chain state are those of the opening step, only a success marks the session valid, and without a key or memory nothing changes |
| SaeadDevice.Session.End | src/saead/session.c:33-42 | an active session gives up its key |
| SaeadDevice.SaeadUplink.SessionStart | src/saead/uplink.c:21-57 | the session gets a random device id and whatever key was derived, or ends up inactive |
| SaeadDevice.SaeadUplink.PouchStart | src/saead/uplink.c:59-62 | the pouch id counts up, cut to 16 bits, and the chain restarts |
| SaeadDevice.SaeadUplink.EncryptBlock | src/saead/uplink.c:106-120 | the block is sealed as Device in an active session, and only there |
| SaeadDevice.SaeadDownlink.IsValidDownlink | src/saead/downlink.c:40-67 | the checks on an incoming session, without changing anything |
| SaeadDevice.SaeadDownlink.SessionStart | src/saead/downlink.c:69-130 | the step of the replay machine; the key is the uplink's or the derived one; a claim to reuse an uplink session with a random id is refused |
| SaeadDevice.SaeadDownlink.PouchStart | src/saead/downlink.c:137-146 | the step of the replay machine, and the chain restarts at the pouch id |
| SaeadDevice.SaeadDownlink.DownlinkStart | src/crypto_saead.c:40-91 | session start, then pouch start, and the chain stands at index 0 of that pouch |
| SaeadDevice.SaeadDownlink.BlockDecrypt | src/saead/downlink.c:148-169 | the block is opened as Server; exactly a block that opens moves the replay record |
| SaeadDevice.SaeadDownlink.SessionEnd | src/saead/downlink.c:132-135 | the session is inactive and its key is gone, the replay record stays |
| Replay.NumbersIncrease | src/saead/downlink.c:40-169 | whatever sessions come between, the accepted server sequence numbers strictly increase if each accepted session decrypted a block before the next start |
| Replay.NumbersIncreaseFromBoot | src/saead/downlink.c:40-169 | the same from power-up |
| Replay.AcceptedFromBoot | src/saead/downlink.c:40-169 | in every run from power-up the accepted sessions are exactly those to be let in: with a key, the server's own or a matching numbered one of the device, and, once the last session has decrypted a block, with its algorithm if the id is the same and with a larger number if numbered by the server |
| Replay.AcceptedAreLetIn | src/saead/downlink.c:40-169 | the same from any state |
| Replay.NewNumberAcceptedIff | src/saead/downlink.c:55-64 | after a session numbered n has decrypted a block, number m is accepted if and only if m is larger than n, and a random id always |
| Replay.RefusedWith | src/saead/downlink.c:74-119 | a start that would be let in but has no key fails with EIO, any other one with EBADMSG |
| Replay.PouchRefusedIff | src/saead/downlink.c:137-146 | within a session a pouch is refused if and only if its id is not above that of the last pouch that decrypted |
| Replay.PouchNeedsSession | src/saead/session.c:178-189 | without an active session a pouch start fails with EBUSY |
| Replay.RefusedChangesNothing | src/saead/downlink.c:76-119 | a refused session start changes nothing |
| Replay.OldNumberAcceptedIff | src/saead/downlink.c:40-67 | a number not above the record is accepted again if and only if the current session has decrypted nothing |
| Replay.SameNumberTwice | src/saead/downlink.c:121-127 | a run in which the same number is accepted twice |
| Replay.PouchCheckNeverRefuses | src/saead/downlink.c:137-146 | a downlink start is refused only by its session part, never by the pouch id |
| Derivation.Base64Reads | src/saead/session.c:74-92 | a decoder of its own gives the bytes back |
| Derivation.InfoReads | src/saead/session.c:94-100 | every character of the info string: the fixed ones, the letters for initiator, algorithm and kind of id, the id in base64 and the block size in hexadecimal |
| KeyInfo.Base64Injective | src/saead/session.c:74-92 | base64 of equally long strings is injective |
| KeyInfo.InfoLength | src/saead/session.c:24-27 | the info string always has 36 characters, one less than its buffer |
| KeyInfo.InfoInjective | src/saead/session.c:94-100 | different initiator, id bytes, algorithm, id type or size give different info strings |
| Uplink.StepKeeps | src/uplink.c:68-249 | every call and handler run keeps conservation, the wire prefix, the alternation of events and the wake-ups |
| Uplink.RunKeeps | src/uplink.c:68-249 | over every run: all blocks ever enqueued are, in order, the segments of the sessions and then the processing queue; each session pulled a prefix of header once then its blocks |
| Uplink.FillTakes | src/uplink.c:186-205 | for any request size the loop takes that many bytes off the flattened queue and stops short only when it is drained |
| Uplink.FillDelivers | src/uplink.c:176-216 | a fill gives the next bytes of the session; NO_MORE_DATA only when the pouch is closed and everything was pulled, and always when a closed one is asked for more than is left |
| Uplink.LastFillIff | src/uplink.c:207-215 | when no empty buffer is queued, NO_MORE_DATA comes if and only if the pouch is closed and the call reaches its last byte |
| Uplink.RunSolid | src/uplink.c:68-85 | with a lawful cipher and headers that are not empty, no run queues an empty buffer |
| Uplink.EndedStays | src/uplink.c:93-98 | after the end nothing more is ever added to a session |
| UplinkEnds.FinishReopens | src/uplink.c:223-249 | a finish puts everything back to where it was at power-up, except the session counter, the blocks not processed and their handler, and what was emitted |
| UplinkEnds.NextSessionTakesAll | src/uplink.c:68-174 | from any reachable state, after a finish, a start and a handler run the session is active, open and has taken every block that was waiting |
| UplinkEnds.NextSessionSendsAll | src/uplink.c:68-249 | and when it is then closed, a large enough fill gives the header and all those blocks, with NO_MORE_DATA |
| UplinkEnds.StartsIff | src/uplink.c:134-174 | a start succeeds if and only if there is no session, the crypto layer is set up and the header was created; it changes nothing else |
| UplinkEnds.FillErrorIff | src/uplink.c:176-216 | a fill is an error if and only if there is no session, and then does nothing; the session goes on exactly with MORE_DATA |
| UplinkEnds.WorkRests | src/uplink.c:68-91 | the handler does not schedule itself |
| UplinkEnds.FinishLosesNothingIff | src/uplink.c:223-249 | whatever is called after a finish, its session has all of its bytes pulled in the end if and only if the finish found nothing left to pull |
| UplinkEnds.EarlierSessionsStay | src/uplink.c:134-249 | no later call adds a block or a byte to a session that is over |
| UplinkEnds.FinishLosesBlock | src/uplink.c:223-235 | a run in which an accepted block is freed in the transport queue without a byte of it sent |
| UplinkEnds.ClosingRun | src/uplink.c:68-91 | the handler run that closes the pouch takes all blocks along inside a session, and none outside |
| UplinkEnds.ClosedWaits | src/uplink.c:68-118 | until the finish, what is enqueued in a closed pouch waits, in order |
| UplinkEnds.NothingWaitsIff | src/uplink.c:68-118 | at the end of a closed pouch nothing waits if and only if nothing was enqueued after the closing handler run, which was in the session or had nothing to take |
| UplinkEnds.ClosedSendsNothing | src/uplink.c:68-91 | a session started with the pouch closed moves no block and gives no byte, whatever is called before the next start or finish |
| UplinkEnds.ClosedEnds | src/uplink.c:207-215 | its first fill says NO_MORE_DATA, with everything still waiting |
| UplinkEnds.ClosedBeforeStart | src/uplink.c:106-118 | a run from power-up that gets there with a block waiting |
| UplinkEnds.HeaderOverwritten | src/uplink.c:134-174 | a run in which a second start overwrites the pending header of a session that sent nothing |
| Uplink.ProcessAll | src/uplink.c:68-85 | the processing loop in one formula: everything is sealed in order behind a header that is sent once and only with data |
| Stream.StreamSegmentation | src/stream.c:55-155 | any writes, cut short or not: the closed stream's blocks are the canonical segmentation of header and accepted bytes, and a stream without bytes sends nothing |
| Stream.WriteHolds | src/stream.c:87-132 | one write sends the next blocks of the stream and keeps the rest in the open block; it stops short only when an allocation fails |
| Stream.WriteCount | src/stream.c:87-132 | a write takes what fits the open block and one payload for each block that can be allocated, and no less |
| Stream.SegmentBlock | src/block.c:93-131 | FIRST on the first block only, LAST on the last only, all others full, every size field honest |
| Stream.SegmentCount | src/stream.c:100-127 | the number of blocks is the length divided by the payload size, rounded up |
| Stream.SegmentDelivers | src/entry.c:119-153 | the receiver assembles exactly the message, ended once and at the end |
| Stream.BodyDelivers | src/entry.c:119-153 | of a stream that was cut off the receiver gets the path and the data of its full blocks, and no end |
| Stream.StreamRoundTripIff | src/stream.c:34-41 | a stream's message arrives as it was if and only if its path is shorter than 256 bytes |
| Stream.DrawsInTurn | src/stream.c:43-53 | stream number k gets id 1 + (k mod 31), and the counter moves on |
| Stream.IdsEqualIff | src/stream.c:43-53 | ids are never 0, and equal exactly for streams a multiple of 31 apart |
| Vectors.BigEndian | src/block.c:55-65 | sixteen-bit fields are big-endian |
| Vectors.IdBits | src/block.c:36-53 | LAST is 0x80, FIRST 0x40, the id the low five bits |
| Vectors.BlockBytes | src/block.c:109-121 | a finished block in literal bytes |
| Vectors.EntryBytes | src/entry.c:179-194 | an entry in literal bytes, and what it decodes to |
| Vectors.StreamBytes | src/stream.c:34-41 | the first block of a stream in literal bytes |
| Vectors.StreamReads | src/entry.c:119-153 | what a literal first stream block decodes to |
| Vectors.LastReads | src/entry.c:119-153 | and a last one |
| Vectors.EntryBlockReads | src/entry.c:155-177 | a block with id 0 holds entries |
| Vectors.CStringIs | src/entry.c:108-112 | the path a handler sees is everything before the first NUL |
| Vectors.HeaderBytes | src/header.cddl:1-15 | the plaintext header in literal bytes, for a short and a long id |
| Vectors.PacketBytes | lib/pouch_ble_gatt_common/packetizer.c:15-16 | FIRST is bit 0 of the flags byte, LAST bit 1 |
| Block.FinishCompletes | src/block.c:109-131 | the rewritten header gives the block the receiver expects |
| Block.MkBlockDecodes | src/block.c:36-53 | the header fields read back are those written |
| Entry.WritePacks | src/entry.c:196-253 | whatever the lock and the allocator do, the sent blocks and the open block carry exactly the accepted entries, in order |
| Packing.SharesBlock | src/entry.c:179-233 | an entry that fits the open block goes there: nothing is allocated and nothing is sent |
| Packing.SendsIff | src/entry.c:233-249 | a write sends the open block if and only if it gets the lock and the entry does not fit that block |
| Packing.OpenAfter | src/entry.c:196-253 | the open block after a write, for every outcome of the lock and the allocations |
| Packing.RunSendsDue | src/entry.c:196-272 | over any writes and closes, with any outcomes, a block goes out exactly when an entry does not fit it or at a close |
| Packing.PacksTight | src/entry.c:196-253 | with nothing failing entries are packed next fit: every block but the first begins with the entry that did not fit the one before |
| Packing.CloseIs | src/entry.c:255-272 | a close sends the open block if it gets the lock, and does nothing otherwise |
| Entry.ClosePacks | src/entry.c:255-272 | closing sends the open block and loses nothing |
| Packing.AcceptedIff | src/entry.c:179-253 | a write is accepted if and only if there is data, the lock is had, the entry fits a payload, and its block is open with room for it or can be allocated; no data is EINVAL, no lock EAGAIN |
| Entry.EntriesRoundTrip | src/entry.c:86-117 | decoding gives the entries back if and only if every path is shorter than 256 bytes |
| Entry.LongPathExample | src/entry.c:189-192 | a 300-byte path is accepted and does not come back |
| Entry.EntriesDeliver | src/entry.c:86-117 | the callbacks for the sent blocks assemble to exactly the accepted entries |
| Packetizer.PacketsRoundTrip | lib/pouch_ble_gatt_common/packetizer.c:86-191 | for any sizes of at least 2 the payloads concatenate to a prefix of the source, to all of it at the end; FIRST only on the first packet, LAST only on the last |
| Packetizer.PacketCount | lib/pouch_ble_gatt_common/packetizer.c:86-155 | with packets of size m there are max(1, ceil(L / (m - 1))) of them |
| Packetizer.CallbackRoundTrip | lib/pouch_ble_gatt_common/packetizer.c:124-150 | in callback mode, with any room and any reply in each call, the payloads concatenate to what the callback gave up to its end or a failure; FIRST only on the first packet, LAST only on the one that ends it |
| Packetizer.ResultIs | lib/pouch_ble_gatt_common/packetizer.c:86-155 | the result of every call, its error code, the length of the packet and the first-packet mark |
| Packetizer.GattPacketizer.StartBuffer | lib/pouch_ble_gatt_common/packetizer.c:51-66 | a packetizer at the front of its source |
| Packetizer.GattPacketizer.StartCallback | lib/pouch_ble_gatt_common/packetizer.c:68-84 | a packetizer that asks its callback |
| Packetizer.GattPacketizer.GetPacket | lib/pouch_ble_gatt_common/packetizer.c:86-155 | the packet written in place, the result and the new state are those of one step |
| Dispatch.PickIsSearch | golioth_sdk/dispatch.c:61-75 | looking through the cache picks the service that the search picks |
| Dispatch.StartKeeps | golioth_sdk/dispatch.c:18-53 | a start with an id nobody holds keeps: no two services hold one id, the cache never points to an idle one |
| Dispatch.DataKeeps | golioth_sdk/dispatch.c:55-92 | so does data, including the last |
| Dispatch.MatchesIff | golioth_sdk/dispatch.c:23-31 | a service with a '*' at its end matches the paths that begin with what is before it, any other its own path and the longer ones |
| Dispatch.WildcardMatchIff | golioth_sdk/dispatch.c:25-31 | the '*' is taken off before the comparison |
| Dispatch.PickedIff | golioth_sdk/dispatch.c:23-47 | a path goes to the first service in the table that stands for it, and to none if no service does |
| Dispatch.BelowPathIff | golioth_sdk/dispatch.c:23-47 | a wildcard service gets a path below its prefix if and only if no service before it stands for that path |
| Dispatch.RemainderIff | golioth_sdk/dispatch.c:38-43 | the service on a prefix q with a '*' is told r if and only if r is not empty and q followed by r is the path |
| Dispatch.PlainMatchIff | golioth_sdk/dispatch.c:25-31 | a service whose path does not end in '*' matches that path and every longer one that begins with it |
| Dispatch.OwnPathIff | golioth_sdk/dispatch.c:23-47 | a service without a wildcard gets its own path if and only if none before it in the table matches |
| Dispatch.LongerPathTaken | golioth_sdk/dispatch.c:23-47 | with services on /a and /ab, a stream on /ab starts the first |
| Dispatch.DeliveredToOwner | golioth_sdk/dispatch.c:18-92 | over any transcript each service gets exactly its own streams' data, in order |
| Dispatch.DeliveredFromIdle | golioth_sdk/dispatch.c:18-92 | the same from the start |
| Dispatch.StreamKeptIff | golioth_sdk/dispatch.c:31-36 | a running stream keeps its service if and only if the new start does not match that service |
| Dispatch.BusyServiceTaken | golioth_sdk/dispatch.c:31-75 | a transcript in which a second stream takes the service of a running one, whose last data then reaches nobody |
| Dispatch.Dispatcher.OnDownlinkStart | golioth_sdk/dispatch.c:18-53 | the loop takes the first service that matches, tells it the remainder, and moves to the next state |
| Dispatch.Dispatcher.OnDownlinkData | golioth_sdk/dispatch.c:55-92 | the loop picks the service as specified, and the last data frees it |
| Buf.PouchBuf.constructor | src/buf.c:65-75 | an empty buffer |
| Buf.PouchBuf.Write | src/buf.c:23-26 | the bytes are appended |
| Buf.PouchBuf.Restore | src/buf.c:55-58 | the byte count is set back |
| Buf.PouchBuf.TrimStart | src/buf.c:91-97 | the front is cut off and the rest moved down |
| Buf.PouchBuf.TrimEnd | src/buf.c:99-104 | the end is cut off |
| Buf.PouchBuf.FinishBlock | src/block.c:109-121 | the header is rewritten in place, the payload stays |
| Buf.BufView.Read | src/buf.c:143-151 | the next bytes, and a view of the rest |
| Buf.BufView.ReadBe16 | src/buf.c:158-161 | a big-endian number, and a view of the rest |
| DownlinkEntry.CopyPath | src/entry.c:108-110 | the handlers see the path up to its first NUL |
| DownlinkEntry.EntriesPush | src/entry.c:86-117 | the loop makes exactly the callbacks of the entries in the view |
| DownlinkEntry.StreamPush | src/entry.c:119-153 | exactly the callbacks of a stream block |
| DownlinkEntry.BlockPush | src/entry.c:155-177 | exactly the callbacks of the block, chosen by its id |
| Ownership.LiveCount | src/buf.c:65-89 | with nothing held or lost, the live buffers are exactly those of the pending header, the two queues, the reader, the open block and the open streams, each in one place |
| Ownership.Separate | src/buf.c:65-75 | different live buffers share no bytes |
| Ownership.NoDangling | src/buf.c:65-89 | every owner named in the ledger really has the buffer |
| UplinkDevice.PouchDevice.constructor | src/uplink.c:120-125 | the device at power-up holds nothing |
| UplinkDevice.PouchDevice.Alloc | src/buf.c:65-75 | a new live buffer, or nothing changes |
| UplinkDevice.PouchDevice.Free | src/buf.c:77-84 | one live buffer less |
| UplinkDevice.PouchDevice.EntryWrite | src/entry.c:196-253 | open block, queue and result are those of the value step; one owner per buffer is kept, nothing leaks |
| UplinkDevice.PouchDevice.NewStreamId | src/stream.c:43-53 | the loop draws the next id that is not 0 |
| UplinkDevice.PouchDevice.StreamOpen | src/stream.c:55-85 | a stream is opened exactly below the limit and with memory, and a failure leaves nothing behind |
| UplinkDevice.PouchDevice.StreamWrite | src/stream.c:87-132 | the stream, the count and the enqueued blocks are those of the value step; no buffer leaks, also when an allocation fails in the middle |
| UplinkDevice.PouchDevice.StreamClose | src/stream.c:134-155 | the last block is enqueued or freed, the stream is gone |
| UplinkDevice.PouchDevice.ProcessBlocks | src/uplink.c:68-91 | the whole session state is that of the value step, every buffer moves to its new owner |
| UplinkDevice.PouchDevice.CloseUplink | src/uplink.c:106-118 | the open entry block is flushed once and enqueued by content, the handler is scheduled |
| UplinkDevice.PouchDevice.StartUplink | src/uplink.c:134-174 | the value step; a buffer is lost exactly if a header was still pending |
| UplinkDevice.PouchDevice.FillUplink | src/uplink.c:176-216 | the bytes written, the result and the session state are those of the value step; drained buffers are freed |
| UplinkDevice.PouchDevice.FinishUplink | src/uplink.c:223-249 | the value step; header, transport queue and reader are freed, and nothing else |
| UplinkDevice.PouchDevice.Run | src/transport/ble_gatt/uplink_characteristic.c:25-86 | for every sequence of calls from power-up with a finish between starts: each live buffer has one owner that points to it, nothing is held or lost, the live counter is the number of buffers the device holds, at most 126 streams are open; session, open entry block, open streams and id counter are those of the value machine after these calls, and so is every reply to the packetizer |
| DeviceView.RunLooks | src/uplink.c:68-249 | that machine is the one of Device without its history: after any run of Device it holds the same session, entry block and streams, and its fills replied the same |
| DeviceLoopback.CallsPull | src/transport/ble_gatt/uplink_characteristic.c:25-46 | for the calls of one session up to NO_MORE_DATA, the replies of the device on the heap are the bytes of the session and come to their end |
| DeviceLoopback.CallsDeliver | src/uplink.c:176-216 | a receiver that is given the bytes of these replies, in fragments that keep up, assembles exactly the accepted messages of every id |
| UplinkDevice.PouchDevice.CallsKeepExact | src/buf.c:65-89 | after every call that settles, the live counter is the number of buffers the device holds |
| UplinkDevice.PouchDevice.CountersExact | src/stream.c:55-61 | the counters are those of the live buffers and streams, with at most 126 streams |
| DownlinkDevice.PouchDownlink.StartDownlink | src/downlink.c:93-105 | the reassembler is back at its first state, or has no buffer when the allocation failed; the queues are untouched |
| DownlinkDevice.PouchDownlink.SubmitBlock | src/downlink.c:87-91 | the block is queued and the handler scheduled |
| DownlinkDevice.SplitBlock | src/downlink.c:203-221 | the block stays in the old buffer, what follows is carried over to the new one, and nothing else |
| DownlinkDevice.PouchDownlink.Iterate | src/downlink.c:159-225 | one turn on the heap is one turn of the reassembler, and exactly the blocks it emits are queued |
| DownlinkDevice.PouchDownlink.Push | src/downlink.c:139-227 | the whole loop is the reassembler's push, and exactly the emitted blocks are queued |
| DownlinkDevice.PouchDownlink.DecryptBlocks | src/downlink.c:70-85 | the step of the pipeline |
| DownlinkDevice.PouchDownlink.ConsumeBlocks | src/downlink.c:52-68 | the step of the pipeline |

## Left out

- EndToEnd.Loopback: runs with one session, with nothing left waiting (`UplinkEnds.NothingWaitsIff` says when); `EndToEnd.LoopbackSessions` is about several. Streams that a finish cut off after some of their blocks were sent are excluded in both, since their messages have no end (`Stream.BodyDelivers`). Fragmentations that do not keep up are excluded because blocks are then left behind: keeping up is necessary and sufficient (`Completeness.WholeIff`, `EndToEnd.SessionReassembles`).
- EndToEnd.LoopbackSealed: the AEAD header is any self-delimiting header; its CBOR is generated code and is not part of this model.
- Device.RunKeeps: open streams have distinct ids by assumption; only 31 ids exist for 126 permitted streams. No handle is kept for 2^32 sessions, after which it would be taken for a current one.
- Application.WholeWay: no start reaches a service that is receiving, which `Dispatch.StreamKeptIff` shows to be needed. The packets of one session; on POUCH_ERROR and at the end the callback also calls finish, which is a call of its own in the model.
- UplinkDevice.PouchDevice.Run: a finish comes between one start and the next (`UplinkEnds.HeaderOverwritten` shows why), all fills write to one destination array, and a call with a handle that is not open is skipped.
- SaeadDevice.Session.DecryptBlock: blocks of fewer than two bytes are excluded as for BlockDecrypt.
- DownlinkEntry.EntriesPush: contents that are cut short are excluded, since src/entry.c:95-112 reads on without looking; the same holds for StreamPush and BlockPush.
- Saead.AcceptedArePrefix: the AEAD is ideal in the sense that decryption succeeds on exactly the sealed tuples; probabilities are not modelled.
- SaeadDevice.SaeadDownlink.BlockDecrypt: blocks of fewer than two bytes, which the reassembler never emits, are excluded, because their size field is read from outside the buffer's contents.
- UplinkDevice.PouchDevice.StreamOpen: paths with 3 + |path| above the payload size are excluded; the source writes them past the block.
- DownlinkDevice.PouchDownlink.Push: the allocation of the next buffer (src/downlink.c:205-221) succeeds; only that of the first one may fail.
- Allocation failure in the middle of a downlink, and the buffer that pouch_downlink_start overwrites: the ownership ledger covers the uplink only.
- The heap classes of the uplink and the downlink are the plaintext build; the AEAD build is covered by the value theorems, which hold for every lawful cipher, and by the classes of SaeadDevice.
- Integer widths of sizes: `size_t` does not overflow; the 32-bit session id, the 32-bit block index and the 16-bit pouch id wrap; the stream counter is unbounded, since a wrap at 2^32 does not show in its low five bits.
- Steps finer than an API call or a handler run, mutex timeouts, and the delivery of events (the queue of src/pouch.c drops when it is full).
- NULL arguments, and the public stream validity query on a NULL stream.
- Key agreement, HKDF, certificates, random numbers: their results are parameters. That a key belongs to one algorithm is taken for granted.
- CBOR decoding in general, settings, OTA, and the BLE GATT characteristics, examples and credentials: glue and parser state that is not shown.
