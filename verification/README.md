# KNOT HAL: the nRF24 link layer, its driver, the EEPROM store and the gateway's tables

A Dafny model of the parts of KNOT HAL that keep state, and proofs of what they promise over whole
sessions. `dafny verify dfyconfig.toml` checks everything.

## What is modelled

**Link layer** (`src/hal/comm/comm_nrf24l01.c`, Linux build with five peers). `link_spec.dfy` says on
values what each piece of the file does to one node's state; `link_layer.dfy` has the file's own form, one
object whose fields are the statics, changed in place, every method proved to take the state exactly where
the specification says. `link_invariants.dfy` is the invariant every call keeps. The theorems are about any
sequence of interface calls (`hal_comm_socket`, `close`, `listen`, `read`, `write`, `accept`, `connect`)
under any surroundings: `link_runs.dfy` (pipe tables, time slices, mailbox, keepalive, presence bursts),
`link_service.dfy` (bounded service), `link_roles.dfy` (initiator and acceptor), `link_exchange.dfy`
(keepalive, disconnect and presence between two nodes), `link_requests.dfy` (how long a connect request is
repeated and its event waits), `link_addresses.dfy` and `handshake.dfy` (who transmits to which address),
`end_to_end.dfy` (what one application reads is what the other wrote, and when a message is delivered),
`link_keepalive.dfy` (sessions that attain the keepalive bound), `link_frames.dfy` (who sends which frames),
`link_timers.dfy` (silence, requests and visits to a channel, to the millisecond), `link_presence.dfy` (bursts
and pauses), `link_events.dfy` (what every call hands over and answers). Frame layouts are in `link_pdu.dfy`.

**Fragmentation and the channel** (`reassembly.dfy`, `message_stream.dfy`). The receive slot of one pipe
under any frames, and sender, channel and receiver of one pipe over whole runs. The channel keeps the order
and nothing else: any frame may arrive any number of times or not at all, acknowledged or not, because
`nrf24l01_set_channel` flushes the receive FIFO on every change of channel
(`src/nrf24l01/nrf24l01.c:263-267`) and with it frames acknowledged but not yet read. The acknowledged
channel, on which every frame reported as sent arrives and a failed frame ends its message, is the special
case `MessageStream.AckedKeepsHeads` places in it.

**Radio driver** (`src/nrf24l01/nrf24l01.c`, `src/drivers/phy_driver_nrf24.c`). A register file, a
chip-enable line and the two driver statics (`radio.dfy`, `phy_driver.dfy`), proved to behave like a plain
map from pipe to five-byte address (`radio_refinement.dfy`). Register bits are kept as six booleans;
`bits.dfy` ties them to `SET_BIT`, `CLR_BIT`, `CHK_BIT` and the two mask tests on bytes.

**Timers** (`src/hal/time/time_linux.c`). `hal_timeout` on a 32-bit counter (`hal_time.dfy`).

**EEPROM store** (`src/hal/storage/storage_avr.cpp`). One byte array (`storage.dfy`) that refines a record
of seven fields, a configuration and a user area; `storage_runs.dfy` is about any sequence of calls. The
EEPROM is assumed to have room for the fixed part and the largest configuration, and at most 65536 bytes.

**Gateway tables** (`src/nrfd/manager.c`). The known devices (`known_peers.dfy`) and the live sessions
(`sessions.dfy`), over counting lemmas for tables of slots (`slot_table.dfy`).

## How to read it

What the firmware cannot choose is a parameter: clock readings in true milliseconds that never go back, the
frames heard, which transmissions are acknowledged, uninitialised stack bytes, whether the bus registers an
object, which sockets the system hands out. A record `hist` beside the link state logs what happened (frames
on the air with the registers they went out under, events queued and consumed, visits to a channel, tries to
send); no step reads it, and the theorems are about it. A session starts at `hal_comm_init` on a radio fresh
from power-on, because `nrf24l01_init` does not reset `pipe0_open`.

## False as stated, and when true

- `hal_timeout` fires one millisecond late when the counter wraps between the two readings and the elapsed
  time is exactly the timeout (`HalTime.TimeoutMeetsItsPromiseIff`, `HalTime.LateByOneExample`).
- "A message is handed over at most once" holds exactly of messages longer than 30 bytes: one of a single
  frame can come out twice, because a repeat that arrives after the first copy was read is taken for a new
  message (`MessageStream.TwiceIff`, `MessageStream.ShortMessageTwice`).
- "What is handed over is never a splice of two messages" can fail, when frames are lost, exactly if two of
  the sender's messages are both longer than some number of frames and differ within them
  (`MessageStream.SpliceIff`, example `MessageStream.SpliceUnderLoss`); so never for messages of at most 30
  bytes (`MessageStream.ShortNeverClash`). Losing tails or whole messages does no harm: it holds in every run
  in which the first arrival of each message is its frame 0 (`MessageStream.NeverASplice`).
- "An acknowledged message is delivered" holds exactly if each of its frames is heard, which a change of
  channel can prevent after the acknowledgement (`EndToEnd.DeliveredIff`).
- Opening a data pipe whose address differs in bytes 1 to 4 from an open one redirects the open one
  (`RadioRefinement.MixedTailsExample`, exact in `RadioRefinement.OpenKeepsMapIff`).
- "At most nine keepalive requests between two packets" holds while no `hal_comm_connect` succeeds on the
  pipe in between: each one starts the count again, and nine more may follow (`LinkRuns.KeepaliveBounds`). A
  session with one connect and ten requests is `LinkKeepalive.TenRequests`; `LinkKeepalive.BoundAttained`
  has sessions with 9 * (1 + c) requests for every number c of connects.
- "`raw_timeout` is the sum of the windows of the allocated pipes" is kept by a call and its background step
  exactly if the call does not open a data socket (`LinkRuns.SliceKeptIff`; example in
  `LinkRuns.SocketLeavesRawTimeout`). Accepting, closing or timing out puts it right again.
- "The RAW state waits for a retransmission before it is left" holds only while the clock is within the
  retransmission offset of the eight bits kept of the last turn's time (`LinkTimers.RawLeavesIff`): once the
  clock shows 300 ms the wait never happens (`LinkTimers.RawEnds`).
- "Frames of a data pipe go out on the data channel" is true of all but disconnect frames. `hal_comm_close`
  sends on whichever channel is tuned: on 22 with auto-ack exactly in the RAW state, or in START_MGMT once a
  visit has ended; on 76 without it in MGMT and START_RAW; on 10 without it before the first MGMT visit
  (`LinkRuns.DisconnectOnTunedChannel`, `LinkRuns.DisconnectBeforeFirstVisit`).
- Adding or removing the address 0 breaks the table of known devices (`KnownPeers.AddZeroExample`, exact in
  `KnownPeers.AddKeepsTableIff` and `KnownPeers.RemoveKeepsTableIff`), and address 0 is let in while a slot
  is free (`KnownPeers.PermissionIff`).
- Bytes in the user area do not outlive every configuration write (`StorageRuns.UserSurvivesConfigIff`), and
  a shrinking configuration leaves its old bytes in the user area (`StorageRuns.ShrinkExposes`).
- Comments that disagree with the code, where the code is followed: keepalives every 2560 ms and a timeout of
  25600 ms (`src/hal/comm/nrf24l01_ll.h:106-107`; the code has 750 and 7500), "5 attempts"
  (`src/hal/comm/comm_nrf24l01.c:1193`; the code allows nine requests after each connect or packet).

## Model

| member | source | states |
|---|---|---|
| `HalTime.TimeoutExact` | `src/hal/time/time_linux.c:64-76` | for every true elapsed time below 2^32 ms: fires exactly from the timeout on, one ms later across a wrap |
| `HalTime.NeverEarly` | `src/hal/time/time_linux.c:64-76` | a timer never fires before its time, however much time has passed |
| `HalTime.TimeoutMeetsItsPromiseIff` | `src/hal/time/time_linux.c:64-76` | "fires exactly when the timeout has elapsed" holds unless the counter wrapped and the elapsed time equals the timeout |
| `HalTime.LateByOneExample` | `src/hal/time/time_linux.c:64-76` | a wrap at which a 10 ms timer fires at 11 ms |
| `Bits.BitMacros` | `src/hal/comm/comm_nrf24l01.c:61-63` | setting, clearing and testing one bit of a register is setting, clearing and reading one boolean |
| `Bits.RawMaskTests` | `src/hal/comm/comm_nrf24l01.c:78-80` | the two mask tests of the scheduler mean "some" and "every" data pipe |
| `Nrf24l01.Device.SetAddressPipe` | `src/nrf24l01/nrf24l01.c:92-112` | five bytes for TX, pipe 0 and pipe 1, one byte for the others |
| `Nrf24l01.Device.GetAddressPipe` | `src/nrf24l01/nrf24l01.c:115-132` | pipes 2 to 5 read their own byte over four of pipe 1 |
| `Nrf24l01.Device.InitRadio` | `src/nrf24l01/nrf24l01.c:139-226` | what power-up programming leaves in the registers |
| `Nrf24l01.Device.SelectChannel` | `src/nrf24l01/nrf24l01.c:251-282` | channel and auto-ack, or -1 and no change outside the band |
| `Nrf24l01.Device.Open` | `src/nrf24l01/nrf24l01.c:299-330` | an open pipe is left alone; a first data pipe also lends its tail to pipe 1 |
| `Nrf24l01.Device.Close` | `src/nrf24l01/nrf24l01.c:336-355` | only the pipe's enable bit goes, and `pipe0_open` with pipe 0 |
| `Nrf24l01.Device.Ptx` | `src/nrf24l01/nrf24l01.c:364-420` | TX_ADDR gets the pipe's address; with auto-ack pipe 0 is lent to it |
| `Nrf24l01.Device.Prx` | `src/nrf24l01/nrf24l01.c:477-500` | pipe 0 goes back to its owner, or is closed, and the radio listens |
| `Nrf24l01.Device.PtxData` | `src/nrf24l01/nrf24l01.c:426-450` | refused payloads and a full FIFO do not fire the radio |
| `PhyDriverNrf24.Driver.WriteFrame` | `src/drivers/phy_driver_nrf24.c:29-60` | the length for an acknowledged frame, -1 otherwise, and the same registers either way |
| `PhyDriverNrf24.Driver.Control` | `src/drivers/phy_driver_nrf24.c:104-139` | each command, in standby, then receive mode unless standby was asked for |
| `RadioRefinement.TransmissionInvisible` | `src/drivers/phy_driver_nrf24.c:29-60` | after a write the radio listens with CE high, the same enabled pipes and the same addresses, pipe 0 included |
| `RadioRefinement.ControlEndsReceiving` | `src/drivers/phy_driver_nrf24.c:104-139` | after a register-setting command CE is high, EN_RXADDR bit 0 equals `pipe0_open`, RX_ADDR_P0 is the saved address |
| `RadioRefinement.SendLoadsPipeAddress` | `src/nrf24l01/nrf24l01.c:364-420` | `set_ptx` loads the address the pipe was opened with, and listens there for the acknowledgement |
| `RadioRefinement.OpRefines` | `src/nrf24l01/nrf24l01.c:299-420` | one command or transmission does to the registers what the plain map says |
| `RadioRefinement.OpenKeepsMapIff` | `src/nrf24l01/nrf24l01.c:299-330` | opening keeps the map meaning exactly when bytes 1 to 4 agree with the open data pipes |
| `RadioRefinement.MixedTailsExample` | `src/nrf24l01/nrf24l01.c:299-330` | a second address redirects the first pipe's frames |
| `RadioRefinement.SessionAddresses` | `src/nrf24l01/nrf24l01.c:92-420` | over any session: a frame on an open pipe goes to the address last used to open it, and reception is untouched |
| `RadioRefinement.RetriesStaggered` | `src/nrf24l01/nrf24l01.c:376-402` | fifteen retries with a delay of its own for every pipe when acknowledged, none otherwise |
| `RadioRefinement.ChannelSelected` | `src/nrf24l01/nrf24l01.c:251-282` | channels 10 to 116 are selected with auto-ack on all pipes or none, others change neither |
| `RadioRefinement.SessionConfig` | `src/nrf24l01/nrf24l01.c:139-226` | power, rate, address width and transmit power programmed at power-up last through any session |
| `LinkPdu.RequestFields` | `src/hal/comm/comm_nrf24l01.c:1164-1190` | where the fields of a connect request lie, whatever the buffer held before |
| `LinkPdu.RequestByFields` | `src/hal/comm/comm_nrf24l01.c:1164-1190` | the field-by-field writes build exactly the request |
| `LinkPdu.ConnectedByFields` | `src/hal/comm/comm_nrf24l01.c:462-473` | the field-by-field writes build exactly the connected event |
| `LinkPdu.PresenceByFields` | `src/hal/comm/comm_nrf24l01.c:418-443` | the same for the presence event |
| `LinkPdu.DisconnectedByFields` | `src/hal/comm/comm_nrf24l01.c:614-623` | the same for the disconnected event, whose index byte is not written |
| `LinkPdu.SocketAddressesDiffer` | `src/hal/comm/comm_nrf24l01.c:970-976` | sockets of one node never share an address and always share its tail |
| `Reassembly.AcceptKeepsSlot` | `src/hal/comm/comm_nrf24l01.c:635-687` | offset is min(30 * seqnumber, 128), seqnumber at most 64, len at most 128, and 0 counters while a message waits |
| `Reassembly.BufferIsAccepted` | `src/hal/comm/comm_nrf24l01.c:635-687` | for any frames, reads and reallocations the buffer holds the first 128 bytes of what was accepted since the last restart |
| `Reassembly.NextFrame` | `src/hal/comm/comm_nrf24l01.c:638-687` | the expected frame extends the partial message or completes it |
| `Reassembly.StaleFrame` | `src/hal/comm/comm_nrf24l01.c:635-653` | a repeat, or a frame of a message given up on, changes nothing |
| `Reassembly.RoundTrip` | `src/hal/comm/comm_nrf24l01.c:501-557` | the frames of a message, each repeated any positive number of times, yield it from any state with an empty slot |
| `Reassembly.HandedOutWhole` | `src/hal/comm/comm_nrf24l01.c:635-687` | the same with reads in between and after: nothing before the last frame, then the whole message waits or has been handed out once |
| `Reassembly.MissingFrame` | `src/hal/comm/comm_nrf24l01.c:635-687` | a message one of whose frames is not heard is never handed out |
| `MessageStream.StreamChain` | `src/hal/comm/comm_nrf24l01.c:506-549` | on the acknowledged channel arrivals repeat, advance by one, or start a later message, whatever fails or is aborted |
| `MessageStream.AckedKeepsHeads` | `src/hal/comm/comm_nrf24l01.c:506-549` | so there the first arrival of each message is its frame 0 |
| `MessageStream.RunInStep` | `src/hal/comm/comm_nrf24l01.c:486-693` | after every event of a run, whatever is lost, slot and messages handed over are in step with the last arrival |
| `MessageStream.NeverASplice` | `src/hal/comm/comm_nrf24l01.c:486-693` | with frames lost anywhere, each exposed message is byte for byte one message sent, if heads come first or no two messages clash |
| `MessageStream.OrderedWithoutRepeats` | `src/hal/comm/comm_nrf24l01.c:638-653` | whatever is lost, messages come out in the order of their last frames, one of several frames at most once |
| `MessageStream.ShortMessageTwice` | `src/hal/comm/comm_nrf24l01.c:638-642` | a run in which a single-frame message comes out twice |
| `MessageStream.TwiceIff` | `src/hal/comm/comm_nrf24l01.c:638-653` | some run hands one sending of a message over twice exactly if it is at most 30 bytes long |
| `MessageStream.SpliceUnderLoss` | `src/hal/comm/comm_nrf24l01.c:638-687` | two acknowledged messages of two frames with different heads, two frames flushed: what is handed over is neither |
| `MessageStream.SpliceIff` | `src/hal/comm/comm_nrf24l01.c:635-687` | under loss a sender's messages can be spliced exactly if one clashes with a later one |
| `MessageStream.ShortNeverClash` | `src/hal/comm/comm_nrf24l01.c:635-687` | messages of at most 30 bytes are safe under any loss |
| `CommNrf24l01.LinkLayer.constructor` | `src/hal/comm/comm_nrf24l01.c:871-887` | the state `hal_comm_init` leaves on a radio from power-on |
| `CommNrf24l01.LinkLayer.NewRawTime` | `src/hal/comm/comm_nrf24l01.c:220-243` | the sum of the windows in use or 10, and the retransmission offset |
| `CommNrf24l01.LinkLayer.AllocPipe` | `src/hal/comm/comm_nrf24l01.c:245-262` | the first free entry, zeroed, numbered and marked in the bitmask, or -1 and no change |
| `CommNrf24l01.LinkLayer.FreePipe` | `src/hal/comm/comm_nrf24l01.c:850-856` | bit, entry, counter, radio pipe and raw time of a freed pipe |
| `CommNrf24l01.LinkLayer.WriteControl` | `src/hal/comm/comm_nrf24l01.c:264-326` | disconnect and keepalive frames: both addresses, and -1 if not acknowledged |
| `CommNrf24l01.LinkLayer.CheckKeepalive` | `src/hal/comm/comm_nrf24l01.c:328-351` | timed out exactly after 7500 ms of silence, else a request exactly when one is due |
| `CommNrf24l01.LinkLayer.WriteMgmt` | `src/hal/comm/comm_nrf24l01.c:353-375` | the waiting request goes out, and leaves the buffer only if acknowledged |
| `CommNrf24l01.LinkLayer.ReadMgmt` | `src/hal/comm/comm_nrf24l01.c:377-484` | which frames become which event, that a full mailbox is not touched, and the return value in every case |
| `CommNrf24l01.LinkLayer.WriteRaw` | `src/hal/comm/comm_nrf24l01.c:486-558` | the fragments sent up to a failure, the slot emptied either way, and the three return values |
| `CommNrf24l01.LinkLayer.Reassemble` | `src/hal/comm/comm_nrf24l01.c:635-687` | the branches on a data frame make the slot's next state |
| `CommNrf24l01.LinkLayer.TakeData` | `src/hal/comm/comm_nrf24l01.c:635-687` | and that is all a data frame changes beyond anchor and counter |
| `CommNrf24l01.LinkLayer.HandleControl` | `src/hal/comm/comm_nrf24l01.c:589-626` | requests are answered only to the peer and for this node; a disconnect needs an empty mailbox |
| `CommNrf24l01.LinkLayer.ReadRaw` | `src/hal/comm/comm_nrf24l01.c:560-693` | every frame waiting is handled in order |
| `CommNrf24l01.LinkLayer.PresenceConnect` | `src/hal/comm/comm_nrf24l01.c:700-764` | the presence state machine, its timers and its transmission |
| `CommNrf24l01.LinkLayer.Supervise` | `src/hal/comm/comm_nrf24l01.c:833-857` | a silent peer's pipe goes together with the event, or not at all |
| `CommNrf24l01.LinkLayer.Running` | `src/hal/comm/comm_nrf24l01.c:766-868` | the scheduler's four states |
| `CommNrf24l01.LinkLayer.CommSocket` | `src/hal/comm/comm_nrf24l01.c:938-989` | management first, then one pipe per socket under its own address, or EUSERS and no change |
| `CommNrf24l01.LinkLayer.CommClose` | `src/hal/comm/comm_nrf24l01.c:992-1014` | a disconnect frame if the node has an address, then the pipe is free |
| `CommNrf24l01.LinkLayer.CommRead` | `src/hal/comm/comm_nrf24l01.c:1016-1061` | event or message handed out up to count bytes, and the error codes |
| `CommNrf24l01.LinkLayer.CommWrite` | `src/hal/comm/comm_nrf24l01.c:1063-1081` | a message of 1 to 128 bytes taken into an empty slot, EBUSY or EINVAL otherwise |
| `CommNrf24l01.LinkLayer.CommListen` | `src/hal/comm/comm_nrf24l01.c:1083-1092` | listening from now on |
| `CommNrf24l01.LinkLayer.CommAccept` | `src/hal/comm/comm_nrf24l01.c:1094-1147` | the event is consumed; a request for this node opens a pipe for its offer |
| `CommNrf24l01.LinkLayer.CommConnect` | `src/hal/comm/comm_nrf24l01.c:1149-1198` | the request is built and the pipe's keepalive started, or EBUSY |
| `LinkInvariants.StepKeeps` | `src/hal/comm/comm_nrf24l01.c:766-1198` | every call, with its background step, keeps the whole invariant |
| `LinkInvariants.RunningKeeps` | `src/hal/comm/comm_nrf24l01.c:766-868` | the background step alone keeps it |
| `LinkInvariants.PerformKeeps` | `src/hal/comm/comm_nrf24l01.c:925-1198` | the calls' own work keeps it |
| `LinkInvariants.AttemptsLeft` | `src/hal/comm/comm_nrf24l01.c:328-345` | a request is due only while fewer than ten attempts are counted |
| `LinkRuns.ReachableInv` | `src/hal/comm/comm_nrf24l01.c:766-1198` | every state a session reaches satisfies the invariant |
| `LinkRuns.PipeTablesAgree` | `src/hal/comm/comm_nrf24l01.c:245-262` | bitmask, peers[] and EN_RXADDR agree on pipes 1 to 5, fields are -1 or their own index, bit 0 stays set |
| `LinkRuns.FramesOnTheirChannel` | `src/hal/comm/comm_nrf24l01.c:774-833` | presence and connect frames only on channel 76 without auto-ack, data and keepalive frames only on 22 with it |
| `LinkRuns.VisitsLastLongEnough` | `src/hal/comm/comm_nrf24l01.c:792-820` | a MGMT visit that ends lasted 10 ms, a RAW visit the raw timeout in force |
| `LinkTimers.RawLeavesIff` | `src/hal/comm/comm_nrf24l01.c:808-820` | RAW is left exactly when its time is over, a pipe is free and no retransmission is waited for |
| `LinkTimers.RawEnds` | `src/hal/comm/comm_nrf24l01.c:808-820` | so with any pipe free a RAW visit ends, whichever pipes are in use |
| `LinkTimers.MgmtLeavesIff` | `src/hal/comm/comm_nrf24l01.c:783-797` | MGMT is left exactly when 10 ms are over and some data pipe is in use |
| `LinkTimers.VisitBegins` | `src/hal/comm/comm_nrf24l01.c:775-807` | retuning takes one step, and the visit is timed from it |
| `LinkTimers.TurnStamps` | `src/hal/comm/comm_nrf24l01.c:822-825` | a turn keeps the low eight bits of the time its traffic ended |
| `LinkFrames.RunningSends` | `src/hal/comm/comm_nrf24l01.c:766-868` | data and keepalive frames only in RAW, connect and presence frames only in MGMT, presence only while listening, nothing while retuning |
| `LinkFrames.StepSends` | `src/hal/comm/comm_nrf24l01.c:766-1198` | the same for whole calls, of which only close itself sends, and only a disconnect frame |
| `LinkRuns.FullMasterStaysRaw` | `src/hal/comm/comm_nrf24l01.c:811-820` | with all five pipes taken RAW is never left |
| `LinkRuns.MailboxConservation` | `src/hal/comm/comm_nrf24l01.c:396-846` | events queued are the events consumed and the one pending: none is overwritten |
| `LinkEvents.StepTakes` | `src/hal/comm/comm_nrf24l01.c:1028-1045` | a read of the management socket hands out the waiting event, cut to its room, and EAGAIN exactly if none waits; it and accept take the event, no other call does |
| `LinkEvents.EventsInOrder` | `src/hal/comm/comm_nrf24l01.c:377-1147` | over a session: the events put into the mailbox are, in order, those the calls took and the one waiting |
| `LinkEvents.MgmtHears` | `src/hal/comm/comm_nrf24l01.c:377-484` | which frame on the management channel becomes which event, byte for byte, and that nothing else does |
| `LinkEvents.WriteTakes` | `src/hal/comm/comm_nrf24l01.c:1063-1081` | a message of 1 to 128 bytes waits on an idle pipe exactly as given, otherwise EINVAL or EBUSY and no change |
| `LinkEvents.GivenIsWritten` | `src/hal/comm/comm_nrf24l01.c:1063-1081` | the messages on record as given are exactly those of the successful `hal_comm_write` calls |
| `LinkEvents.ReadAnswers` | `src/hal/comm/comm_nrf24l01.c:1016-1061` | a read of a data pipe: the waiting bytes, EAGAIN or EINVAL |
| `LinkEvents.SocketAnswers` | `src/hal/comm/comm_nrf24l01.c:938-989` | 0 for the management socket, the lowest free pipe for a data socket, EUSERS and no change otherwise |
| `LinkEvents.CloseAnswers` | `src/hal/comm/comm_nrf24l01.c:992-1014` | a closed pipe is free in every table and the peer is told, any other close changes nothing |
| `LinkEvents.ConnectAnswers` | `src/hal/comm/comm_nrf24l01.c:1149-1198` | EBUSY and no change while a request waits, else peer, count and the start of silence |
| `LinkEvents.AcceptAnswers` | `src/hal/comm/comm_nrf24l01.c:1094-1147` | EAGAIN without a request, EUSERS without a pipe, else the lowest free pipe, the connecter and the start of silence |
| `LinkRuns.KeepaliveBounds` | `src/hal/comm/comm_nrf24l01.c:328-351` | counter at most 10; since a packet was heard or the pipe allocated, at most nine keepalive frames on the air while no connect on it succeeded, and nine more for each that did |
| `LinkKeepalive.BoundAttained` | `src/hal/comm/comm_nrf24l01.c:328-351` | for every number of connects since a packet was heard some session has sent all the requests the bound allows |
| `LinkKeepalive.TenRequests` | `src/hal/comm/comm_nrf24l01.c:1191-1195` | a session with one connect in the silence and ten requests |
| `LinkRuns.FreedOnlyWhenSilent` | `src/hal/comm/comm_nrf24l01.c:833-857` | a pipe with a set anchor is freed only after 7500 ms of silence, and a queued event names its peer |
| `LinkTimers.SilenceEnds` | `src/hal/comm/comm_nrf24l01.c:833-857` | in a turn of a pipe last heard at A: from A + 7501 ms on it is free in every table and the mailbox names its peer, before A + 7500 ms or with an event waiting it is kept, whatever the count |
| `LinkTimers.SilentPeerGoes` | `src/hal/comm/comm_nrf24l01.c:766-868` | a peer silent for 7501 ms loses its pipe within five RAW steps of any run that leaves the mailbox free at its turn |
| `LinkTimers.RequestsWhenDue` | `src/hal/comm/comm_nrf24l01.c:328-351` | with k attempts counted a request goes out once 750 * k ms have passed since the peer was heard and not before; data and answers put k back to one; an accepted pipe never asks |
| `LinkRuns.FreedMeansReported` | `src/hal/comm/comm_nrf24l01.c:833-857` | the step that frees a pipe is the step that queues the event with its address |
| `LinkRuns.BurstsSixtyApart` | `src/hal/comm/comm_nrf24l01.c:710-763` | presence windows of a session start at least 60 ms apart, wrap-around included |
| `LinkPresence.WindowTurn` | `src/hal/comm/comm_nrf24l01.c:745-752` | in the burst window nothing is sent; from 6 ms on the next turn is standby |
| `LinkPresence.StandbyTurn` | `src/hal/comm/comm_nrf24l01.c:753-756` | standby switches the radio off and the wait begins |
| `LinkPresence.WaitTurn` | `src/hal/comm/comm_nrf24l01.c:757-763` | the wait ends 60 ms after the window began, not before |
| `LinkPresence.SpeakTurn` | `src/hal/comm/comm_nrf24l01.c:711-744` | a node with an address announces itself; acknowledged it starts a window, otherwise it tries again |
| `LinkPresence.QuietBetweenBursts` | `src/hal/comm/comm_nrf24l01.c:700-764` | from 6 to 60 ms after a window began no presence frame goes out, by whatever calls |
| `LinkPresence.BurstsResume` | `src/hal/comm/comm_nrf24l01.c:700-764` | from 61 ms on a listening node announces itself by its fourth turn at the latest, by its second when it was waiting |
| `LinkPresence.OnlyListenersSpeak` | `src/hal/comm/comm_nrf24l01.c:783-790` | a session that never calls `hal_comm_listen` sends no presence frame |
| `LinkPresence.CallLeavesBcast` | `src/hal/comm/comm_nrf24l01.c:1083-1147` | listening starts with `hal_comm_listen` and ends with a successful accept; no call touches the bursts |
| `LinkRuns.PipeAddsItsWindow` | `src/hal/comm/comm_nrf24l01.c:220-243` | each pipe in use adds its own window to `raw_timeout`, and none leaves 10 ms |
| `LinkRuns.SocketLeavesRawTimeout` | `src/hal/comm/comm_nrf24l01.c:965-978` | opening a first socket leaves `raw_timeout` at 10 where the sum is 15 |
| `LinkRuns.SliceKeptIff` | `src/hal/comm/comm_nrf24l01.c:220-243` | `raw_timeout`, when right, is right after a call and its background step exactly if the call did not open a data socket |
| `LinkRuns.SliceKept` | `src/hal/comm/comm_nrf24l01.c:766-1198` | so it is right along every run that opens none |
| `LinkRuns.SliceRestored` | `src/hal/comm/comm_nrf24l01.c:1004-1138` | an accept or close that changes the set of pipes leaves it right, whatever it was |
| `LinkRuns.FreedSlice` | `src/hal/comm/comm_nrf24l01.c:833-857` | so does a background step that frees a pipe |
| `LinkRuns.DisconnectOnTunedChannel` | `src/hal/comm/comm_nrf24l01.c:998-1003` | in exactly which scheduler states a disconnect frame goes out on channel 22 with auto-ack, on 76 without, and on 10 without |
| `LinkRuns.DisconnectBeforeFirstVisit` | `src/hal/comm/comm_nrf24l01.c:998-1003` | a pipe opened and closed before any background step says so on channel 10 |
| `LinkExchange.RequestIsAnswered` | `src/hal/comm/comm_nrf24l01.c:595-602` | a request is answered by exactly the node it is for, if it knows the sender on that pipe |
| `LinkExchange.AnsweredIff` | `src/hal/comm/comm_nrf24l01.c:589-602` | of all frames exactly the peer's requests for this node are answered |
| `LinkExchange.AnswerResetsCount` | `src/hal/comm/comm_nrf24l01.c:604-608` | the answer puts the attempts back to one and the anchor to now |
| `LinkExchange.KeepaliveRoundTrip` | `src/hal/comm/comm_nrf24l01.c:341-350` | a request, its answer and what it does, across two nodes |
| `LinkExchange.CloseIsReported` | `src/hal/comm/comm_nrf24l01.c:1000-1003` | closing a pipe puts an event naming the closer into the other end's empty mailbox |
| `LinkExchange.StepAnswers` | `src/hal/comm/comm_nrf24l01.c:560-602` | every request of the peer heard in a pipe's turn, among whatever else, is answered in that call |
| `LinkExchange.ExchangeOverSteps` | `src/hal/comm/comm_nrf24l01.c:822-857` | a whole exchange over calls of two nodes, with any calls of the asker in between: sent, answered, count back to one |
| `LinkExchange.CloseOverSteps` | `src/hal/comm/comm_nrf24l01.c:610-626` | a close over calls of two nodes: the goodbye goes out, and the call that hears it leaves the event naming the closer |
| `LinkExchange.PresenceIsReported` | `src/hal/comm/comm_nrf24l01.c:711-743` | a presence becomes an event with the sender's address and name at a node that is not listening |
| `LinkService.BoundedService` | `src/hal/comm/comm_nrf24l01.c:822-863` | a message on a pipe that stays allocated is sent whole or dropped within five RAW steps |
| `LinkService.EachPipeOncePerRound` | `src/hal/comm/comm_nrf24l01.c:860-863` | any five RAW steps, whatever lies between, serve each pipe exactly once |
| `LinkService.WriteLeavesPending` | `src/hal/comm/comm_nrf24l01.c:1072-1080` | a busy slot refuses a second message and keeps the first |
| `LinkRoles.RoleStays` | `src/hal/comm/comm_nrf24l01.c:328-351` | an accepted pipe's counter stays 0, a connected one's between 1 and 10, for as long as the pipe stays allocated and is not connected again |
| `LinkAddresses.FramesGoWhereOpened` | `src/hal/comm/comm_nrf24l01.c:965-1014` | over a session with fitting addresses a frame on a pipe goes to the address the pipe was opened with |
| `LinkAddresses.RunCarries` | `src/hal/comm/comm_nrf24l01.c:766-1198` | the radio refines the link layer's map of pipes along every run |
| `LinkRoles.MasterFits` | `src/hal/comm/comm_nrf24l01.c:965-987` | a node that accepts nothing always opens fitting addresses |
| `LinkRoles.MasterFramesGoWhereOpened` | `src/hal/comm/comm_nrf24l01.c:965-987` | so its frames go where its sockets were opened, with no premise on the calls |
| `LinkRoles.OnlyItsPipeListens` | `src/hal/comm/comm_nrf24l01.c:970-987` | a frame sent to the address of a socket reaches that socket's pipe, if open, and no other pipe of the node |
| `LinkRoles.MasterPipesApart` | `src/hal/comm/comm_nrf24l01.c:951-987` | and that over every session of a node that accepts nothing |
| `LinkRequests.ConnectAsks` | `src/hal/comm/comm_nrf24l01.c:1160-1197` | `hal_comm_connect` leaves a request for the peer with the socket's own address waiting |
| `LinkRequests.RequestRepeated` | `src/hal/comm/comm_nrf24l01.c:353-375` | a waiting request goes out once more in a MGMT step and in no other, and stops waiting exactly if that is acknowledged |
| `LinkRequests.AskingLasts` | `src/hal/comm/comm_nrf24l01.c:766-1198` | until the next successful connect the request stays as built through any calls, and no other goes out |
| `LinkRequests.ConnectIsAsked` | `src/hal/comm/comm_nrf24l01.c:1149-1198` | over a run from the connect on: every connect frame on the air asks that peer for that socket, and asking stops only after one went out |
| `LinkRequests.OfferLasts` | `src/hal/comm/comm_nrf24l01.c:377-484` | an offer in the mailbox waits through any run that neither reads the management socket nor accepts |
| `Handshake.SocketOpensOffer` | `src/hal/comm/comm_nrf24l01.c:951-987` | `hal_comm_socket` opens the very address the request will offer |
| `LinkRequests.RequestIsHeard` | `src/hal/comm/comm_nrf24l01.c:447-473` | a request for another address is ignored, one for this node waits in the mailbox with source and offer |
| `Handshake.AcceptTakesOffer` | `src/hal/comm/comm_nrf24l01.c:1108-1146` | accept opens the offered address, records the connecter and stops listening |
| `Handshake.AcceptStepTakes` | `src/hal/comm/comm_nrf24l01.c:1094-1147` | the same for the whole call, background step included, even if the request is heard in that very step |
| `Handshake.AddressStays` | `src/hal/comm/comm_nrf24l01.c:766-1198` | as long as a pipe stays allocated its address does not change |
| `Handshake.ConnectedPairShareAnAddress` | `src/hal/comm/comm_nrf24l01.c:1094-1198` | over runs of both nodes: whichever connect frame is heard, and whatever either node does before and after, the accepter sends to exactly the address the connecter listens on for that socket, as long as both keep the pipe; any other node behaves as if nothing had been heard |
| `Handshake.SocketToAccept` | `src/hal/comm/comm_nrf24l01.c:938-1198` | the same from `hal_comm_socket` on, with the address that call opened |
| `Handshake.IdleNodeMayAccept` | `src/hal/comm/comm_nrf24l01.c:1118-1121` | a node with no data pipe open can accept any offer |
| `EndToEnd.WriteRawSendsFragments` | `src/hal/comm/comm_nrf24l01.c:501-549` | the frames put on the air are the first fragments of the message, in order, up to and including the first that fails |
| `EndToEnd.AcknowledgedIsDelivered` | `src/hal/comm/comm_nrf24l01.c:486-693` | a message whose every frame is acknowledged and heard, over any turns and calls, reads of the very pipe included, waits or was handed to exactly one read (a single frame: at most once per repeat), and nothing else was |
| `EndToEnd.DeliveredIff` | `src/hal/comm/comm_nrf24l01.c:486-693` | acknowledged or not and whatever is lost: delivered exactly if each frame is heard, otherwise nothing of it is read |
| `EndToEnd.RunHandsOut` | `src/hal/comm/comm_nrf24l01.c:1016-1061` | what the application reads over a run is what its reads find in the slot, cut to their room |
| `EndToEnd.RunFolds` | `src/hal/comm/comm_nrf24l01.c:560-693` | a pipe's receive slot after a run is what its data frames, reads and reallocations make of it |
| `EndToEnd.ReadsOnlyWhatWasWritten` | `src/hal/comm/comm_nrf24l01.c:486-693` | what `hal_comm_read` hands out at one node is one message the other one's application gave to `hal_comm_write`, whatever frames are lost, if heads come first or no two messages clash |
| `Storage.FieldWriteRefines` | `src/hal/storage/storage_avr.cpp:92-134` | writing one field changes that field of the record and nothing else |
| `Storage.ConfigWriteRefines` | `src/hal/storage/storage_avr.cpp:135-158` | writing a configuration sets it, takes its room from the user area and leaves the fields |
| `Storage.UserWriteRefines` | `src/hal/storage/storage_avr.cpp:61-82` | a user write changes only the user area |
| `Storage.Eeprom.Write` | `src/hal/storage/storage_avr.cpp:61-82` | the number of bytes below the stored configuration, those bytes written, not a byte at or above it, and no byte at all if the number is 0 |
| `Storage.Eeprom.Read` | `src/hal/storage/storage_avr.cpp:38-59` | the same bytes read, none while the length word makes no sense |
| `Storage.Eeprom.WriteEnd` | `src/hal/storage/storage_avr.cpp:84-161` | the byte array follows the record for every identifier and length, and a failed call leaves every byte |
| `Storage.Eeprom.ReadEnd` | `src/hal/storage/storage_avr.cpp:163-251` | clipped lengths, EFAULT for a senseless length word, EINVAL for an unknown identifier |
| `Storage.Eeprom.ResetEnd` | `src/hal/storage/storage_avr.cpp:253-279` | all-zero fields, an empty configuration, user bytes kept |
| `Storage.FieldsTile` | `src/hal/storage/storage_avr.cpp:92-134` | the seven fields fill everything above the length word |
| `StorageRuns.ReadEndAnswers` | `src/hal/storage/storage_avr.cpp:163-251` | what is stored up to the room asked for, EINVAL for an unknown name, EFAULT for a senseless length word |
| `StorageRuns.ShortValueKeepsRest` | `src/hal/storage/storage_avr.cpp:92-134` | a value shorter than its field leaves the rest of the field |
| `StorageRuns.ResetReads` | `src/hal/storage/storage_avr.cpp:253-279` | after a reset, and any calls that do not touch the name, a field reads as zeros and the configuration as nothing, even if the length word made no sense |
| `StorageRuns.ResetOpensUser` | `src/hal/storage/storage_avr.cpp:253-279` | after a reset everything below the length word is user area, with the bytes it held |
| `StorageRuns.WriteEndFails` | `src/hal/storage/storage_avr.cpp:92-160` | a write at the end succeeds exactly for a known name and a fitting value; a failed one changes nothing |
| `StorageRuns.WrittenIsReadBack` | `src/hal/storage/storage_avr.cpp:84-251` | what was stored is read back exactly after any calls on other fields and the user area, and any writes under its own name that fail |
| `StorageRuns.UserReadBack` | `src/hal/storage/storage_avr.cpp:38-82` | a write at any address reports exactly the bytes below the configuration, and they read back until they are written or a configuration write succeeds |
| `StorageRuns.UserSurvivesConfigIff` | `src/hal/storage/storage_avr.cpp:135-158` | user bytes outlive a configuration write exactly when they lie below the new configuration |
| `StorageRuns.ShrinkExposes` | `src/hal/storage/storage_avr.cpp:143-158` | the room a configuration gives up comes back with its old bytes |
| `KnownPeers.Adapter.AddKnownDevice` | `src/nrfd/manager.c:268-317` | the scan ends inside the array, at the device or knowing the first free slot |
| `KnownPeers.Adapter.RemoveKnownDevice` | `src/nrfd/manager.c:319-347` | the first matching slot is freed if the bus agrees |
| `KnownPeers.Adapter.CheckPermission` | `src/nrfd/manager.c:595-607` | 0 exactly if some slot holds the address |
| `KnownPeers.Adapter.MarkOnline` | `src/nrfd/manager.c:850-856` | the first matching entry goes online |
| `KnownPeers.AddRefines` | `src/nrfd/manager.c:268-317` | add succeeds exactly if the device is known, or there is room and registration succeeds |
| `KnownPeers.RemoveRefines` | `src/nrfd/manager.c:319-347` | remove takes the device out of the set exactly if it is there and the bus agrees |
| `KnownPeers.RunRefines` | `src/nrfd/manager.c:268-347` | under every sequence of adds and removes the table is a set of at most five addresses and its size their number |
| `KnownPeers.AddRecords` | `src/nrfd/manager.c:268-317` | a new device takes the first free entry, offline; no other entry changes |
| `KnownPeers.RemoveRecords` | `src/nrfd/manager.c:319-347` | a removed device's entry becomes free; no other entry changes |
| `KnownPeers.MarkRecords` | `src/nrfd/manager.c:850-856` | exactly the device's entry goes online |
| `KnownPeers.AddKeepsTableIff` | `src/nrfd/manager.c:279-313` | exactly when an add breaks the table: address 0, no gap in it, room, and a willing bus |
| `KnownPeers.RemoveKeepsTableIff` | `src/nrfd/manager.c:329-343` | exactly when a remove breaks it: address 0, a free slot, and a willing bus |
| `KnownPeers.AddZeroExample` | `src/nrfd/manager.c:268-347` | both on the empty table |
| `KnownPeers.PermissionIff` | `src/nrfd/manager.c:595-607` | let in: the known devices, and address 0 while a slot is free |
| `KnownPeers.MarkKeepsTable` | `src/nrfd/manager.c:850-856` | marking a device online keeps the table and the set |
| `Sessions.Manager.GetPeer` | `src/nrfd/manager.c:609-620` | the first live session of the device, or EINVAL |
| `Sessions.Manager.GetPeerIndex` | `src/nrfd/manager.c:622-632` | the first free slot, or EUSERS |
| `Sessions.Manager.EvtPresence` | `src/nrfd/manager.c:789-864` | the table part of a presence event, and its return value |
| `Sessions.Manager.KwatchIoDestroy` | `src/nrfd/manager.c:705-714` | the slot is free, its radio socket closed, the count down by one |
| `Sessions.Manager.EvtDisconnected` | `src/nrfd/manager.c:866-886` | the device's session ends, or EINVAL and no change |
| `Sessions.PresenceRefines` | `src/nrfd/manager.c:789-864` | a session is opened exactly for a permitted device without one, with room and both sockets; every return value |
| `Sessions.DisconnectedRefines` | `src/nrfd/manager.c:866-886` | a disconnect ends exactly the session of the device it names |
| `Sessions.HangupRefines` | `src/nrfd/manager.c:705-727` | a hang-up ends exactly the session of its slot |
| `Sessions.PresenceRecords` | `src/nrfd/manager.c:789-864` | a new session takes the first free slot with its own sockets and watch, and its device goes online; a socket made in vain is closed; nothing else changes |
| `Sessions.DisconnectedRecords` | `src/nrfd/manager.c:866-886` | the ended session's slot and watch are free, its radio socket closed, no other slot touched |
| `Sessions.HangupRecords` | `src/nrfd/manager.c:705-727` | the same for a hang-up of a watched slot, and nothing otherwise |
| `Sessions.CountMeansRoom` | `src/nrfd/manager.c:794-804` | once the count check has passed a free slot is found, and the count is the number of sessions |
| `Sessions.SessionsHold` | `src/nrfd/manager.c:705-886` | under any interleaving: count right, one session per device, and every radio socket opened is a session's or closed once |

## Left out

- The Arduino build: one peer, the other scheduler guard, its clock and random functions.
- `hal_comm_deinit`, a second `hal_comm_init`, and the EPERM answers before initialisation; a session runs from one power-on. `hal_comm_socket` with a foreign domain or protocol.
- SPI, GPIO, the STATUS and FIFO registers, and waiting for the transmission to finish: the result of a transmission and the frames waiting are parameters.
- Data frames shorter than the two-byte header and presence frames longer than 30 bytes: the code subtracts and copies without a check there, so the model requires such frames not to arrive.
- Delays between frames, reading the clock, logging, and MAC addresses as strings.
- The retransmission offset: its length is taken as the code computes it.
- Silence of a pipe whose keepalive anchor was never set: `LinkRuns.FreedOnlyWhenSilent` speaks of pipes heard from, accepted or connected.
- D-Bus, JSON files, the beacon table, glib watches and the sockets to knotd: registration, sockets and watches are answers from outside. An event loop that calls the handlers.
- A joint invariant of gateway sessions and link-layer pipes: the unset anchor above breaks it.
- The value of `KNOT_THING_DATA_MAX`: `knot_thing_config.h` is not part of this model; 5, as the comments say, is used.
- seriald, lorad, the LoRa driver, storage on Linux, examples and tools: plumbing that would add only easy members.
- CommNrf24l01.LinkLayer.CommConnect: a socket outside 1 to 5, which the gateway passes when its data socket came back as 0 because no management socket was open, is left out: the code indexes outside `peers[]` with it.
- CommNrf24l01.LinkLayer.TakeData: and `CommNrf24l01.LinkLayer.ReadRaw` leave out a data frame of one byte, from whose length the code subtracts the two-byte header unchecked.
- CommNrf24l01.LinkLayer.ReadMgmt: leaves out a presence frame of 31 or 32 bytes, whose name the code copies without a check on the room for it.
- CommNrf24l01.LinkLayer.Reassemble: leaves out a data frame of one byte, like `TakeData`.
- Nrf24l01.Device.InitRadio: leaves out FEATURE, DYNPD, STATUS and the FIFO flushes; no modelled operation reads them.
- Nrf24l01.Device.SelectChannel: leaves out the flush of both FIFOs, which hold no frames here; what it can lose is why the channel above may lose anything.
- CommNrf24l01.LinkLayer.WriteRaw: has no branch for a length above 128, which no call can store.
- EndToEnd.ReadsOnlyWhatWasWritten: is about one pipe of each of two nodes; that the frames on the receiver's pipe come from the sender's is a premise, of which `LinkRoles.MasterPipesApart` proves the receiver's part for a node that only connects.
- Sessions.Manager.EvtPresence: leaves out the table of beacons kept for the user interface.
