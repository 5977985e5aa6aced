# hwphonelink protocol engines in Dafny

The repository implements several layered protocols as plain C state machines: a reliable byte stream over UDP
(fillp), a file transfer on top of it (StreamFile in sealed VTP frames), a second file transfer over ordered links
(DFile), a text control protocol (DMSDP), a pre-shared-key authentication exchange, a stream deframer and an H.264 test
clip. This project models those engines and proves what they promise over every run, every input and every cutting of a
stream.

`dafny verify dfyconfig.toml` checks everything.

## How it is organised

Engines that update an object in place appear twice: as functions on values, about which runs and theorems are stated,
and as a class whose methods carry the source's loops and are proved to do to the fields exactly what the functions do
to the value of the object.

- `Bytes`, `Num32`, `Deframe`: big-endian integers, circular 32-bit numbers, cutting frames out of a stream.
- `FillpFrame` (codecs), `FillpWire` (what any datagram is read as), `FillpCore` (handlers), `FillpPeer` (the object),
  `FillpLink` (one direction against a specification with unbounded numbers), `FillpNet` (two peers and a network that
  loses, duplicates and reorders), `FillpTheorems`, `FillpProgress`, `FillpRepair` (a lost packet asked for and
  repeated), `FillpClose` (FIN and the orderly close), `FillpRules` (timers, limits and counters), `FillpWitness` (runs
  that show where a promise ends), `FillpHandshake`, `FillpForged` (the handshake when anybody may send anything).
- `Vtp`, `StreamFile`, `StreamSession` (the object), `StreamSend` and `StreamReceive` (one half against any
  environment or peer), `StreamStory` and `StreamRun` (a file end to end over fillp), `StreamBoth` (a full session at
  each end), `StreamLive`, `StreamFalseSuccess`.
- `DFileFrame` (codecs), `DFileWire` (what any frame is read as), `DFileCore` (handlers), `DFileConn` (the object);
  one connection against any peer: `DFileResults` (reporting), `DFileRules` (what closes it), `DFileAnswers` (what it
  owes), `DFileHeard` (what its sender goes by); two connections with transfers both ways: `DFileLink`, `DFileSides`,
  `DFileNet`, `DFileTheorems`, `DFileComplete`, `DFileRst`; runs that go wrong: `DFileLate`, `DFileFlaky`,
  `DFileCrossed`.
- `DmsdpText`, `Dmsdp`, `DmsdpRoundTrip` (built texts), `DmsdpGrammar` and `DmsdpTexts` (any text); `SoftbusFrame`;
  `SoftbusAuth`, `SoftbusRuns`; `H264`.

The fillp network is the set of datagrams ever sent, each usable any number of times or never; a datagram is stamped
with the number of packets its direction had cut when it was emitted. Timers are booleans chosen freely by the run. A
run may use DATA and PACK datagrams that are less than 2^31 minus one window of packets old.

## What the proofs found

- fillp: without that age limit a duplicate is dropped, buffered under the number of a packet to come, or delivered a
  second time, depending on its distance behind the receiver modulo 2^32 (`StaleDuplicate`, and `AnyDuplicate` for every
  datagram ever sent in a run); `DeliveredTwice` is a run that ends in the last case. The seqNum test that a comment
  calls equivalent to the pktNum test agrees with it exactly when the wrapped offset gap lies in the half turn on the
  packet's side (`DuplicateTestsAgree`), and `TestsDisagree` is a run with a fresh datagram on which the two differ. The
  header comment says that tx-complete fires only if the application queued data; it also fires when the fill callback
  ends at once (`CompletesNothing`). A close comes to an orderly end by itself exactly when one of the two ends has
  said FIN (`OrderlyCloseIff`). The counter of buffered early bytes never gets back a copy that replaced another, so a
  network that repeats one early packet takes the room for early packets away for good (`DriftGrows`, `RoomIsLost`). A
  client comes up on the first CONN_CONFIRM_ACK it hears, whoever sent it and whether or not it confirmed a cookie
  (`ClientComesUpIff`); a server comes up on a cookie that verifies and on nothing else (`ForgedRuns`).
- StreamFile: `fillp_peer_send` drops bytes silently outside ESTABLISHED while the fill callback counts them, so a
  session whose peer is closing reports "sent and acked" for a file that never left (`SuccessWithoutDelivery`). Success
  means arrival exactly when no frame was offered after the peer left ESTABLISHED, the file is not empty and nothing
  local failed the receiving session, such as its own send (`SessionsEndToEnd`); every file has a run for each of these
  cases (`EveryFileTransfers`), and an empty file never reaches SF_RX_DONE. Without a receive directory the cutting of
  the stream into deliveries is visible (`ChunkingShowsWithoutDirectory`). No peer can make a receiver use a name with a
  separator, two dots or a leading dot (`OnlySafeFiles`). A session that fails while sending never ends its stream
  (`FailedNeverEnds`), so its peer object is never drained and only the close timeout finalizes it
  (`UnendedNeverDrains`).
- DFile: a flush acks the first 39 files only, so a transfer of more than 39 nonempty files never succeeds, although
  500 are accepted (`TransfersAgree`); every accepted list within that limit can be completed (`SucceedsIff`). A
  retransmitted block that arrives after RX_WAIT_DATA closes the connection (`DataResetsIff`); for every file of one
  block there is such a run of two honest ends, after which the sender has reported success, the receiver holds the
  whole file and reports failure (`LateRepetitionCloses`). A receive transfer reports failure and goes on to announce
  that it is done exactly when, in one tick, the ack flush fails and the next send works for files that are all there
  (`TickRxRevivesIff`, `ExactlyOneResult`); `FlakyLinkRevives` is a run in which it then reports success as well. The
  32-bit block count is wrong for advertised block sizes 64 to 128 (`NegotiatedBlockSize`). An RST is looked up among
  the send transfers first, so when both ends number their transfers alike it can fail the wrong one (`RstMisses`);
  otherwise both ends of the transfer it names report failure (`RstFailsBoth`). A sender reports success on the peer's
  word alone: DONE and an acknowledgement of every last block, whether or not those blocks were sent
  (`SucceedsOnWord`). The flags the header calls "not the first block" and "last block" say so only when a block is
  sent for the first time (`BlockFlags`).
- SoftBus frames: packing tests the payload alone, so payload and extension together can exceed what the peer accepts
  (`RoundTripIff`).
- SoftBus authentication: the file comment numbers the message states from 0, the code sends 1 to 4 (`MessageStates`).
  A signature shorter than 32 bytes is compared together with what the buffer held before (`AcceptsIff`); an empty one
  is accepted exactly when the old buffer is the digest (`EmptySignature`).
- DMSDP: the header comment says that "3" without a leading space is refused; the code accepts it (`ParseBare`).

## Model

| member | source | states |
|---|---|---|
| `Num32.IsBiggerExact` | src/proto/fillp_frame.c:70-72 | the circular comparison of two wrapped counters equals the true order exactly while they are less than half a turn apart |
| `FillpFrame.HeadRoundTrip` | src/proto/fillp_frame.c:46-66 | every packet head decodes to the fields it was encoded from |
| `FillpFrame.RoundTrip` | src/proto/fillp_frame.c:76-255 | every message that fits its fields, of all packet kinds, decodes to itself through the byte format |
| `FillpWire.HeadIff` | src/proto/fillp_frame.c:56-68 | a datagram has a head exactly when its first 12 bytes encode one |
| `FillpWire.DecodeIff` | src/proto/fillp_frame.c:90-255 | for every datagram from anybody: it is heard as a message if and only if it begins with the encoding of a head whose body says that message; lengths, counts and cookie sizes included |
| `FillpCore.TakeNextKeeps` | src/proto/fillp_conn.c:467-481 | taking the next packet out of the out-of-order table keeps every buffered number ahead, never underflows the byte counter and shrinks the table |
| `FillpCore.Flush` | src/proto/fillp_conn.c:467-481 | after the flush no buffered number is the next one, all are ahead, and buffered bytes <= ofo_bytes <= 2 MiB |
| `FillpCore.OnData` | src/proto/fillp_conn.c:441-495 | the out-of-order invariant holds after every DATA packet whatsoever; what is answered and delivered is settled by `FillpRules.AckedIff` and `FillpRepair.EarlyIsNacked` |
| `FillpCore.Release` | src/proto/fillp_conn.c:514-529 | a PACK keeps the window counter equal to the bytes in flight |
| `FillpCore.Packetize` | src/proto/fillp_conn.c:556-579 | cutting packets only appends to what is in flight and keeps inflight_bytes exact and below the cache plus one packet |
| `FillpCore.Pump` | src/proto/fillp_conn.c:531-611 | a pump keeps the window counter exact and the out-of-order invariant |
| `FillpLink.WindowBound` | src/proto/fillp_conn.c:556-572 | fewer packets are in flight than half the number space allows |
| `FillpLink.FreshOrder` | src/proto/fillp_conn.c:452-457 | for a datagram young enough, the 32-bit number orders against the receive counter as the true numbers do |
| `FillpLink.OnDataRel` | src/proto/fillp_conn.c:441-495 | receiving DATA is a step of the specification: in-order packets are delivered once, others buffered or dropped |
| `FillpLink.OnPackRel` | src/proto/fillp_conn.c:514-529 | a truthful PACK releases exactly the packets it acknowledges, never one that is not delivered |
| `FillpLink.PacketizeRel` | src/proto/fillp_conn.c:556-579 | cutting packets is a step of the specification: the queued stream is preserved |
| `FillpLink.PackIsHonest` | src/proto/fillp_conn.c:407-424 | a PACK never acknowledges more than is delivered |
| `FillpNet.ActKeeps` | src/proto/fillp_conn.c:441-672 | every action of either peer keeps the invariant over both peers and all datagrams in flight |
| `FillpNet.RunKeeps` | src/proto/fillp_conn.c:441-808 | the invariant holds after every run |
| `FillpTheorems.DeliveredIsPrefix` | src/proto/fillp_conn.c:400-495 | in every run the delivered bytes are a prefix of the queued bytes, both ways, and recv_seq_num is the delivered length mod 2^32 |
| `FillpTheorems.DeliveryOnlyAppends` | src/proto/fillp_conn.c:400-495 | a continued run only appends to what is delivered: each byte once and in order |
| `FillpTheorems.CompletionIsTruthful` | src/proto/fillp_conn.c:581-608 | when on_tx_complete fires or a close is finalized as drained, the other side has delivered every queued byte; each happens at most once |
| `FillpTheorems.TockEvents` | src/proto/fillp_conn.c:762-808 | the tick raises those events only with everything delivered |
| `FillpTheorems.NackRepairsFirstGap` | src/proto/fillp_conn.c:426-439 | a current NACK carried through the codec retransmits exactly the receiver's next missing packet, and nothing when none is missing; in both directions |
| `FillpTheorems.DuplicateTestsAgree` | src/proto/fillp_conn.c:452-457 | for every fresh datagram, the test on packet numbers and the test on byte offsets agree if and only if the wrapped gap between the offsets lies in the half turn ahead exactly for a packet that is new |
| `FillpTheorems.StaleDuplicate` | src/proto/fillp_conn.c:441-495 | a duplicate of any age: by its distance behind modulo 2^32 it is dropped (up to half a turn), buffered under a future number, or delivered a second time (one short of a turn) |
| `FillpTheorems.AnyDuplicate` | src/proto/fillp_conn.c:441-495 | in every run and in both directions, receiving any datagram ever sent whose packet is delivered changes nothing if and only if that distance is at most half a turn or the table has no room for it or holds it already |
| `FillpWitness.DeliveredTwice` | src/proto/fillp_conn.c:457-481 | a run in which a datagram really sent, received once more, makes the receiver deliver bytes beyond all that was queued |
| `FillpWitness.TestsDisagree` | src/proto/fillp_conn.c:452-457 | a run in which a fresh datagram is dropped by one test and kept by the other |
| `FillpWitness.CompletesNothing` | src/proto/fillp_conn.c:581-608 | a run in which on_tx_complete fires although nothing was ever queued |
| `FillpProgress.ValveRound` | src/proto/fillp_conn.c:531-554 | one stall-valve retransmission and the PACK it provokes strictly shrink the window, new or duplicate |
| `FillpProgress.StallValveProgress` | src/proto/fillp_conn.c:417-424 | that holds in both directions in every state of every run |
| `FillpProgress.AlwaysRecoverable` | src/proto/fillp_conn.c:531-611 | whatever was lost, a run of two live peers can be continued until every byte queued in either direction is delivered and acknowledged |
| `FillpRepair.EarlyIsNacked` | src/proto/fillp_conn.c:426-495 | any packet: the receiver asks for a retransmission if and only if the packet is ahead but not next and the last request is long enough ago, and then for exactly the number after the last in order; an early packet delivers nothing and is kept when there is room |
| `FillpRepair.GapIsRepaired` | src/proto/fillp_conn.c:426-512 | in every run, both ways: a fresh early datagram makes a live receiver put a request on the wire, the request makes an established sender put exactly the missing packet on the wire and changes nothing else, and that packet moves the stream on; no tick is needed |
| `FillpClose.FinStartsDraining` | src/proto/fillp_conn.c:651-667 | a FIN leaves both halves as they are, sends nothing, and moves every peer that is not closed to CLOSING with a FIN owed in return |
| `FillpClose.CloseSaysFin` | src/proto/fillp_conn.c:258-268 | a close request says FIN exactly when established, and finalizes nothing |
| `FillpClose.FinalizedIff` | src/proto/fillp_conn.c:786-805 | a tick closes a peer exactly when it was draining and, after its pump, has heard FIN, has everything acknowledged and owes no acknowledgement, or the timeout is over; it counts as drained exactly in the first case |
| `FillpClose.ReplyFin` | src/proto/fillp_conn.c:597-610 | the FIN in return goes out exactly when it is owed and everything queued is acknowledged, and once |
| `FillpClose.NoFinNoDrain` | src/proto/fillp_conn.c:786-805 | over every run: as long as no FIN is on record and no application closes, nobody is finalized as drained |
| `FillpClose.OrderlyCloseIff` | src/proto/fillp_conn.c:581-808 | from every state of a run with two live peers whose fills have ended: time and the network alone can bring both to be finalized as drained, once each and with everything delivered both ways, if and only if one of them has said FIN |
| `FillpClose.CloseCompletes` | src/proto/fillp_conn.c:249-268 | asking an established end to close is enough for that |
| `FillpRules.NackAnswered` | src/proto/fillp_conn.c:497-512 | a NACK changes nothing; an established peer, and no other, repeats exactly what is in flight strictly between its two numbers |
| `FillpRules.AckedIff` | src/proto/fillp_conn.c:407-483 | any DATA: what is delivered is appended; an acknowledgement of the state reached goes out exactly when the packet is next and 64 KiB are owed or anything is and the interval is over, or when it is behind and the last one is long enough ago |
| `FillpRules.TickAcksIff` | src/proto/fillp_conn.c:590-594 | a tick acknowledges exactly when that much is owed, and delivers nothing |
| `FillpRules.NeverOwesMuch` | src/proto/fillp_conn.c:417-424 | in every run, at both ends: less than 64 KiB ever waits for an acknowledgement |
| `FillpRules.TickSends` | src/proto/fillp_conn.c:531-580 | the data of a tick: the oldest packet in flight if and only if it is due, then the packets cut, at most 32; more bytes are asked for exactly below the watermark |
| `FillpRules.QueueBounded` | src/proto/fillp_conn.c:534-540 | in every run that feeds the queue from the callback alone it stays below the watermark plus one fill |
| `FillpRules.UnendedNeverDrains` | src/proto/fillp_conn.c:581-608 | over every run: an end whose callback never says -1 is never told of completion and never finalized as drained |
| `FillpRules.DriftGrows` | src/proto/fillp_conn.c:484-492 | the counter of buffered early bytes exceeds what is buffered by exactly the copies that were replaced, and never gets them back |
| `FillpRules.RoomIsLost` | src/proto/fillp_conn.c:484-492 | from every run, both ways: when the network delivers one early packet n times, n-1 times its bytes are never available for early packets again, whatever follows |
| `FillpPeer.FillpPeer.FlushTable` | src/proto/fillp_conn.c:467-481 | the flush loop computes `Flush` and terminates |
| `FillpPeer.FillpPeer.OnDataPacket` | src/proto/fillp_conn.c:441-495 | the handler does to the receive fields what `OnData` does to the value, and sends the same answers: an acknowledgement exactly as `FillpRules.AckedIff` says, a request for the missing packet exactly as `FillpRepair.EarlyIsNacked` says |
| `FillpPeer.FillpPeer.OnNack` | src/proto/fillp_conn.c:497-512 | the loop retransmits exactly the in-flight packets strictly between the two numbers and changes nothing |
| `FillpPeer.FillpPeer.OnPack` | src/proto/fillp_conn.c:514-529 | the loop releases exactly what `Release` releases |
| `FillpPeer.FillpPeer.HandleDatagram` | src/proto/fillp_conn.c:613-672 | a whole datagram does to the object what the run model does; a FIN finalizes nothing (`FillpClose.FinStartsDraining`), a NACK is answered in ESTABLISHED alone (`FillpRules.NackAnswered`) |
| `FillpPeer.FillpPeer.Send` | src/proto/fillp_conn.c:1071-1075 | bytes are queued in ESTABLISHED and dropped otherwise |
| `FillpPeer.FillpPeer.Close` | src/proto/fillp_conn.c:258-268 | a close request sends FIN once and starts draining |
| `FillpPeer.FillpPeer.PacketizeQueue` | src/proto/fillp_conn.c:556-579 | the loop cuts the packets `Packetize` cuts and emits exactly the new ones |
| `FillpPeer.FillpPeer.OnTick` | src/proto/fillp_conn.c:762-808 | the tick does to the object what the run model does, including both events |
| `FillpHandshake.FilledCookieVerifies` | src/proto/fillp_frame.c:265-312 | an honestly filled cookie verifies, for every digest function |
| `FillpHandshake.DigestsEqual` | src/proto/fillp_frame.c:303-312 | the accumulator loop without early exit decides equality |
| `FillpHandshake.HandshakeSafe` | src/proto/fillp_conn.c:217-230 | in every run states only move forward, on_established fires at most once per peer, a client is established only after the server, and every cookie a client sends verifies |
| `FillpHandshake.ServerHearsKeeps` | src/proto/fillp_conn.c:319-386 | the server's handling of any datagram keeps the handshake invariant; for datagrams anybody makes up see `CookieDecides` and `FillpForged.RequestAnswered` |
| `FillpHandshake.ClientHearsKeeps` | src/proto/fillp_conn.c:350-396 | the client's handling of any datagram keeps the handshake invariant |
| `FillpHandshake.HandshakeCanFinish` | src/proto/fillp_conn.c:774-784 | whatever was lost, a waiting client can still be brought to ESTABLISHED on both sides |
| `FillpHandshake.CookieDecides` | src/proto/fillp_conn.c:364-386 | any CONN_CONFIRM: a waiting server comes up if and only if its cookie verifies and closes silently otherwise; an established one answers again or closes with a FIN; any other ignores it |
| `FillpHandshake.ForgedRuns` | src/proto/fillp_conn.c:319-386 | whatever datagrams anybody makes up: on_established of the server has fired if and only if, after a CONN_REQ, the first thing to decide was a CONN_CONFIRM whose cookie verifies, and at most once |
| `FillpForged.RequestAnswered` | src/proto/fillp_conn.c:319-348 | any CONN_REQ: a new server makes its cookie and gives it, a waiting one gives the same cookie again, any other says nothing |
| `FillpForged.OneCookieEver` | src/proto/fillp_conn.c:319-348 | whatever anybody makes up: a server makes one cookie, and every CONN_REQ_ACK it ever sends carries it |
| `FillpForged.ClientConfirms` | src/proto/fillp_conn.c:350-362 | a waiting client confirms exactly the cookie it is offered, and nothing else makes it confirm |
| `FillpForged.ClientComesUpIff` | src/proto/fillp_conn.c:388-396 | whatever anybody makes up: the client comes up if and only if it hears any CONN_CONFIRM_ACK before it leaves |
| `Vtp.FrameRoundTrip` | src/proto/vtp_frame.c:30-113 | a built frame parses to its fields and data exactly when the data fits the reader's buffer |
| `Vtp.BuildPrefix` | src/proto/vtp_frame.c:25-60 | the length prefix says how many bytes follow |
| `Vtp.ParseIff` | src/proto/vtp_frame.c:63-113 | any bytes: they are parsed to fields and data if and only if they are an envelope whose sealed part opens to that data and fits the buffer |
| `StreamFile.RefusalIsFinal` | src/proto/stream_file.c:212-258 | with a receive directory, a refused frame leaves the receive side failed and nothing else changed |
| `StreamFile.DrainThenAppend` | src/proto/stream_file.c:332-349 | with a receive directory, how the stream is cut into deliveries does not change the resulting state |
| `StreamFile.ChunkingShowsWithoutDirectory` | src/proto/stream_file.c:338-348 | without one, it does |
| `StreamSession.RefusesMeans` | src/proto/stream_file.c:102-115 | a delivery ends in SF_RX_FAILED exactly when it met a refused frame |
| `StreamSession.Session.Fill` | src/proto/stream_file.c:143-185 | the callback moves the send side as `FillOnce` says, queues that frame, and a failure fails the receive side too |
| `StreamSession.Session.OnTxComplete` | src/proto/stream_file.c:189-204 | success is reported once, from the active state only |
| `StreamSession.Session.ProcessOne` | src/proto/stream_file.c:212-326 | one frame does to the receive fields what `ProcessFrame` does, and a refusal also fails a send in progress; which frames are refused is settled by `StreamReceive.OpensIff` and `StreamReceive.WritesIff` |
| `StreamSession.Session.OnStreamData` | src/proto/stream_file.c:332-349 | the reassembly loop ends in the state of `OnData`, and fails the send side exactly when a frame was refused |
| `StreamSession.Session.StartSend` | src/proto/stream_file.c:388-425 | a send starts exactly once, on an open session, for a regular file that can be opened; any refusal changes nothing |
| `StreamSend.FillIff` | src/proto/stream_file.c:143-185 | one fill: -1 exactly when success was reported or the file is at its end, failure exactly when a wanted frame cannot be made, otherwise exactly one frame of the metadata or of the bytes read |
| `StreamSend.EndsComplete` | src/proto/stream_file.c:143-185 | over every sequence of fills: whenever the stream was ended, the session had not failed and every byte of the file had been handed over |
| `StreamSend.FailedNeverEnds` | src/proto/stream_file.c:143-150 | once failed, the callback neither sends nor ends anything, however often it is called |
| `StreamReceive.GoodNameIff` | src/proto/stream_file.c:249-254 | by its bytes: a name is accepted if and only if it is not empty and, up to its first NUL, has no slash, no two dots in a row and no leading dot |
| `StreamReceive.OpensIff` | src/proto/stream_file.c:227-260 | a metadata frame opens a file if and only if its plaintext is total, length and an accepted name, a directory is set and the file can be opened |
| `StreamReceive.WritesIff` | src/proto/stream_file.c:262-290 | a data frame is written if and only if it does not exceed the total and the disk works; the receiver is done exactly when the total is reached |
| `StreamReceive.OnlySafeFiles` | src/proto/stream_file.c:212-349 | over every sequence of deliveries from any peer, with a disk that may fail at any time: whenever a file was opened its name is safe byte by byte and no more than the total is written |
| `StreamReceive.DoneIff` | src/proto/stream_file.c:212-349 | a fresh receiver is done with a name and a content if and only if the frames it was sent open to plaintexts that describe exactly them, however the stream was cut |
| `StreamStory.FollowMore` | src/proto/stream_file.c:332-349 | a receiver that has read part of the sender's frames has written exactly the chunks of the whole frames it read |
| `StreamStory.WrittenIsPrefix` | src/proto/stream_file.c:262-282 | what is written is a prefix of the source file |
| `StreamRun.DuoKeeps` | src/proto/stream_file.c:143-349 | every step of the two sessions, the two peers and the network keeps the end-to-end invariant |
| `StreamRun.StreamFileEndToEnd` | src/proto/stream_file.c:143-204 | in every run the written file is a prefix of the source; on reported success the receiver is done with exactly that file and name if and only if the file is not empty and no frame was offered after the peer left ESTABLISHED |
| `StreamBoth.BothKeeps` | src/proto/stream_file.c:102-349 | with a full session at each end, every step keeps the invariant of both directions, whatever one half's failure does to the other |
| `StreamBoth.SessionsEndToEnd` | src/proto/stream_file.c:102-349 | in every run of two full sessions, in both directions: the written file is a prefix of the source; on reported success the other end is done with exactly that file and name if and only if the file is not empty, no frame was offered after the peer left ESTABLISHED, and neither its own send nor its disk failed the receiving session |
| `StreamBoth.DiskOfDrain` | src/proto/stream_file.c:212-326 | with a failing disk a delivery either ends as with a working one or fails the receive side and leaves the file as it was |
| `StreamLive.EveryFileTransfers` | src/proto/stream_file.c:143-204 | for every file there is a run in which the sender reports success and the file has arrived unless it is empty, and one in which it reports success although the receiving session has failed |
| `StreamFalseSuccess.SuccessWithoutDelivery` | src/proto/fillp_conn.c:1071-1075 | for every one-chunk file there is a run that reports success while the receiver got nothing |
| `DFileFrame.EntriesRoundTrip` | src/proto/dfile_frame.c:416-476 | file entries with nonzero ids and names of 1 to 256 bytes decode to themselves |
| `DFileFrame.AckRoundTrip` | src/proto/dfile_frame.c:304-344 | ACK bodies of both versions with up to 39 entries decode to themselves, version and feedback words included |
| `DFileFrame.FrameRoundTrip` | src/proto/dfile_frame.c:186-227 | SETTING, FILE_HEADER, DATA, ACK and RST frames decode to themselves |
| `DFileFrame.IdRoundTrip` | src/proto/dfile_frame.c:269-283 | CONFIRM, REQ, DONE and DONE_ACK frames decode to themselves |
| `DFileFrame.WireRoundTrip` | src/proto/dfile_conn.c:1155-1182 | any frames, encoded and cut into any reads, come out in order and decode to themselves; only an incomplete tail is retained |
| `DFileWire.EntriesIff` | src/proto/dfile_frame.c:416-476 | any bytes: the entry loop reads a list if and only if they spell it, entry by entry, with room for it, and end or go on with a user data unit |
| `DFileWire.AckIff` | src/proto/dfile_frame.c:540-594 | any bytes: they are read as acknowledgements of a version if and only if length, entries and feedback words spell them |
| `DFileWire.DecodeIff` | src/proto/dfile_frame.c:161-170 | any whole frame from anybody: it is read as a message if and only if its payload spells that message, and taken for undecodable if and only if its type is one of the nine and the payload spells nothing |
| `DFileWire.BufferIff` | src/proto/dfile_conn.c:1163-1177 | any buffer begins with a whole frame exactly when a payload of 1 to 29433 bytes is announced and there, is given up exactly when its header announces none of these lengths, and never waits at full size |
| `DFileResults.SendsBlock` | src/proto/dfile_conn.c:456-506 | sending a block uses up one of its two chances |
| `DFileResults.FittingSize` | src/proto/dfile_frame.c:236-247 | the entries chosen for a header frame fit it |
| `DFileResults.StepGood` | src/proto/dfile_conn.c:1041-1147 | against any peer and on any link, one event keeps the reporting discipline, touches no finished transfer, and brings a failed one back exactly under the guard |
| `DFileResults.TickRxRevivesIff` | src/proto/dfile_conn.c:1101-1118 | the receive part of a tick reports failure and yet announces that it is done if and only if acks are due, their send fails, the next send works, and every file is there with a matching checksum |
| `DFileResults.ExactlyOneResult` | src/proto/dfile_conn.c:259-302 | over every sequence of events and every link: the close is reported at most once, a transfer has one result exactly when its phase is terminal, and when the close is reported every registered transfer has one; except that a receive transfer has reported failure once more exactly when some tick met that guard |
| `DFileResults.StickyNeverRevives` | src/proto/dfile_conn.c:1101-1118 | on a link whose failures stay no event of any run meets the guard |
| `DFileResults.RevivedSucceeds` | src/proto/dfile_conn.c:728-747 | after a tick that met the guard, the peer's DONE_ACK makes the transfer report success after failure |
| `DFileResults.TerminalIsFinal` | src/proto/dfile_conn.c:513-541 | on every link, a terminal phase seen after an event is never left, whatever follows |
| `DFileFlaky.FlakyLinkRevives` | src/proto/dfile_conn.c:1101-1118 | a run from the opening of the connection that meets the guard and ends with the results failure and success |
| `DFileRules.AccumulateIff` | src/proto/dfile_conn.c:863-888 | a list overflows if and only if the number of different ids known and given exceeds what was announced |
| `DFileRules.ClosesIff` | src/proto/dfile_conn.c:834-956 | any frame from any peer: an open connection is closed if and only if the frame breaks the rules, which are stated by what was agreed so far, or its block cannot be written; then the RST with the right code goes out where there is one, the close is reported once, and every unfinished transfer has failed |
| `DFileRules.ClosedIff` | src/proto/dfile_conn.c:281-302 | over every sequence of events, against any peer and on any link: a connection is closed if and only if its SETTING did not go out or some event of the run ended it |
| `DFileAnswers.TimeoutAnnounced` | src/proto/dfile_conn.c:1092-1099 | a transfer whose time is over has failed after the tick, with one result, whatever else the tick does, and where the link works the first frame of the tick is the RST that says so |
| `DFileAnswers.Unanswered` | src/proto/dfile_conn.c:1132-1144 | a list that is never answered is repeated with each due tick, three times in all; the next due tick gives it up with one failure and an RST, and nothing more is ever sent |
| `DFileAnswers.ListAnswered` | src/proto/dfile_conn.c:788-893 | a list from any peer that breaks no rule: nothing is answered while ids are missing; when it is complete it is confirmed and requested if and only if every destination opens and the answer goes out, and fails otherwise, with RST 204 when a destination did not open |
| `DFileAnswers.ChecksumDecides` | src/proto/dfile_conn.c:680-727 | when everything is written, the checksums decide between DONE and an RST with failure |
| `DFileAnswers.OfferedIff` | src/proto/dfile_conn.c:332-444 | a transfer is registered if and only if the connection is ready and has none, there are 1 to 500 readable files of an allowed size, and the whole list goes out; every try uses up a number, and nothing is sent for files that cannot be read |
| `DFileAnswers.WaitsWhenSent` | src/proto/dfile_conn.c:1122-1130 | after a tick a sender that was sending waits for DONE exactly when it has nothing left to send or repeat |
| `DFileAnswers.FlushedOnce` | src/proto/dfile_conn.c:653-677 | a flush leaves nothing to acknowledge and says nothing when nothing has arrived |
| `DFileAnswers.BlockFlags` | src/proto/dfile_conn.c:457-497 | a block sent for the first time is flagged by its place in the file; a repeated one always carries 5, whether it is the first, the last or neither |
| `DFileHeard.SucceedsOnWord` | src/proto/dfile_conn.c:513-648 | over every sequence of events, against any peer and on any link: a transfer that has not failed has reported success if and only if the peer has said DONE and acknowledged the last block of every nonempty file; while unfinished it is armed if and only if the peer has requested it and confirmed every file |
| `DFileLink.GapPop` | src/proto/dfile_conn.c:917-931 | reading the first of a gap-free sequence of frames leaves a gap-free sequence |
| `DFileLink.PickedBlock` | src/proto/dfile_conn.c:452-484 | the block the pump picks is the next of the stream or an earlier one |
| `DFileLink.DataSent` | src/proto/dfile_conn.c:446-508 | sending a block keeps sender, frames on the way and receiver in agreement |
| `DFileSides.AccumulatePrefix` | src/proto/dfile_conn.c:863-888 | accumulating with deduplication extends a prefix of the list |
| `DFileSides.AckListOk` | src/proto/dfile_conn.c:653-668 | a flush acks only what is written, and only the first 39 nonempty files |
| `DFileSides.AcksKeep` | src/proto/dfile_conn.c:610-624 | truthful acks keep the sender's books true and its blocks to repeat an interval |
| `DFileSides.WriteFaithful` | src/proto/dfile_conn.c:932-955 | writing the expected block extends the faithful prefix on disk |
| `DFileNet.ActKeeps` | src/proto/dfile_conn.c:446-1147 | every action of either end keeps both directions in agreement |
| `DFileNet.RunKeeps` | src/proto/dfile_conn.c:446-1147 | agreement holds after every run |
| `DFileTheorems.BlockCountFits` | src/proto/dfile_conn.c:425-427 | the block count of every allowed size fits 32 bits if and only if the block size is at least 129 |
| `DFileTheorems.NegotiatedBlockSize` | src/proto/dfile_conn.c:1002-1010 | nothing advertised means 1472, and the block counts fit 32 bits unless 64 to 128 is advertised |
| `DFileTheorems.BlocksPartition` | src/proto/dfile_conn.c:457-463 | the blocks of a file concatenate to the file |
| `DFileTheorems.TransfersAgree` | src/proto/dfile_conn.c:590-747 | in every run, both ways at once: what is on disk is the beginning of the source; TX_DONE means every file is on disk complete, and at most 39 files were not empty; RX_DONE means TX_DONE |
| `DFileTheorems.WireFaithful` | src/proto/dfile_conn.c:1155-1182 | in every run, for either end, the frames taken are the frames sent, through codec and deframer |
| `DFileTheorems.DataResetsIff` | src/proto/dfile_conn.c:895-939 | a writable data frame of an honest peer leaves the connection open if and only if the receiver is in RX_WAIT_DATA |
| `DFileLate.LateRepetitionCloses` | src/proto/dfile_conn.c:484-506 | for every file of one block a run of two honest ends in which its repetition is read after DONE: the sender has reported success, the receiver holds the file, closes and reports failure |
| `DFileTheorems.NoBlockThrice` | src/proto/dfile_conn.c:446-508 | over every run against any peer, no block is sent more than twice |
| `DFileTheorems.PumpWork` | src/proto/dfile_conn.c:446-508 | a pump sends at most its budget of 64 data frames and each takes exactly one off 2*(total-next)+retrans |
| `DFileTheorems.ListRoundTrip` | src/proto/dfile_conn.c:332-358 | a file list split into frames and read with deduplication arrives whole and in order, however often it is repeated |
| `DFileComplete.PumpQuiet` | src/proto/dfile_conn.c:456-484 | with a working link and no repetition due, a pump sends new blocks only, until its budget or the blocks end |
| `DFileComplete.AckEverything` | src/proto/dfile_conn.c:653-668 | when at most 39 files are not empty, one flush acks every block of every file |
| `DFileComplete.Completes` | src/proto/dfile_conn.c:363-747 | for every such list a run in which both ends report success |
| `DFileComplete.SucceedsIff` | src/proto/dfile_conn.c:653-668 | of the lists the sender accepts, exactly those with at most 39 nonempty files can ever be transferred |
| `DFileRst.RstFails` | src/proto/dfile_conn.c:1018-1036 | an RST read on an open connection fails the unfinished send transfer of its number with one result, else the unfinished receive transfer of its number, touches nothing else and sends nothing |
| `DFileRst.RstFailsBoth` | src/proto/dfile_conn.c:1018-1036 | in every run of two ends that do not number their transfers alike: when one reads an RST, both ends of the unfinished transfer it names have reported failure |
| `DFileCrossed.RstMisses` | src/proto/dfile_conn.c:1027-1031 | a run of two honest ends that number their transfers alike, in which an RST about one transfer fails the other |
| `DFileConn.Connection.PumpFiles` | src/proto/dfile_conn.c:446-508 | the nested loops send exactly what `Pump` sends |
| `DFileConn.Connection.TakeAcks` | src/proto/dfile_conn.c:590-626 | the loops over ack entries and blocks to repeat do what `OnAck` does |
| `DFileConn.Connection.FlushAcks` | src/proto/dfile_conn.c:653-677 | the loop over files builds exactly `AckList` |
| `DFileConn.Connection.AddEntries` | src/proto/dfile_conn.c:863-888 | the nested loops compute `Accumulate` |
| `DFileConn.Connection.TakeData` | src/proto/dfile_conn.c:895-956 | one data frame does to the object what `OnData` does |
| `DFileConn.Connection.HandleFrame` | src/proto/dfile_conn.c:1041-1078 | the dispatcher does to the object what the run model does; which frames close the connection is settled by `DFileRules.ClosesIff`, what an RST fails by `DFileRst.RstFails` |
| `DFileConn.Connection.OfferFiles` | src/proto/dfile_conn.c:363-444 | a transfer is registered exactly when the whole list went out |
| `DFileConn.Connection.CloseDown` | src/proto/dfile_conn.c:281-302 | closing fails what is unfinished and reports once |
| `DFileConn.Connection.OnTick` | src/proto/dfile_conn.c:1082-1147 | the tick does to the object what the run model does |
| `Deframe.ChunkingIndependence` | src/proto/dfile_conn.c:1155-1182 | for every deframer that judges a buffer by its front: the frames handed on and the tail retained do not depend on the reads |
| `Deframe.FramesSurviveChunking` | src/proto/softbus_frame.c:143-180 | whole frames followed by an incomplete one come apart into exactly those |
| `SoftbusFrame.RoundTripIff` | src/proto/softbus_frame.c:13-111 | a packed frame is given back if and only if payload and extension together are at most 65507 bytes, and taken for corrupt otherwise |
| `SoftbusFrame.StreamRoundTrip` | src/proto/softbus_frame.c:143-180 | packed frames survive any cutting into reads, fields included |
| `SoftbusFrame.WholeIff` | src/proto/softbus_frame.c:58-111 | any buffer: it begins with a whole frame of given fields if and only if it begins with the bytes of one, whatever its extension area holds |
| `SoftbusFrame.CorruptIff` | src/proto/softbus_frame.c:58-105 | a buffer with a header is given up if and only if no frame is possible: none that would be complete begins it and no longer one has its header |
| `SoftbusFrame.FrameBuf.PopFrame` | src/proto/softbus_frame.c:143-180 | a pop takes the first whole frame, empties a corrupt buffer, and leaves an incomplete one alone |
| `SoftbusFrame.FrameBuf.PopAll` | src/proto/softbus_session.c:102-117 | popping in a loop hands on exactly the frames of the specification |
| `SoftbusAuth.HexRoundTrip` | src/proto/softbus_crypto.c:210-232 | hex text decodes to the bytes it encodes exactly when they fit |
| `SoftbusAuth.SaltSymmetric` | src/proto/softbus_crypto.c:64-86 | both ends compute the same salt |
| `SoftbusAuth.StepKeeps` | src/proto/softbus_auth.c:218-527 | one call keeps the session invariant and moves the state forward only |
| `SoftbusAuth.EveryRun` | src/proto/softbus_auth.c:218-527 | over all message sequences: at most 6 retries, an active side has keys exactly in DONE and then accepted the full digest, or a shorter beginning of it that the old buffer completed; states only advance, DONE and FAILED absorb |
| `SoftbusAuth.AcceptsIff` | src/proto/softbus_auth.c:425-470 | a response leads to DONE if and only if keys derive and its signature is the digest, or, being shorter than 32 bytes, begins it while the old buffer supplies the rest |
| `SoftbusAuth.EmptySignature` | src/proto/softbus_auth.c:435-444 | from the start, an exchange with an empty signature ends DONE if and only if the old buffer is the digest and keys derive |
| `SoftbusAuth.MessageStates` | src/proto/softbus_auth.c:196-505 | the messages sent carry the states 1 to 4 |
| `SoftbusAuth.HonestExchange` | src/proto/softbus_auth.c:153-187 | two honest sides end DONE exactly when their secrets sign alike and keys can be derived; with one secret the keys are equal for every order of ids |
| `SoftbusRuns.PassiveDoneIff` | src/proto/softbus_auth.c:218-505 | over every sequence of messages from anybody: a side that has not started ends DONE if and only if the first negotiates, the second is a request of the same exchange it can sign, the third gives the device information, and keys derive; it has refused if and only if one of the three came wrong |
| `SoftbusRuns.ActiveDoneIff` | src/proto/softbus_auth.c:297-475 | over every sequence of messages from anybody: a side that has started ends DONE if and only if the peer names itself and then proves its secret, and keys derive from the id it named |
| `SoftbusRuns.RequestHeard` | src/proto/softbus_auth.c:332-404 | a request is answered with the signature of both nonces and both ids, in that order, if and only if it belongs to the exchange, has a 16-byte nonce and an id, and there is a secret to sign with |
| `SoftbusRuns.SilentPeer` | src/proto/softbus_auth.c:510-527 | a waiting side polled 30 seconds apart is granted what is left of three retries, is failed by the next poll, and gets nothing after that |
| `SoftbusAuth.Authenticator.FeedMessage` | src/proto/softbus_auth.c:218-505 | a message does to the object what `Feed` does, with the same verdict and answer |
| `SoftbusAuth.Authenticator.BeginActive` | src/proto/softbus_auth.c:196-214 | starting does to the object what `Begin` does |
| `SoftbusAuth.Authenticator.PollRetry` | src/proto/softbus_auth.c:510-527 | polling does to the object what `RetryDue` does |
| `H264.AppendNal` | src/proto/h264_testfile.c:38-50 | looking back at the buffer inserts 03 exactly where emulation prevention wants it |
| `H264.EscapeRoundTrip` | src/proto/h264_testfile.c:38-50 | removing the inserted bytes restores the content |
| `H264.EscapeSize` | src/proto/h264_testfile.c:38-50 | content grows by at most half |
| `H264.Generate` | src/proto/h264_testfile.c:52-72 | for every content stream and budget of at least 8192 the generator ends with the longest clip that fits |
| `H264.Verify` | src/proto/h264_testfile.c:161-205 | the indexed scan accepts exactly the data of at least 10 bytes that begins with a start code and whose NAL types are 7, 8, any number of 6, 5, then only 1, 5, 6, 7 and 8; it counts the start codes |
| `H264.AcceptedIff` | src/proto/h264_testfile.c:172-194 | the automaton accepts exactly SPS, PPS, any number of SEI, IDR, then only slices, SEI, SPS and PPS |
| `H264.ScanIs` | src/proto/h264_testfile.c:166-194 | the scan finds the header bytes behind all start codes, each once and in order |
| `H264.ScanStream` | src/proto/h264_testfile.c:161-205 | the scanner finds exactly the NAL units appended, in order |
| `H264.ClipIsAccepted` | src/proto/h264_testfile.c:161-205 | every clip is accepted and its units counted |
| `H264.GenerateAndVerify` | src/proto/h264_testfile.c:52-205 | generating and verifying succeeds for every content and budget |
| `DmsdpText.DecRoundTrip` | src/proto/dmsdp.c:100-121 | printed numbers are digits with that value |
| `DmsdpText.ParseDec` | src/proto/dmsdp.c:100-121 | a printed 32-bit number parses back |
| `DmsdpText.ParseBare` | src/proto/dmsdp.c:100-121 | it does so without a leading space as well |
| `DmsdpText.RangeRoundTrip` | src/proto/dmsdp.c:123-140 | a printed port range parses back |
| `DmsdpText.CrlfAfter` | src/proto/dmsdp.c:457-469 | a line without CRLF is cut exactly at the CRLF written after it, even when it ends in CR |
| `Dmsdp.ScanHeaders` | src/proto/dmsdp.c:455-481 | the header loop over positions computes `ParseHeaders` |
| `Dmsdp.ReadLines` | src/proto/dmsdp.c:455-481 | the parser reads exactly the lines that were joined |
| `DmsdpRoundTrip.EachNameFindsItself` | src/proto/dmsdp.c:342-352 | although keys may be abbreviated, each of the 30 names finds its own entry |
| `DmsdpRoundTrip.BothTransport` | src/proto/dmsdp.c:148-193 | a combined Transport value gives both port ranges |
| `DmsdpRoundTrip.ClientTransport` | src/proto/dmsdp.c:148-193 | a client-only Transport value gives the client range and leaves the server range alone |
| `DmsdpRoundTrip.ReadAll` | src/proto/dmsdp.c:359-386 | analyzing the built lines gives exactly the flagged fields |
| `DmsdpRoundTrip.ParsedIntact` | src/proto/dmsdp.c:415-495 | for every text, a parsed service id or algorithm has no CRLF, NUL or leading space |
| `DmsdpGrammar.ParseIntegerIff` | src/proto/dmsdp.c:100-121 | any value: it is a number if and only if it is spaces, a sign or none and digits, at most 16 characters, and neither nothing nor a lone sign; the low 32 bits are kept |
| `DmsdpGrammar.KeyIff` | src/proto/dmsdp.c:342-352 | a key is the first name of the table that its text without the spaces around it begins |
| `DmsdpGrammar.RefusedIff` | src/proto/dmsdp.c:359-386 | any line is refused if and only if it has no key or no value, gives no number where one is wanted, or no port of a GPS server |
| `DmsdpGrammar.LastNumberWins` | src/proto/dmsdp.c:268-335 | every numeric field holds the number of the last line for its key, cut to a byte where the field is one |
| `DmsdpGrammar.LastTextWins` | src/proto/dmsdp.c:236-262 | every text field holds what the last line for its key carries |
| `DmsdpGrammar.FlagsRaised` | src/proto/dmsdp.c:359-386 | a flag is up if and only if some line is about its key |
| `DmsdpGrammar.TransportReads` | src/proto/dmsdp.c:148-203 | any Transport value, segment by segment: a malformed client range makes it be passed over as a whole, a malformed server range only that, and it never refuses the line |
| `DmsdpGrammar.RangeIff` | src/proto/dmsdp.c:123-140 | any port range of less than 32 characters is read as one or two numbers with a dash between them, and otherwise not at all |
| `DmsdpGrammar.GpsSaysIff` | src/proto/dmsdp.c:205-234 | a GPS parameter is accepted if and only if, behind its first needle and the gaps after it, fewer than 20 characters up to a semicolon begin with a positive 32-bit number |
| `DmsdpTexts.StartIff` | src/proto/dmsdp.c:415-453 | a first line is taken if and only if it is one of the eight methods or a status line whose number and reason have at most 12 characters |
| `DmsdpTexts.ParseIff` | src/proto/dmsdp.c:415-495 | every text is parsed if and only if it is a first line that is taken, header lines none of which is refused, and a body that fits the length they announce |
| `DmsdpTexts.ParsedHolds` | src/proto/dmsdp.c:415-495 | a parsed text holds the kind of its first line, the last number and the last text for every key, the flags of its lines, and the trigger its body names |
| `DmsdpTexts.BuiltIff` | src/proto/dmsdp.c:499-569 | a message is built if and only if its kind is known, a reply says 200, the texts its flags ask for are there, and everything takes less than 1400 bytes and no more than the room given |
| `DmsdpRoundTrip.BuildParseIff` | src/proto/dmsdp.c:499-569 | the built text of a message parses to exactly its flagged fields (one byte of Backup, Simple and PolyPackage, no Codec or KaRetry bit, both Transport bits as one) if and only if the C strings it carries have no CRLF and no leading space |

## Left out

- Transports, GLib threads, references and sources, option parsing, the player and remote input: plumbing over
  libraries.
- Cryptographic internals: AES-GCM, HMAC and HKDF are unknown functions with the laws their callers rely on; JSON text
  is a record of its members.
- Clocks, randomness and the file system: timers are booleans, nonces and read, write and open results are parameters.
- fillp: one incarnation of one pair of peers; ownership of out-of-order entries; ofo_bytes is kept as the code keeps
  it, an upper bound after a replacement (`FillpRules.DriftGrows`).
- StreamRun.StreamFileEndToEnd: one direction, against a receiving end that queues anything else and never fails by
  itself; `StreamBoth` has two full sessions.
- StreamFile: SHA-256 and clip checks at completion only choose the success flag of the report and are not modelled.
- DFileCore: the block size is the 1472 that two ends of this code negotiate; a FILE_HEADER before the SETTING, which
  divides by zero in the source, cannot come from an honest peer and is read with that size.
- DFileNet: file names have 1 to 255 bytes; longer ones make the source give up a list that is partly sent. Two entries
  with one name would share a file on disk; the model keeps one file per entry.
- DFileNet: a failed send stays failed, which is what a broken connection does (`DFileResults` is over every link);
  application callbacks do not re-enter.
- DmsdpText: out-of-range `%d` and `atoi`, undefined in C, keep their low 32 bits as they do with a 64-bit long.
- DMSDP client state machine and NoCrypto framing: a handful of easy transitions.
- DFileConn: the object holds each transfer as a value that handlers replace; aliasing of file records is not modelled.
