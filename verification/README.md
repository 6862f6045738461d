# Vigil, verified

Vigil is a heartbeat monitor: a reactor (`FeedMonitor`) holds one `Connection` per feed, each connection speaks a
28-byte checksummed request/reply protocol with a peer, and a fault-injecting mock exchange (`FeedSimulator`) plays
that peer. This project models those parts in Dafny and proves what they keep over every input, every run and every
reachable state. `dafny verify dfyconfig.toml` checks all of it.

## How the model is organised

| file | what it holds |
|---|---|
| Crc32.dfy, Heartbeat.dfy, Corruption.dfy | the wire format: the table-driven CRC-32 against its bit-serial definition (clause 3.2.9 of IEEE 802.3), the codec as a bijection, and exactly which four-byte bursts the decoder rejects |
| Rings.dfy, Stats.dfy | ring storage as a sliding window; RTT statistics and percentile |
| ConnectionModel.dfy, Connection.dfy | one connection, as functions on values and as the class that updates its fields in place with loops; the class is proved to have exactly the effect of the functions |
| ConnectionRuns.dfy, Conformance.dfy, Detection.dfy, Attempts.dfy, Baselines.dfy, Reassembly.dfy, EvidenceReads.dfy | every run of one connection: outbound FIFO, lifecycle, handshake conformance, detection and attempt times, timeout changes, stream reassembly, and which PONGs of a read count |
| Protocol.dfy, ProtocolRuns.dfy | initiator and responder joined by two byte streams, under any drop/defer schedule, segmentation, partial write, kill and reconnect |
| PingHistory.dfy, Exchange.dfy, Answered.dfy, FaultRun.dfy | everything an initiator says, step by step; that a handshake or heartbeat whose frames arrive succeeds; and the one run in which an honest pair reports a fault |
| Slots.dfy, Pacing.dfy, Retries.dfy, SlotStore.dfy, FeedMonitor.dfy | the monitor: backoff, retry budget and timing of one slot, the vector with its two indexes, and the class that updates them |
| PlainMonitor.dfy, MonitorRuns.dfy | every run of the monitor: a machine on a plain map from feed id to slot, and the refinement of it by the vector with its indexes |
| FeedSimulator.dfy, Liveness.dfy, SimProjection.dfy | the mock exchange: client map and deferred-reply queue; exactly when it reaps a client; and every operation of it as moves of the two-party system's responder |
| Integration.dfy, Pairs.dfy, Deployment.dfy | the monitor drives its connections only through the steps that the run theorems quantify over; so protocol safety holds of every feed of a monitor and the simulators it connects to, former attempts included |
| SlotHistory.dfy, StoredFeeds.dfy | the connection of a slot as a run of connection steps; so detection time, no premature failure, reassembly, soundness, retry budget and pacing hold of the slot stored for each feed |

The kernel, the clock and the random generators are inputs. Each call that talks to a socket is given the list of
answers it will get (bytes received, bytes accepted, would-block, error, end of stream); the clock value is a
parameter; a new descriptor is any one that is not open. A connection also keeps a record of what it did in the
current attempt (frames queued, bytes the kernel took, frames handled, evidence accepted) and of the reasons it
logged. The source has no such record: it is what lets theorems speak about whole runs. The same holds for the
counters `alerts` and `forced` of a slot and `instance` of a client.

## Where the code differs from what is written about it

The model follows the code.

- **Failure inside a tick.** `send_ping` can fail the connection, and `check_timeout` then returns false
  (src/connection.cpp:403), so nobody handles the failure: the feed stays in the fd index, contrary to
  src/feed_monitor.h:72-78. It happens in exactly the ticks in which a PING is due on a live connection and its write
  is refused: the frame would cross the 64 KiB cap, or nothing is pending and the kernel answers the send with an
  error or takes nothing (`Refused`, `QueueWriteFails`, `PingFailsExactly`, `UnnoticedExactly`). The model carries the
  set `stuck` of such feeds. `DocumentedIndex` proves the documented invariant equivalent to `stuck` being empty, and
  `RunRefines` that `stuck` is exactly the feeds failed by their own PING and not served an event since. Two
  operations turn this into damage. Swap-and-pop leaves a stale index entry if and only if it moves such a feed
  (`RemoveExactly`). A manual reconnect of such a feed changes no index by itself, but the next tick moves the feed
  to a new socket and leaves its closed descriptor in the fd index and a reconnect without an alert, if and only if
  the failure was unhandled (`ReconnectThenTick`). A run that avoids those two is *guarded*; one without such ticks
  is *clean*, and then guarded.
- **Responder handshake.** A failed write of CONNECT_ACK is overridden by the transition to Healthy
  (src/connection.cpp:192-197), if and only if that write is refused in the same sense (`MaskedExactly`). Between
  calls kFailed is nevertheless absorbing for both roles: `FailedAbsorbing`.
- **Reading after failure.** A client that failed while a deferred reply was sent, which happens exactly when it was
  Healthy and the write was refused (`ReplyFailsExactly`), stays served
  (src/feed_simulator.cpp:270-282), and the simulator reads it without looking at its state
  (src/feed_simulator.cpp:183-185): its next complete frame is reported as a protocol violation. `PeerFaultExactly`
  proves that this is the only way an honest pair ever reports one, and `HonestPairCanFault` gives a run from the
  start that does. The monitor does look (src/feed_monitor.cpp:242), so its connections never report one:
  `EveryFeedSafe`. `IniFaultExactly` says exactly what that guard prevents.
- **Blind burst.** The checksum is stored most significant byte first, while the register is reflected. A burst across
  the payload/checksum boundary is therefore not always seen: of all differences confined to four consecutive bytes
  anywhere in the frame, exactly one (61 d8 f4 ee at offset 22) is accepted. Inside the payload there is none.
- **Simulator timeouts.** src/feed_simulator.h:14-18 calls `check_timeout` a no-op for responders; the code fails a
  responder that has been silent for one timeout (src/connection.cpp:391-402), and so does the model.
- **Retry counter.** `reconnect_attempts` is reset only by a manual reconnect, never by a completed handshake. The
  retry budget is stated accordingly.

Assumptions: timeouts are positive where a theorem speaks of missed heartbeats (the command line does not check
this), the reconnect cap is at most 2^62 ns, and clock values are non-negative 64-bit integers. Time need not be
monotone from step to step: one batch of events shares a clock value that a tick in it overtakes. Theorems about time
say what they need of the ticks or of the baselines.

## Model

| member | source | states |
|---|---|---|
| `Crc32.MakeTable` | src/heartbeat.cpp:13-25 | The nested table-filling loops leave, at every index i, byte i shifted eight times through the reflected register with polynomial 0xEDB88320. |
| `Crc32.Crc32Ieee` | src/heartbeat.cpp:41-47 | The table loop returns the bit-serial CRC-32 (preset to ones, one message bit at a time, complemented) of the first len bytes, for every byte string. |
| `Crc32.BitSerialIsRun` | src/heartbeat.cpp:41-47 | Feeding a string bit by bit equals stepping the register byte by byte. |
| `Crc32.TableStep` | src/heartbeat.cpp:41-47 | Eight shifts of any register are the table value of its low byte added to its other three bytes moved down: why one lookup per byte suffices. |
| `Crc32.TableLookup` | src/heartbeat.cpp:41-47 | One iteration of the loop, index expression included, is one byte step. |
| `Crc32.ShiftsLinear` | src/heartbeat.cpp:13-25 | Any number of shifts is linear over XOR. |
| `Crc32.ShiftsInjective` | src/heartbeat.cpp:13-25 | Any number of shifts loses no information. |
| `Heartbeat.BigEndianRoundTrip` | src/heartbeat.cpp:49-79 | Reading back a big-endian field of n bytes gives the number written, for every number that fits. |
| `Heartbeat.FromBigEndianRoundTrip` | src/heartbeat.cpp:81-126 | Writing what was read from n bytes reproduces those bytes. |
| `Heartbeat.DecodeEncode` | src/heartbeat.cpp:49-126 | For every message, negative timestamps included, decoding its encoding returns its fields with the checksum filled in if magic, version and type are valid, and fails otherwise. |
| `Heartbeat.EncodeDecode` | src/heartbeat.cpp:81-126 | Every buffer the decoder accepts is, byte for byte, the encoding of the message it returned, and that message is valid. |
| `Heartbeat.EncodeInjective` | src/heartbeat.cpp:49-79 | Messages with the same encoding agree in every field but the ignored input checksum. |
| `Heartbeat.PutBigEndian` | src/heartbeat.cpp:49-79 | Writing one field in place puts its big-endian bytes at the offset and leaves every other byte of the buffer alone. |
| `Heartbeat.PutPayload` | src/heartbeat.cpp:49-79 | The six field writes at a moving offset fill exactly the 24 covered bytes, in layout order. |
| `Heartbeat.EncodeHeartbeat` | src/heartbeat.cpp:49-79 | The buffer ends up holding exactly the encoding of the message; DecodeEncode is its inverse. |
| `Heartbeat.DecodeHeartbeat` | src/heartbeat.cpp:81-126 | Accepts and rejects exactly as the specification that EncodeDecode inverts, and returns its message. |
| `Corruption.RunDifference` | src/heartbeat.cpp:41-47 | Two four-byte words fed to the same register leave it different by exactly the word difference shifted 32 times. |
| `Corruption.RunInjective` | src/heartbeat.cpp:41-47 | Feeding the same bytes never makes two different registers equal. |
| `Corruption.PayloadDifference` | src/heartbeat.cpp:99-106 | Payloads that differ only inside four consecutive bytes have different checksums. |
| `Corruption.PayloadBurstRejected` | src/heartbeat.cpp:99-106 | For every message, every corruption of its frame confined to at most four consecutive payload bytes is rejected. |
| `Corruption.TwoByteTail` | src/heartbeat.cpp:99-106 | Exactly one nonzero two-byte difference leaves the low half of the register unchanged after 16 shifts. |
| `Corruption.BlindAccepted` | src/heartbeat.cpp:99-106 | For every valid message, the difference 61 d8 f4 ee at offset 22 yields a different frame that is accepted. |
| `Corruption.BurstDetection` | src/heartbeat.cpp:99-106 | Over all 28 bytes: a frame altered inside some four consecutive bytes is accepted if and only if it is that one blind difference. |
| `Rings.SlideAllIsLast` | src/stats.h:24-52 | Sliding a window of capacity n over any pushes leaves the last min(pushes, n) values, in order. |
| `Rings.PushSlides` | src/stats.h:27-33 | Overwriting at the cursor and advancing it modulo the capacity slides the window, wrap-around included. |
| `Rings.ScanFindsWindow` | src/connection.cpp:249-256 | The filled part of the storage and the window have the same members with the same multiplicities. |
| `Stats.RingBuffer.Push` | src/stats.h:27-33 | After any pushes the ring stands for exactly the last min(pushes, N) values pushed. |
| `Stats.RingBuffer.SortedCopy` | src/stats.h:39-43 | Returns a sorted permutation of exactly the values in the window. |
| `Stats.SortedUnique` | src/stats.h:39-43 | There is only one such permutation. |
| `Stats.RecordSummarises` | src/stats.h:77-86 | Recording one RTT keeps: counter, attained minimum and maximum, EWMA between them, window of the last 256 samples. |
| `Stats.RecordAllSummarises` | src/stats.h:77-86 | These hold after any run of RTTs the evidence filter lets through. |
| `Stats.EwmaIsWeighted` | src/stats.h:77-86 | Over every nonempty run the EWMA is the weighted sum of all RTTs: sample i of n weighs 1/5 * (4/5)^(n-1-i), the first one (4/5)^(n-1). |
| `Stats.PercentileInRange` | src/stats.cpp:3-20 | Over any sorted nonempty window the interpolated percentile stays between the smallest and the largest sample, for every p. |
| `Stats.PercentileMonotone` | src/stats.cpp:3-20 | It is monotone in p and reaches the ends of the range at 0 and 100. |
| `Stats.PercentileBetween` | src/stats.cpp:13-19 | At a fraction f of the way from sample i to the next, the percentile is that fraction of the way between their values. |
| `ConnectionModel.Flush` | src/connection.cpp:446-469 | Whatever the kernel answers, bytes sent followed by bytes pending are unchanged, and only the outbound side, or the state by failing, changes. |
| `ConnectionModel.QueueWrite` | src/connection.cpp:426-444 | Appends exactly one encoded frame to the outbound stream; a result over 64 KiB is a failed connection. |
| `ConnectionModel.QueueWriteFails` | src/connection.cpp:426-469 | Queueing a frame fails a connection if and only if the write is refused, by the cap or by the kernel's first answer, and the reason logged says which. |
| `ConnectionModel.HandlersLeaveInput` | src/connection.cpp:153-306 | No handler touches the bytes still to be parsed or the record of frames handled. |
| `ConnectionClass.Connection.constructor` | src/connection.cpp:26-43 | An initiator starts connecting, a responder handshaking, with empty buffers and window. |
| `ConnectionClass.Connection.HasAckedSequence` | src/connection.cpp:249-256 | The scan answers true exactly for the members of the acknowledged window. |
| `ConnectionClass.Connection.RememberAckedSequence` | src/connection.cpp:258-264 | The ring update slides the window of the last 32. |
| `ConnectionClass.Connection.FlushWriteBuffer` | src/connection.cpp:446-469 | The send loop over 512-byte chunks has the effect of Flush, for every list of kernel answers. |
| `ConnectionClass.Connection.QueueWrite` | src/connection.cpp:426-444 | In place, the effect of QueueWrite, for which the outbound FIFO is proved. |
| `ConnectionClass.Connection.SendPong` | src/connection.cpp:228-243 | In place, the reply whose conservation DrainConserved and ReplyStep prove. |
| `ConnectionClass.Connection.SendPing` | src/connection.cpp:340-354 | In place, the PING that InvAuthentic matches evidence with. |
| `ConnectionClass.Connection.OnWritable` | src/connection.cpp:308-334 | In place, connect completion with HELLO, or a flush; part of every run of RunSound. |
| `ConnectionClass.Connection.OnHangupOrError` | src/connection.cpp:336-338 | Fails the connection and changes nothing else. |
| `ConnectionClass.Connection.HandleConnectHello` | src/connection.cpp:176-198 | In place, the responder's half of the handshake, its masking of a failed write included. |
| `ConnectionClass.Connection.HandleConnectAck` | src/connection.cpp:200-214 | In place, the initiator's half of the handshake. |
| `ConnectionClass.Connection.HandlePing` | src/connection.cpp:216-226 | In place, liveness as SilenceExactly measures it, plus reply, drop or defer as DrainVerdicts says. |
| `ConnectionClass.Connection.HandlePong` | src/connection.cpp:266-306 | In place, the filter that ReadsFilterEvidence characterises. |
| `ConnectionClass.Connection.DrainReadBuffer` | src/connection.cpp:125-151 | The loop behind a moving offset, erasing once at the end, handles the same frames with the same effect as taking them off one by one. |
| `ConnectionClass.Connection.OnReadable` | src/connection.cpp:64-123 | The recv loop, the cap, the drain and the ending together have the effect that StreamReassembly and FramesBeforeEof speak about. |
| `ConnectionClass.Connection.CheckTimeout` | src/connection.cpp:356-406 | In place, one tick as ExactDetection, AttemptTick and SilenceExactly measure it in its three kinds of state, with the flag that says this call failed the connection. |
| `ConnectionClass.Connection.ResetLivenessBaseline` | src/connection.h:106-106 | Moves the liveness baseline, as TimeoutChange measures it, and nothing else. |
| `ConnectionClass.Connection.Rebind` | src/connection.cpp:408-424 | Clears everything that belongs to the attempt, restarts its clock as AttemptTick and AttemptLimit measure it, and keeps the cumulative statistics, counting one reconnect. |
| `ConnectionClass.HandledAhead` | src/connection.cpp:125-151 | Handling a message commutes with replacing the unparsed bytes: why erasing late is the same as erasing early. |
| `ConnectionRuns.ApplySound` | src/connection.cpp:64-469 | Every call of every kind keeps the four invariants FIFO, lifecycle, exact window and honest statistics. |
| `ConnectionRuns.RunSound` | src/connection.cpp:64-469 | After every run of any connection: sent then pending bytes are all queued frames in order and at most 64 KiB are pending unless failed; Healthy means zero misses and a matching CONNECT_ACK first in this attempt, Degraded between 1 and max_missed - 1 misses; the acknowledged ring is exactly the last min(n, 32) processed sequences, pairwise distinct; every RTT lies in [0, timeout) and min <= EWMA <= max. |
| `Conformance.RunConforms` | src/connection.cpp:153-306 | After every run of either role, whoever is at the other end, a connection that has not failed has handled in this attempt nothing but the CONNECT_ACK (or CONNECT_HELLO) for its own feed and then only PONGs (or PINGs); it is up exactly if it has handled the first, and has no connected-since time until then. |
| `EvidenceReads.ReadsFilterEvidence` | src/connection.cpp:64-306 | A live initiator that reads only whole PONGs, in any number and any cut, counts exactly those that are neither repeats within the window at that point, nor a timeout old, nor dated in the future, in order, each with its own RTT; it ends Healthy with fresh liveness if there is one, and is otherwise unchanged but for window and buffer; an end of stream or error in the same call fails it only after that. |
| `EvidenceReads.UselessReads` | src/connection.cpp:249-306 | Such a read leaves state, misses, liveness and statistics as they were if and only if each of its PONGs is a duplicate, stale or future-dated. |
| `Detection.ReadOutcome` | src/connection.cpp:64-306 | Whatever bytes arrive, a read leaves the miss counter's fields alone, refreshes them because evidence was accepted or the handshake completed, or fails the connection. |
| `Detection.FailedAbsorbing` | src/connection.cpp:64-424 | Between calls, kFailed is left only by rebind. |
| `Detection.MaskedExactly` | src/connection.cpp:192-197 | A matching HELLO always ends Healthy, and masks a failed write of CONNECT_ACK if and only if that write was refused. |
| `Detection.ResponderRevives` | src/connection.cpp:192-197 | A concrete call in which it does. |
| `Detection.QuietRun` | src/connection.cpp:374-389 | Without evidence and with ticks at most T apart, other steps carrying any time at all and the evidence possibly older than the tick of its batch, the miss count is the number of whole timeouts up to the last tick, until it reaches max_missed. |
| `Detection.ExactDetection` | src/connection.cpp:356-390 | From evidence at R and with ticks at most delta <= T apart, counted from a tick less than T after R, the connection has failed if and only if a tick at or after R + M*T has happened; the failing step is a tick in [R + M*T, R + M*T + delta). |
| `Detection.AttemptLimit` | src/connection.cpp:356-424 | From the time carried by the construction or by the reconnect that begins an attempt: with ticks at most delta apart and no wakeup later than delta after the last tick, no step at or after start + 2(T + delta) finds it still connecting or handshaking. |
| `Attempts.AttemptTick` | src/connection.cpp:356-424 | On every run, a tick that finds the initiator connecting or handshaking fails it if and only if T has passed since the step that opened that phase: construction or reconnect, then connect completion. |
| `Attempts.AttemptFailsExactly` | src/connection.cpp:356-424 | An attempt that nobody answers and that only ticks may fail has failed if and only if some tick came T or more after its phase was opened. |
| `Attempts.NotBefore` | src/connection.cpp:408-424 | No tick before start + T fails an attempt begun at start whose connect was not completed at an earlier time. |
| `Detection.BalancedRun` | src/connection.cpp:374-389 | On every run whose baselines are dated no earlier than what came before, other steps in any order of their times, evidence time plus the timeouts charged since never exceeds the liveness baseline, through timeout changes, resets and reconnects. |
| `Detection.NoPrematureFailure` | src/connection.cpp:374-389 | On the same runs, when a tick fails a live initiator it has been without evidence for at least the sum of the timeouts charged, one per miss, however often the timeout changed. |
| `Baselines.TimeoutChange` | src/feed_monitor.cpp:454-465 | After the timeout is changed to T at t, no tick before t + T charges a miss, and without newer evidence the next tick charges one if and only if it comes at or after t + T. |
| `Baselines.MissesCounted` | src/connection.cpp:374-389 | Over every run the missed statistic counts exactly the ticks that raised the count of consecutive misses. |
| `Reassembly.ParseConcat` | src/connection.cpp:125-151 | Parsing resumes from the leftover bytes across any cut, and a bad frame stops it for good. |
| `Reassembly.DrainParses` | src/connection.cpp:125-151 | A drain handles a prefix of the frames of the buffer: all of them unless a handler fails the connection, and it reports corruption only at the first bad frame. |
| `Reassembly.FramesBeforeEof` | src/connection.cpp:64-123 | Complete frames read in the same call as the end of stream are all handled before the close takes effect. |
| `Reassembly.OverflowExactly` | src/connection.cpp:64-95 | A read crosses the cap if and only if the buffer and what it receives are together over 64 KiB. |
| `Reassembly.ReadCap` | src/connection.cpp:64-95 | It then fails the connection, and none of the frames received is handled. |
| `Reassembly.DisconnectCloses` | src/connection.cpp:153-174 | A DISCONNECT fails the connection as closed by the peer, and nothing after it is handled. |
| `Reassembly.StreamReassembly` | src/connection.cpp:64-151 | On every run that ends unfailed, reconnects included, the frames handled in the current attempt and the bytes left over are those of parsing everything received in it in one piece, however it was cut. |
| `Reassembly.StreamStops` | src/connection.cpp:64-151 | In any attempt, a read handles frames of the attempt's whole stream in order up to where it stops, and a corrupt frame is reported only if it is the first bad frame of the stream and everything before it was handled. |
| `Protocol.NextFrame` | src/connection.cpp:125-151 | The next complete frame a reader sees is the next frame its peer queued, and decodes to that very message. |
| `Protocol.PeerHandles` | src/connection.cpp:176-243 | No frame an initiator can send surprises a responder that has not failed; replies never outnumber PINGs. |
| `Protocol.IniHandles` | src/connection.cpp:200-306 | No frame an honest responder can send surprises an initiator that has not failed; evidence stays within the PONGs handled. |
| `ProtocolRuns.NextInv` | src/connection.cpp:64-469 | Every enabled move of either side keeps the joint invariant. |
| `ProtocolRuns.RunInv` | src/connection.cpp:64-469 | The joint invariant holds in every state of every run. |
| `ProtocolRuns.InvAuthentic` | src/connection.cpp:266-306 | Accepted evidence, as a multiset of (sequence, timestamp), is included in the PINGs of the attempt; each RTT is the time of the accepting read minus the echoed timestamp; heartbeats_acked <= heartbeats_sent. |
| `ProtocolRuns.ProtocolSafety` | src/feed_simulator.cpp:170-283 | In every reachable state of an initiator and the client of its current attempt, under any drops, deferrals, cuts, partial writes, kills and reconnects: no protocol fault on the initiator or on that client while served, HELLO-then-PINGs against ACK-then-PONGs, and authenticity. EveryFeedSafe adds the clients of earlier attempts. |
| `ProtocolRuns.PeerFaultExactly` | src/feed_simulator.cpp:170-196 | A responder reports a protocol fault if and only if it is read after having failed and the read completes a frame within the cap. |
| `ProtocolRuns.IniFaultExactly` | src/feed_monitor.cpp:242-244 | What the guard on the monitor's read prevents: `on_readable` on an initiator of an honest pair would report a fault if and only if it had failed and the read completes a frame other than DISCONNECT within the cap. |
| `ProtocolRuns.ReplyFailsExactly` | src/connection.cpp:228-243 | Sending a deferred reply fails a client if and only if it is Healthy and the write is refused. |
| `FaultRun.FailedReplyStaysServed` | src/feed_simulator.cpp:270-282 | From any reachable state, a deferred reply to a Healthy client fails it exactly when its write is refused, and leaves it served, with the joint invariant intact. |
| `FaultRun.NextReadFaults` | src/feed_simulator.cpp:183-185 | The next read of such a client that completes a frame is reported as a protocol fault, and the client is removed. |
| `FaultRun.HonestPairCanFault` | src/feed_simulator.cpp:170-283 | For every feed there is a run from the start (handshake, a PING deferred, a second PING, the failed reply) that ends in that fault. |
| `PingHistory.RunNumbered` | src/connection.cpp:308-354 | In every reachable state the frames queued in the attempt are one HELLO and then one PING per ping step, numbered 0, 1, 2, ... modulo 2^64 and dated with that step's time; nothing else is ever queued. |
| `PingHistory.EveryRttHasItsPing` | src/connection.cpp:266-306 | Every RTT accepted in the attempt is the time from a particular ping step, identified by its sequence number, to the read that accepted it. |
| `Exchange.HandshakeCompletes` | src/connection.cpp:64-214 | If the connect succeeds and the bytes of HELLO and ACK arrive, in any partial sends and any reads of one or several wakeups, with any other unfailing work of the two sides in between, both end Healthy with liveness from the moment each heard the other. |
| `Exchange.FlushProgress` | src/connection.cpp:446-469 | A flush sends as many 512-byte chunks as the kernel takes, up to the end of the queue. |
| `Exchange.FlushStops` | src/connection.cpp:446-469 | A kernel that takes less than it is offered ends the flush after exactly what it took. |
| `Exchange.WriteInterestExactly` | src/connection.cpp:60-62 | Write interest is wanted if and only if a writability event would do something. |
| `Exchange.HeartbeatRoundTrip` | src/connection.cpp:64-354 | From any two live sides between which no other frame is outstanding: a PING sent at t and answered at once, in any partial sends and any reads, whose PONG is completed at v with v - t under the timeout and its number not in the window, leaves the initiator Healthy with no misses, fresh liveness and exactly v - t recorded. |
| `Answered.DrainVerdicts` | src/connection.cpp:125-243 | For the PINGs of a read, a Healthy responder queues at once exactly one echoing PONG for each that the interceptor lets go, puts off exactly those it defers, each for its own time, and drops the rest, in order. |
| `Answered.EveryAnswerCounts` | src/connection.cpp:64-354 | In any run of the two-party system, with any other PINGs and replies outstanding and frames shared or split by reads: a PING sent at t whose answer the initiator handles at v, under the timeout and with its number not in the window at that point, leaves it Healthy with no misses, liveness v, and v - t among the RTTs just recorded. |
| `Pacing.PingsPaced` | src/feed_monitor.cpp:351-360 | Over every run of a slot, heartbeats_sent is exactly the number of ticks that found a live connection and a PING due, and consecutive ones are at least the interval apart that was in force at the earlier. |
| `Pacing.ReconnectOnTime` | src/feed_monitor.cpp:275-330 | A waiting slot reconnects at exactly the first tick at or after its ready time, once; without a socket it waits 3/4 to 5/4 of the next backoff, or gives up exactly when its attempts are spent. |
| `Slots.BackoffLoop` | src/feed_monitor.cpp:288-302 | The doubling loop with early exit computes min(base * 2^min(attempt, 30), max) and never leaves int64. |
| `Slots.BackoffMonotone` | src/feed_monitor.cpp:288-302 | The delay is monotone in the attempt and never above the cap. |
| `Slots.JitterBounds` | src/feed_monitor.cpp:304-307 | Jitter and truncation keep the delay within 3/4 and 5/4 of the backoff, up to one nanosecond. |
| `Slots.JitterFollows` | src/feed_monitor.cpp:304-307 | The delay is monotone in the jitter, from exactly 3/4 to exactly 5/4 of the backoff, truncated. |
| `Slots.EventKeeps` | src/feed_monitor.cpp:225-268 | An event on a watched slot keeps the slot's invariant: failure accounting, pending or given up exactly when failed, budget. |
| `Slots.PingFailsExactly` | src/feed_monitor.cpp:351-360 | The tick's own PING fails a live connection if and only if one is due and its write is refused. |
| `Slots.LiveTickKeeps` | src/feed_monitor.cpp:351-362 | A tick on a live slot keeps it too, except that the slot is left unhandled exactly when its own PING failed it. |
| `Slots.ConnectKeeps` | src/feed_monitor.cpp:310-330 | A due reconnect keeps it, with or without a socket. |
| `Slots.CommandsKeep` | src/feed_monitor.cpp:147-175 | So do manual disconnect, manual reconnect and a new liveness baseline. |
| `Slots.RetryBudget` | src/feed_monitor.cpp:159-286 | On every run, clean or not, with k effective manual reconnects and max_reconnect_attempts = m >= 0 at most (k + 1) * m + k rebinds happen; a pending reconnect or giving up implies kFailed. |
| `Retries.GivesUpExactly` | src/feed_monitor.cpp:159-286 | On every run, an answered failure (or a reconnect without a socket) ends in giving up if and only if m >= 0 waits have been scheduled since the start or the last effective manual reconnect: a manual reconnect restores the whole budget. |
| `Retries.FailedOnce` | src/feed_monitor.cpp:147-268 | A hangup, a connect reported as failed and the operator's disconnect each fail the slot with one alert, and give up exactly when the attempts are spent or wait 3/4 to 5/4 of the backoff from the clock of the failure. |
| `SlotStore.ReplaceWatched` | src/feed_monitor.cpp:225-252 | Updating a watched slot and its write interest keeps all indexes exact and updates exactly one key of the plain map. |
| `SlotStore.ReplaceFailed` | src/feed_monitor.cpp:254-268 | So does taking a failed slot out of the fd index and the epoll set. |
| `SlotStore.ReplaceRebound` | src/feed_monitor.cpp:310-330 | So does moving a handled failure to a descriptor that was not open. |
| `SlotStore.Pushed` | src/feed_monitor.cpp:81-107 | So does appending a slot for a new feed. |
| `SlotStore.RemoveExactly` | src/feed_monitor.cpp:117-145 | Swap-and-pop removes exactly the addressed feed from the plain map, and keeps the indexes exact if and only if it does not move a slot with an unhandled failure. |
| `SlotStore.StaleEntry` | src/feed_monitor.cpp:139-144 | When it does, the fd index is left pointing one past the end of the vector. |
| `FeedMonitorClass.FeedMonitor.constructor` | src/feed_monitor.cpp:18-50 | A new monitor is the empty map with exact indexes. |
| `FeedMonitorClass.FeedMonitor.AddFeed` | src/feed_monitor.cpp:81-107 | Succeeds exactly for a new feed that gets a socket; then adds that one key on a fresh descriptor, and otherwise changes nothing. |
| `FeedMonitorClass.FeedMonitor.RemoveFeed` | src/feed_monitor.cpp:109-115 | Removes exactly that key, closes its descriptor, and leaves exact indexes if and only if no unhandled failure moved. |
| `FeedMonitorClass.FeedMonitor.RemoveSlotAt` | src/feed_monitor.cpp:117-145 | The in-place swap-and-pop has the effect RemoveExactly is about. |
| `FeedMonitorClass.FeedMonitor.ForceDisconnect` | src/feed_monitor.cpp:147-157 | Changes the addressed feed only, and is a no-op on a feed that is unknown or has failed. |
| `FeedMonitorClass.FeedMonitor.ForceReconnect` | src/feed_monitor.cpp:159-175 | Changes the addressed feed only, restoring its retry budget as GivesUpExactly measures it, and leaves every index exact; the slot accounting survives unless that feed's failure is unhandled. |
| `FeedMonitorClass.FeedMonitor.SetHeartbeatInterval` | src/feed_monitor.cpp:450-452 | Changes one configuration field and no slot. |
| `FeedMonitorClass.FeedMonitor.SetHeartbeatTimeout` | src/feed_monitor.cpp:454-465 | Gives every feed a fresh baseline and changes nothing else. |
| `FeedMonitorClass.FeedMonitor.Dispatch` | src/feed_monitor.cpp:192-216 | An event reaches exactly the feed that owns the descriptor; an event for an unmapped descriptor changes nothing. |
| `FeedMonitorClass.FeedMonitor.HandleConnectionEvent` | src/feed_monitor.cpp:225-252 | Keeps all indexes exact, changes the addressed feed only, and handles an unhandled failure of it. |
| `FeedMonitorClass.FeedMonitor.OnConnectionFailed` | src/feed_monitor.cpp:254-268 | One alert, one schedule, and the descriptor out of index and epoll set. |
| `FeedMonitorClass.FeedMonitor.ScheduleReconnectAt` | src/feed_monitor.cpp:275-286 | Gives up when the budget is spent, otherwise schedules after the jittered backoff and charges one attempt. |
| `FeedMonitorClass.FeedMonitor.InitiateConnect` | src/feed_monitor.cpp:310-330 | A fresh socket, rebind and registration, or another wait; no other slot changes and the indexes stay exact. |
| `FeedMonitorClass.FeedMonitor.OnTimerTick` | src/feed_monitor.cpp:340-376 | The in-place loop ticks every feed once and independently, keeps the indexes exact, and leaves unhandled exactly the feeds whose own PING failed them in this tick. |
| `FeedMonitorClass.FeedMonitor.SnapshotStats` | src/feed_monitor.cpp:467-489 | Counts slots by state; reconnecting <= failed; with nothing unhandled the fd index has one entry per slot that has not failed. |
| `FeedMonitorClass.IndexCount` | src/feed_monitor.h:72-79 | The documented size of the fd index. |
| `FeedMonitorClass.EventStep` | src/feed_monitor.cpp:225-268 | One event refines a one-key update of the plain map and keeps all indexes. |
| `FeedMonitorClass.ReconnectThenTick` | src/feed_monitor.cpp:159-175 | A manual reconnect of a failed feed followed by the tick that finds it due: the fd index is exact, and so is the account of alerts, if and only if the failure had been handled; otherwise a closed descriptor stays mapped and one reconnect has no alert. |
| `MonitorRuns.DoRefines` | src/feed_monitor.cpp:81-465 | Every guarded operation, clean or not, keeps all indexes exact and is one step of the plain machine: an event goes to the feed that owns the descriptor, a tick or command to the feed it names. |
| `MonitorRuns.RunRefines` | src/feed_monitor.cpp:81-465 | After every guarded run the store stands for exactly the plain machine's result on the same operations: the same slot for every feed, and `stuck` exactly the feeds their own PING failed that have not been served an event since. |
| `MonitorRuns.CleanRuns` | src/feed_monitor.h:72-79 | On every clean run from an empty monitor: the store follows the plain machine, descriptors are distinct and exactly the open ones, the fd index holds exactly the slots that have not failed, write interest is armed exactly when wanted, alerts = reconnects + (1 if failed), and every failed slot is pending or has given up. |
| `PlainMonitor.OthersUntouched` | src/feed_monitor.cpp:81-376 | An operation leaves the slot of every feed it does not address exactly as it was; by the refinement this includes swap-and-pop. |
| `PlainMonitor.LifeIsSlotRun` | src/feed_monitor.cpp:81-465 | What one feed goes through in a run of the monitor is a run of its slot: its own events, ticks and commands and the timeout changes, each under the configuration of its time. |
| `PlainMonitor.EveryFeedPaced` | src/feed_monitor.cpp:275-376 | So the retry budget and the heartbeat pacing hold of every feed of every run of the monitor. |
| `MonitorRuns.DocumentedIndex` | src/feed_monitor.h:72-79 | The documented fd-index invariant holds if and only if no failure is unhandled. |
| `MonitorRuns.UnnoticedExactly` | src/feed_monitor.cpp:351-362 | A tick fails a live feed without alert or schedule if and only if a PING is due and its write is refused; every other failure in a tick is alerted once. |
| `MonitorRuns.PingCanFail` | src/feed_monitor.cpp:351-362 | Such ticks exist: a healthy connection with nothing pending, a due PING and a failing send. |
| `FeedSimulatorClass.DrainConserved` | src/connection.cpp:216-243 | Whatever any peer sends, PONGs queued plus replies deferred plus replies owed stay within the PINGs handled, sequence and timestamp included. |
| `FeedSimulatorClass.FeedSimulator.AcceptNewConnection` | src/feed_simulator.cpp:130-168 | Adds one fresh client with no reply owed to it, whatever its descriptor number meant before. |
| `FeedSimulatorClass.FeedSimulator.HandleClientEvent` | src/feed_simulator.cpp:170-203 | Serves only the addressed client, removes it exactly when it failed, and keeps write interest synchronised. |
| `FeedSimulatorClass.FeedSimulator.RemoveClient` | src/feed_simulator.cpp:205-216 | Removes the client and exactly its pending replies. |
| `FeedSimulatorClass.FeedSimulator.KillConnection` | src/feed_simulator.cpp:285-304 | Removes whichever connected client was picked, and nothing else. |
| `FeedSimulatorClass.FeedSimulator.CheckClients` | src/feed_simulator.cpp:253-258 | Runs check_timeout on every client, collects exactly those it fails, and leaves all others exactly as they were. |
| `FeedSimulatorClass.FeedSimulator.ReapClients` | src/feed_simulator.cpp:253-261 | Removes exactly the clients that timed out, with their replies, and nothing else changes. |
| `FeedSimulatorClass.FeedSimulator.OnTimerTick` | src/feed_simulator.cpp:240-283 | Reaps, then sends exactly the replies that are due, in queue order, and keeps exactly the others. |
| `FeedSimulatorClass.ReplyStep` | src/feed_simulator.cpp:270-282 | A queued reply always finds its client, the instance that received the PING, so the "client disconnected" case is unreachable; sending it spends exactly one owed reply. |
| `FeedSimulatorClass.FireKeeps` | src/feed_simulator.cpp:270-282 | The invariant holds at every point of the loop over the queue. |
| `FeedSimulatorClass.DeferredReplyIntegrity` | src/feed_simulator.cpp:205-283 | On every run: pending replies belong to live clients of the same instance even when descriptor numbers are reused, each PING yields at most one PONG with its own sequence and timestamp, and write interest is armed exactly when wanted. |
| `Liveness.SilenceExactly` | src/connection.cpp:356-402 | On every run of a responder, a tick fails it if and only if T has passed since it was accepted or since the last step that handled a HELLO or a PING. |
| `Liveness.ReapedExactly` | src/feed_simulator.cpp:240-261 | On every run of the simulator, whatever its clients send, a tick removes a client that has not failed if and only if T has passed since it was accepted and since the last event that handled a HELLO or a PING of it. |
| `Integration.EventIsSteps` | src/feed_monitor.cpp:225-252 | One epoll event on the monitor is a hangup step, or a write step followed by a read step of the run theorems. |
| `Integration.SlotRunSound` | src/feed_monitor.cpp:225-376 | On every run of a slot, RunSound's invariants hold of its connection. |
| `SlotHistory.SlotRunIsRun` | src/feed_monitor.cpp:225-376 | The connection of a slot, after any run of it, is the result of a run of connection steps: those of its events, ticks and commands, in order. |
| `SlotHistory.SlotDetects` | src/feed_monitor.cpp:340-376 | A slot whose peer has fallen silent fails at exactly the first tick at or after R + M*T, and is then scheduled or given up, on the same attempt. |
| `SlotHistory.SlotNotPremature` | src/feed_monitor.cpp:340-465 | A slot that its timer fails has been without evidence for at least the sum of the timeouts charged, whatever the operator changed. |
| `SlotHistory.SlotReassembles` | src/connection.cpp:64-151 | A slot that is up has handled exactly the frames of the bytes received in its current attempt. |
| `SlotHistory.SlotAttemptTimed` | src/feed_monitor.cpp:310-376 | A tick that finds a slot connecting or handshaking fails it if and only if T has passed since the phase was opened: by adding the feed or by the tick that reconnected it, then by the connect completing. |
| `StoredFeeds.EveryStoredFeedSound` | src/feed_monitor.cpp:81-465 | Along every guarded run of the vector with its indexes, the slot stored for each feed has a sound connection, its retry budget and its pacing. |
| `StoredFeeds.EveryStoredFeedDetected` | src/feed_monitor.cpp:254-376 | Along every guarded run, a stored feed that falls silent has failed exactly if a tick at or after R + M*T has come, and that failure has been alerted exactly once. |
| `StoredFeeds.EveryStoredFeedNotPremature` | src/feed_monitor.cpp:340-465 | Along every guarded run, a stored feed that a tick has failed by misses had been without evidence for at least the sum of the timeouts charged for them. |
| `StoredFeeds.EveryStoredFeedReassembles` | src/connection.cpp:64-151 | Along every guarded run, a stored feed that is up has handled exactly the frames of the bytes received in its current attempt. |
| `Pairs.SlotStepOk` | src/feed_monitor.cpp:225-376 | Every event, tick and command of a slot is a sequence of enabled initiator moves of the two-party system, so it keeps the joint invariant with the feed's peer and the numbering of its PINGs. |
| `SimProjection.SimStepProjects` | src/feed_simulator.cpp:130-304 | Every operation of the simulator (accept, event, tick with its timeout check and all deferred replies due, kill) is, to each client, a sequence of enabled responder moves of the two-party system: same connection, same replies owed, and gone exactly when the peer is gone. |
| `SimProjection.MovesInv` | src/feed_simulator.cpp:130-304 | Any enabled sequence of responder moves keeps the joint invariant, so every run of the simulator keeps it for every client of an honest initiator. |
| `Deployment.LinkNextOk` | src/feed_simulator.cpp:130-304 | So an operation of the simulator keeps the invariant of every pair it is part of, the one whose connection it accepts included. |
| `Deployment.EveryFeedSafe` | src/feed_simulator.cpp:130-304 | In every reachable state of a monitor and the simulators its feeds connect to, each with any other clients: no feed's connection has reported a protocol fault, nor has the client of its current attempt or of any earlier one that is still served; acknowledgements answer PINGs of their attempt; and every recorded RTT is the time from a particular tick that pinged the feed. |
| `Deployment.EveryStoredFeedSafe` | src/feed_monitor.cpp:81-465 | The same of the slot actually stored for each feed, along every guarded run of the vector with its indexes. |
| `Pairs.FailedIsNotRead` | src/feed_monitor.cpp:237-245 | An event on a connection that has failed adds no protocol fault to it, whatever bytes are waiting and whoever sent them. |
| `Integration.ServedIsPeerMove` | src/feed_simulator.cpp:170-203 | Serving any client event is one or two moves of ProtocolSafety's responder: same connection, same replies owed, removed exactly when the peer is gone. |
| `Integration.RepliedIsFire` | src/feed_simulator.cpp:270-282 | Sending a deferred reply is ProtocolSafety's Fire move. |

## Left out

- Sockets, epoll, timerfd, eventfd and errno: their answers are inputs. EINTR retries, failures of `epoll_ctl`, socket
  options and edge- versus level-triggering are not modelled.
- Floating point: EWMA, percentile and jitter use exact reals; jitter is any real in [-1/4, 1/4].
- Integer width: PING sequence numbers wrap at 64 bits and timestamps are 64-bit on the wire; the statistics counters
  are unbounded, and time differences do not overflow.
- Configuration files, command-line parsing, `main`, the terminal display and the text of log messages: one-branch
  checks and user interface.
- Reassembly of operator command lines: a simpler copy of the stream reassembly that is proved.
- `stop()` and signal handling: one flag and a wakeup.
- `UniqueFd` as a class of its own: only its effect is modelled, the set of open descriptors.
- Host, port and feed name: carried by the source, never branched on.
- The monitor and the simulator hold connections as values rather than as objects of the class `Connection`; the class
  is proved to have the same effect as those values' functions, so aliasing between the two layers is not modelled.
- The RTT ring inside a connection's statistics is held as its window; the class `RingBuffer` is proved to stand for
  that window.
- `std::sort`: `SortedCopy` sorts by insertion. The result is the same, because it is unique.
- ConnectionRuns.RunSound: the miss limit is fixed during a run and the timeout stays below a ceiling, as the monitor
  offers no command that changes the former.
- ProtocolRuns.ProtocolSafety: an initiator is read only while it has not failed, as the monitor guarantees (src/feed_monitor.cpp:242).
- MonitorRuns.RunRefines: a timer tick appears as one step per feed, in any order; OnTimerTick proves the loop over all of them.
- MonitorRuns.RunRefines: covers guarded runs; what one unguarded removal or reconnect breaks is stated exactly, further steps after it are not.
- Deployment.EveryFeedSafe: an event that reports no condition at all is not modelled on the simulator's side, as epoll returns none.
- StoredFeeds.EveryStoredFeedDetected: follows a feed that is not removed in between.
