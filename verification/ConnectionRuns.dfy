/** Every run of one `Connection`: what holds after any sequence of reads, writes, ticks, timeouts,
    configuration changes and reconnects, whatever the peer sends and the kernel answers. */
module ConnectionRuns {
  import opened Crc32
  import opened Heartbeat
  import opened Rings
  import opened Stats
  import opened ConnectionModel

  // ---- Runs ----

  datatype Event =
    | Writable(now: Time, connectOk: bool)
    | Readable(now: Time, recvs: seq<Recv>)
    | Hangup(now: Time)
    | PingDue(now: Time)
    | PongDue(sequence: uint64, timestampNs: int64)
    | Tick(now: Time)
    | NewBaseline(now: Time)
    | Reconnect(fd: int, now: Time)

  /** One call into the connection, with the configuration and the kernel answers it meets. */
  datatype Step = Step(cfg: Config, clock: Time, sends: seq<Send>, verdicts: seq<Verdict>, event: Event)

  function Apply(c0: Conn, s: Step): (r: Conn) {
    var c := WithKernel(c0, s.clock, s.sends, s.verdicts);
    match s.event
    case Writable(now, ok) => OnWritable(c, now, ok)
    case Readable(now, recvs) => OnReadable(c, s.cfg.heartbeatTimeoutNs, now, recvs)
    case Hangup(now) => OnHangupOrError(c, now)
    case PingDue(now) => SendPing(c, now)
    case PongDue(sequence, timestampNs) => SendPong(c, sequence, timestampNs)
    case Tick(now) => CheckTimeout(c, s.cfg, now).0
    case NewBaseline(now) => ResetLivenessBaseline(c, now)
    case Reconnect(fd, now) => Rebind(c, fd, now)
  }

  function Run(c: Conn, steps: seq<Step>): (r: Conn)
    decreases |steps|
  {
    if steps == [] then c else Apply(Run(c, steps[..|steps| - 1]), steps[|steps| - 1])
  }

  // ---- The invariants ----

  /** Bounds the configuration keeps during a run: the miss limit is fixed, the timeout may change
      below a ceiling. */
  datatype Limits = Limits(maxMissed: int, timeoutNs: int)

  function EncodeAll(ms: seq<HeartbeatMessage>): (r: seq<byte>)
    ensures |r| == MESSAGE_SIZE * |ms|
    decreases |ms|
  {
    if ms == [] then [] else EncodeAll(ms[..|ms| - 1]) + Encode(ms[|ms| - 1])
  }

  lemma EncodeAllAppend(ms: seq<HeartbeatMessage>, m: HeartbeatMessage)
    ensures EncodeAll(ms + [m]) == EncodeAll(ms) + Encode(m)
  {
    hide Encode;
    assert (ms + [m])[..|ms|] == ms;
  }

  lemma EncodeSealed(m: HeartbeatMessage)
    ensures Encode(Sealed(m)) == Encode(m) && Sealed(Sealed(m)) == Sealed(m)
  {
    hide Checksum;
    hide CrcBytes;
    hide BigEndian;
  }

  /** Outbound FIFO: what the kernel took, then what is pending, is every queued frame in order. */
  predicate Fifo(c: Conn) {
    && c.io.sent + c.writePending == EncodeAll(c.io.queued)
    && (c.state != Failed ==> |c.writePending| <= MAX_WRITE_PENDING_BYTES)
    && (c.role == Responder && c.state == Handshaking ==> c.io.queued == [])
    && (c.role == Responder ==> c.state != Connecting)
  }

  predicate IsAckFor(m: HeartbeatMessage, feedId: uint32) {
    m.kind == CONNECT_ACK && m.feedId == feedId
  }

  /** The initiator's states, their miss counts, and the handshake they rest on. */
  predicate Lifecycle(c: Conn, lim: Limits) {
    c.role == Initiator ==>
      match c.state
      case Connecting => c.consecutiveMissed == 0 && c.io.handled == [] && c.io.queued == []
      case Handshaking => c.consecutiveMissed == 0 && c.io.handled == []
      case Healthy => c.consecutiveMissed == 0 && c.io.handled != [] && IsAckFor(c.io.handled[0], c.feedId)
      case Degraded =>
        && 1 <= c.consecutiveMissed < lim.maxMissed
        && c.io.handled != [] && IsAckFor(c.io.handled[0], c.feedId)
      case Failed => true
  }

  /** The sequences of the PONGs in `handled` that were new to the window of the last 32. */
  function Processed(handled: seq<HeartbeatMessage>): (r: seq<uint64>)
    decreases |handled|
  {
    if handled == [] then []
    else
      var p := Processed(handled[..|handled| - 1]);
      var m := handled[|handled| - 1];
      if m.kind == PONG && m.sequence !in LastOf(p, ACKED_SEQUENCE_WINDOW) then p + [m.sequence] else p
  }

  predicate Distinct(s: seq<uint64>) {
    forall i, j :: 0 <= i < j < |s| ==> s[i] != s[j]
  }

  /** The acknowledged window is exactly the last `min(n, 32)` processed sequences, all different. */
  predicate WindowExact(c: Conn) {
    c.role == Initiator && c.state != Failed ==>
      && c.acked == LastOf(Processed(c.io.handled), ACKED_SEQUENCE_WINDOW)
      && Distinct(c.acked)
  }

  predicate EvidenceOk(accepted: seq<Evidence>, timeoutNs: int) {
    forall e :: e in accepted ==> e.rttNs == e.atNs - e.timestampNs && 0 <= e.rttNs < timeoutNs
  }

  predicate RttsOk(rtts: seq<int>, timeoutNs: int) {
    forall v :: v in rtts ==> 0 <= v < timeoutNs
  }

  /** Every recorded RTT is now minus the echoed timestamp, not negative and under the timeout, and the
      statistics summarise exactly the RTTs recorded. */
  ghost predicate Measured(c: Conn, lim: Limits) {
    && lim.timeoutNs <= MAX_INT64
    && EvidenceOk(c.io.accepted, lim.timeoutNs)
    && RttsOk(c.io.rtts, lim.timeoutNs)
    && Summarises(c.stats, c.io.rtts)
  }

  ghost predicate Sound(c: Conn, lim: Limits) {
    && Fifo(c)
    && Lifecycle(c, lim)
    && WindowExact(c)
    && Measured(c, lim)
  }

  // ---- Writes ----

  /** A write leaves everything but the outbound side and possibly a failure. */
  lemma QueueWriteFifo(c: Conn, m: HeartbeatMessage)
    requires c.io.sent + c.writePending == EncodeAll(c.io.queued)
    ensures
      var r := QueueWrite(c, m);
      && OnlyWrote(c, r)
      && r.io.queued == c.io.queued + [Sealed(m)]
      && r.io.sent + r.writePending == EncodeAll(r.io.queued)
      && (|c.writePending| <= MAX_WRITE_PENDING_BYTES ==>
            |r.writePending| <= MAX_WRITE_PENDING_BYTES || r.state == Failed)
  {
    hide QueueWrite;
    hide Encode;
    hide Sealed;
    EncodeAllAppend(c.io.queued, Sealed(m));
    EncodeSealed(m);
  }

  lemma OnlyWroteSound(c: Conn, r: Conn, lim: Limits)
    requires Sound(c, lim)
    requires OnlyWrote(c, r) && r.io.sent + r.writePending == EncodeAll(r.io.queued)
    requires r.state != Failed ==> |r.writePending| <= MAX_WRITE_PENDING_BYTES
    requires c.role == Initiator && c.state == Connecting ==> r.io.queued == [] || r.state == Failed
    requires c.role == Responder && c.state == Handshaking ==> r.io.queued == [] || r.state == Failed
    ensures Sound(r, lim)
  {
    hide Summarises;
    hide Processed;
    hide EncodeAll;
  }

  lemma SendPingSound(c: Conn, now: Time, lim: Limits)
    requires Sound(c, lim)
    ensures Sound(SendPing(c, now), lim)
  {
    hide QueueWrite;
    hide Encode;
    hide Sealed;
    hide Message;
    hide Processed;
    hide EncodeAll;
    if c.role == Initiator && (c.state == Healthy || c.state == Degraded) {
      var c0 := c.(nextSequence := NextSequence(c.nextSequence));
      var m := Message(PING, c.feedId, c.nextSequence, now);
      QueueWriteFifo(c0, m);
      OnlyWroteSound(c0, QueueWrite(c0, m), lim);
    }
  }

  lemma SendPongSound(c: Conn, sequence: uint64, timestampNs: int64, lim: Limits)
    requires Sound(c, lim)
    ensures Sound(SendPong(c, sequence, timestampNs), lim)
  {
    hide QueueWrite;
    hide Encode;
    hide Sealed;
    hide Message;
    hide Summarises;
    hide Processed;
    hide EncodeAll;
    if c.role == Responder && c.state == Healthy {
      var m := Message(PONG, c.feedId, sequence, timestampNs);
      QueueWriteFifo(c, m);
      OnlyWroteSound(c, QueueWrite(c, m), lim);
    }
  }

  lemma FlushSound(c: Conn, lim: Limits)
    requires Sound(c, lim)
    ensures Sound(Flush(c), lim)
  {
    hide Flush;
    hide Summarises;
    hide Processed;
    hide EncodeAll;
    OnlyWroteSound(c, Flush(c), lim);
  }

  lemma OnWritableSound(c: Conn, now: Time, ok: bool, lim: Limits)
    requires Sound(c, lim)
    ensures Sound(OnWritable(c, now, ok), lim)
  {
    hide QueueWrite;
    hide Flush;
    hide Encode;
    hide Sealed;
    hide Message;
    hide Summarises;
    hide Processed;
    hide EncodeAll;
    FlushSound(c, lim);
    if c.state == Connecting && ok && c.role == Initiator {
      var c1 := TransitionTo(c, Handshaking, now);
      var m := Message(CONNECT_HELLO, c.feedId, 0, now);
      QueueWriteFifo(c1, m);
      OnlyWroteSound(c1, QueueWrite(c1, m), lim);
    }
  }

  // ---- Handlers ----

  lemma ConnectedSince(st: ConnectionStats, rtts: seq<int>, t: int)
    requires Summarises(st, rtts)
    ensures Summarises(st.(connectedSinceNs := t), rtts)
  {}

  lemma FirstFrame(c: Conn, m: HeartbeatMessage)
    requires c.io.queued == [] && c.io.sent + c.writePending == []
    ensures
      var r := QueueWrite(c, m);
      && OnlyWrote(c, r)
      && r.io.sent + r.writePending == EncodeAll(r.io.queued)
      && |r.writePending| <= MESSAGE_SIZE
  {
    hide QueueWrite;
    hide Encode;
    hide Sealed;
    QueueWriteFifo(c, m);
    OneFrame(Sealed(m));
    assert QueueWrite(c, m).io.queued == [Sealed(m)];
  }

  lemma HelloSound(c: Conn, m: HeartbeatMessage, now: Time, lim: Limits)
    requires Sound(c, lim) && |c.readAccum| >= MESSAGE_SIZE
    ensures Sound(HandleConnectHello(TakeFrame(c, m), m, now), lim)
  {
    hide QueueWrite;
    hide Encode;
    hide Sealed;
    hide Message;
    hide Summarises;
    hide Processed;
    if c.role == Responder && c.state == Handshaking {
      assert EncodeAll([]) == [];
      hide EncodeAll;
      FirstFrame(TakeFrame(c, m), Message(CONNECT_ACK, c.feedId, 0, now));
      ConnectedSince(c.stats, c.io.rtts, now);
    } else {
      hide EncodeAll;
    }
  }

  lemma OneFrame(m: HeartbeatMessage)
    ensures |EncodeAll([m])| == MESSAGE_SIZE
  {
    hide Encode;
  }

  lemma AckSound(c: Conn, m: HeartbeatMessage, now: Time, lim: Limits)
    requires Sound(c, lim) && |c.readAccum| >= MESSAGE_SIZE
    requires m.kind == CONNECT_ACK
    ensures Sound(HandleConnectAck(TakeFrame(c, m), m, now), lim)
  {
    hide EncodeAll;
    NotProcessed(c.io.handled, m);
    hide Processed;
  }

  lemma NotProcessed(handled: seq<HeartbeatMessage>, m: HeartbeatMessage)
    ensures m.kind != PONG ==> Processed(handled + [m]) == Processed(handled)
    ensures m.kind == PONG ==>
              Processed(handled + [m]) ==
              (if m.sequence in LastOf(Processed(handled), ACKED_SEQUENCE_WINDOW) then Processed(handled)
               else Processed(handled) + [m.sequence])
  {
    assert (handled + [m])[..|handled|] == handled;
  }

  lemma PingSound(c: Conn, m: HeartbeatMessage, now: Time, lim: Limits)
    requires Sound(c, lim) && |c.readAccum| >= MESSAGE_SIZE
    ensures Sound(HandlePing(TakeFrame(c, m), m, now), lim)
  {
    hide QueueWrite;
    hide Summarises;
    hide SendPong;
    hide Processed;
    hide EncodeAll;
    var c0 := TakeFrame(c, m);
    if c.role == Responder && c.state == Healthy {
      var c1 := c0.(lastLivenessNs := now);
      var c2 := if c1.io.verdicts == [] then c1 else c1.(io := c1.io.(verdicts := c1.io.verdicts[1..]));
      assert Sound(c2, lim);
      SendPongSound(c2, m.sequence, m.timestampNs, lim);
    }
  }

  lemma RememberExact(p: seq<uint64>, s: uint64)
    requires Distinct(LastOf(p, ACKED_SEQUENCE_WINDOW)) && s !in LastOf(p, ACKED_SEQUENCE_WINDOW)
    ensures Remember(LastOf(p, ACKED_SEQUENCE_WINDOW), s) == LastOf(p + [s], ACKED_SEQUENCE_WINDOW)
    ensures Distinct(LastOf(p + [s], ACKED_SEQUENCE_WINDOW))
  {
    LastSlides(p, s, ACKED_SEQUENCE_WINDOW);
  }

  /** What a live initiator does with a PONG: the evidence filter. */
  lemma PongSound(c: Conn, timeoutNs: int, m: HeartbeatMessage, now: Time, lim: Limits)
    requires Sound(c, lim) && |c.readAccum| >= MESSAGE_SIZE
    requires m.kind == PONG && timeoutNs <= lim.timeoutNs
    ensures Sound(HandlePong(TakeFrame(c, m), timeoutNs, m, now), lim)
  {
    hide EncodeAll;
    hide Remember;
    hide Summarises;
    NotProcessed(c.io.handled, m);
    hide Processed;
    var live := c.role == Initiator && (c.state == Healthy || c.state == Degraded);
    if live && m.sequence !in c.acked {
      RememberExact(Processed(c.io.handled), m.sequence);
      var c1 := TakeFrame(c, m).(acked := Remember(c.acked, m.sequence));
      assert Sound(c1, lim);
      AcceptSound(c1, timeoutNs, m, now, lim);
    }
  }

  lemma AppendOk(accepted: seq<Evidence>, e: Evidence, rtts: seq<int>, timeoutNs: int)
    requires EvidenceOk(accepted, timeoutNs) && RttsOk(rtts, timeoutNs)
    requires e.rttNs == e.atNs - e.timestampNs && 0 <= e.rttNs < timeoutNs
    ensures EvidenceOk(accepted + [e], timeoutNs) && RttsOk(rtts + [e.rttNs], timeoutNs)
  {}

  lemma AcceptMeasured(c: Conn, timeoutNs: int, m: HeartbeatMessage, now: Time, lim: Limits)
    requires Measured(c, lim) && timeoutNs <= lim.timeoutNs && 0 <= now - m.timestampNs < timeoutNs
    ensures Measured(Accept(c, m, now), lim)
  {
    hide Summarises;
    hide ConnectionStats.RecordPongReceived;
    hide EvidenceOk;
    hide RttsOk;
    var rtt := now - m.timestampNs;
    RecordSummarises(c.stats, c.io.rtts, rtt);
    AppendOk(c.io.accepted, Evidence(m.sequence, m.timestampNs, now, rtt), c.io.rtts, lim.timeoutNs);
  }

  lemma AcceptSound(c: Conn, timeoutNs: int, m: HeartbeatMessage, now: Time, lim: Limits)
    requires Sound(c, lim) && timeoutNs <= lim.timeoutNs
    requires c.role == Initiator && (c.state == Healthy || c.state == Degraded)
    ensures 0 <= now - m.timestampNs < timeoutNs ==> Sound(Accept(c, m, now), lim)
  {
    hide Measured;
    hide EncodeAll;
    hide Processed;
    hide Distinct;
    hide ConnectionStats.RecordPongReceived;
    if 0 <= now - m.timestampNs < timeoutNs {
      AcceptMeasured(c, timeoutNs, m, now, lim);
    }
  }

  lemma HandleMessageSound(c: Conn, timeoutNs: int, m: HeartbeatMessage, now: Time, lim: Limits)
    requires Sound(c, lim) && |c.readAccum| >= MESSAGE_SIZE
    requires timeoutNs <= lim.timeoutNs
    requires IsKnownMessageType(m.kind)
    ensures Sound(HandleMessage(TakeFrame(c, m), timeoutNs, m, now), lim)
  {
    hide HandleConnectHello;
    hide HandleConnectAck;
    hide HandlePing;
    hide HandlePong;
    hide Summarises;
    hide Processed;
    hide EncodeAll;
    if m.kind == CONNECT_HELLO {
      HelloSound(c, m, now, lim);
    } else if m.kind == CONNECT_ACK {
      AckSound(c, m, now, lim);
    } else if m.kind == PING {
      PingSound(c, m, now, lim);
    } else if m.kind == PONG {
      PongSound(c, timeoutNs, m, now, lim);
    }
  }

  lemma DecodedKnown(b: seq<byte>)
    requires |b| == MESSAGE_SIZE && Decode(b).Some?
    ensures IsKnownMessageType(Decode(b).value.kind)
  {
    hide Fields;
    hide Checksum;
  }

  lemma {:induction false} DrainSound(c: Conn, timeoutNs: int, now: Time, lim: Limits)
    requires Sound(c, lim) && timeoutNs <= lim.timeoutNs
    ensures Sound(Drain(c, timeoutNs, now), lim)
    decreases |c.readAccum|
  {
    hide Decode;
    hide HandleMessage;
    hide Summarises;
    hide Processed;
    hide EncodeAll;
    if |c.readAccum| >= MESSAGE_SIZE {
      var d := Decode(c.readAccum[..MESSAGE_SIZE]);
      if d.Some? {
        var c0 := TakeFrame(c, d.value);
        var c1 := HandleMessage(c0, timeoutNs, d.value, now);
        DecodedKnown(c.readAccum[..MESSAGE_SIZE]);
        HandleMessageSound(c, timeoutNs, d.value, now, lim);
        HandlersLeaveInput(c0, timeoutNs, d.value, now);
        if c1.state != Failed {
          DrainSound(c1, timeoutNs, now, lim);
        }
      }
    }
  }

  lemma OnReadableSound(c: Conn, timeoutNs: int, now: Time, recvs: seq<Recv>, lim: Limits)
    requires Sound(c, lim) && timeoutNs <= lim.timeoutNs
    ensures Sound(OnReadable(c, timeoutNs, now, recvs), lim)
  {
    hide Drain;
    hide Summarises;
    hide Processed;
    hide EncodeAll;
    DrainSound(c.(readAccum := Receive(c.readAccum, recvs).0), timeoutNs, now, lim);
  }

  lemma CheckTimeoutSound(c: Conn, cfg: Config, now: Time, lim: Limits)
    requires Sound(c, lim) && cfg.maxMissedHeartbeats == lim.maxMissed
    ensures Sound(CheckTimeout(c, cfg, now).0, lim)
  {
    hide Processed;
    hide EncodeAll;
  }

  // ---- All runs ----

  predicate ConfigOk(cfg: Config, lim: Limits) {
    0 < cfg.heartbeatTimeoutNs <= lim.timeoutNs && cfg.maxMissedHeartbeats == lim.maxMissed
  }

  lemma ApplySound(c: Conn, s: Step, lim: Limits)
    requires Sound(c, lim) && ConfigOk(s.cfg, lim)
    ensures Sound(Apply(c, s), lim)
  {
    hide OnWritable;
    hide OnReadable;
    hide SendPing;
    hide SendPong;
    hide CheckTimeout;
    hide OnHangupOrError;
    hide ResetLivenessBaseline;
    hide Rebind;
    hide WithKernel;
    hide Sound;
    var k := WithKernel(c, s.clock, s.sends, s.verdicts);
    SimpleStepsSound(c, s, lim);
    match s.event {
      case Writable(now, ok) => OnWritableSound(k, now, ok, lim);
      case Readable(now, recvs) => OnReadableSound(k, s.cfg.heartbeatTimeoutNs, now, recvs, lim);
      case Hangup(now) => SimpleStepsSound(k, s, lim);
      case PingDue(now) => SendPingSound(k, now, lim);
      case PongDue(sequence, ts) => SendPongSound(k, sequence, ts, lim);
      case Tick(now) => CheckTimeoutSound(k, s.cfg, now, lim);
      case NewBaseline(now) => SimpleStepsSound(k, s, lim);
      case Reconnect(fd, now) => RebindSound(k, fd, now, lim);
    }
  }

  lemma SimpleStepsSound(c: Conn, s: Step, lim: Limits)
    requires Sound(c, lim)
    ensures Sound(WithKernel(c, s.clock, s.sends, s.verdicts), lim)
    ensures s.event.Hangup? ==> Sound(OnHangupOrError(c, s.event.now), lim)
    ensures s.event.NewBaseline? ==> Sound(ResetLivenessBaseline(c, s.event.now), lim)
  {
    hide Processed;
    hide EncodeAll;
    hide Summarises;
  }

  lemma RebindSound(c: Conn, fd: int, now: Time, lim: Limits)
    requires Sound(c, lim)
    ensures Sound(Rebind(c, fd, now), lim)
  {}

  lemma NewConnSound(fd: int, role: Role, feedId: uint32, clock: Time, lim: Limits)
    requires lim.timeoutNs <= MAX_INT64
    ensures Sound(NewConn(fd, role, feedId, clock), lim)
  {}

  /** All four invariants hold after every run of every connection. */
  lemma {:induction false} RunSound(fd: int, role: Role, feedId: uint32, clock: Time, steps: seq<Step>, lim: Limits)
    requires lim.timeoutNs <= MAX_INT64
    requires forall i :: 0 <= i < |steps| ==> ConfigOk(steps[i].cfg, lim)
    ensures Sound(Run(NewConn(fd, role, feedId, clock), steps), lim)
    decreases |steps|
  {
    hide Apply;
    hide Sound;
    var c := NewConn(fd, role, feedId, clock);
    NewConnSound(fd, role, feedId, clock, lim);
    if steps != [] {
      var n := |steps| - 1;
      RunSound(fd, role, feedId, clock, steps[..n], lim);
      ApplySound(Run(c, steps[..n]), steps[n], lim);
    }
  }
}
