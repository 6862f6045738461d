/** What each operation of a `Connection` (src/connection.h, src/connection.cpp) does, as functions on
    values. The class in Connection.dfy performs the same operations in place and is proved to agree;
    the protocol, the monitor and the simulator reason about these functions.

    The kernel and the clock are inputs. `Io.sends` lists the answers the kernel will give to the next
    `send` calls (an exhausted list means EAGAIN), `Io.verdicts` the decisions of the ping interceptor
    (an exhausted list means "reply now"), `Io.clock` the value `now_monotonic_ns` returns. The other
    fields of `Io` record what was done: frames queued, bytes the kernel accepted, frames handled and
    evidence accepted in this connection attempt; and, over all attempts, the RTTs recorded, replies
    deferred and reasons logged. */
module ConnectionModel {
  import opened Crc32
  import opened Heartbeat
  import opened Rings
  import opened Stats

  type Time = x: int | 0 <= x < 0x8000_0000_0000_0000

  const MAX_READ_ACCUM_BYTES: nat := 65536
  const MAX_WRITE_PENDING_BYTES: nat := 65536
  const SEND_CHUNK: nat := 512
  const ACKED_SEQUENCE_WINDOW: nat := 32

  datatype Role = Initiator | Responder

  // kDisconnected and kReconnecting are never held by a Connection.
  datatype State = Connecting | Handshaking | Healthy | Degraded | Failed

  datatype Config = Config(
    heartbeatIntervalNs: int,
    heartbeatTimeoutNs: int,
    maxMissedHeartbeats: int,
    reconnectBaseDelayNs: int,
    reconnectMaxDelayNs: int,
    maxReconnectAttempts: int)

  type Chunk = s: seq<byte> | 0 < |s| <= 4096 witness [0]

  datatype Recv = Data(bytes: Chunk) | Eof | RecvWouldBlock | RecvError

  datatype Send = Accepted(n: nat) | SendWouldBlock | SendError

  datatype Verdict = Reply | Drop | Defer(fireAtNs: int)

  datatype Deferred = Deferred(fireAtNs: int, sequence: uint64, timestampNs: int64)

  datatype Reason =
    | UnexpectedHello | UnexpectedAck | UnexpectedPing | UnexpectedPong
    | HelloMismatch | AckMismatch | CorruptFrame
    | ReadOverflow | WriteOverflow
    | PeerClosed | SocketError

  /** The failures that a peer following the protocol must never cause. */
  predicate IsProtocolFault(r: Reason) {
    r.UnexpectedHello? || r.UnexpectedAck? || r.UnexpectedPing? || r.UnexpectedPong?
    || r.HelloMismatch? || r.AckMismatch? || r.CorruptFrame?
  }

  datatype Evidence = Evidence(sequence: uint64, timestampNs: int64, atNs: Time, rttNs: int)

  datatype Io = Io(
    clock: Time,
    sends: seq<Send>,
    verdicts: seq<Verdict>,
    queued: seq<HeartbeatMessage>,
    sent: seq<byte>,
    handled: seq<HeartbeatMessage>,
    accepted: seq<Evidence>,
    rtts: seq<int>,
    deferred: seq<Deferred>,
    log: seq<Reason>)

  datatype Conn = Conn(
    fd: int,
    role: Role,
    feedId: uint32,
    state: State,
    stateEnteredNs: int,
    nextSequence: uint64,
    consecutiveMissed: nat,
    lastLivenessNs: int,
    acked: seq<uint64>,
    readAccum: seq<byte>,
    writePending: seq<byte>,
    stats: ConnectionStats,
    io: Io)

  const QUIET_IO := Io(0, [], [], [], [], [], [], [], [], [])

  function NewConn(fd: int, role: Role, feedId: uint32, clock: Time): (r: Conn) {
    Conn(fd, role, feedId, if role == Initiator then Connecting else Handshaking, clock, 0, 0, 0,
         [], [], [], NO_STATS, QUIET_IO.(clock := clock))
  }

  predicate WantsWrite(c: Conn) {
    c.state == Connecting || c.writePending != []
  }

  /** A fresh set of kernel answers for the next call. */
  function WithKernel(c: Conn, clock: Time, sends: seq<Send>, verdicts: seq<Verdict>): (r: Conn) {
    c.(io := c.io.(clock := clock, sends := sends, verdicts := verdicts))
  }

  // ---- State changes ----

  function TransitionTo(c: Conn, s: State, now: int): (r: Conn) {
    c.(state := s, stateEnteredNs := now)
  }

  function FailWith(c: Conn, reason: Reason, now: int): (r: Conn) {
    TransitionTo(c.(io := c.io.(log := c.io.log + [reason])), Failed, now)
  }

  function Min(a: nat, b: nat): (r: nat) {
    if a <= b then a else b
  }

  // ---- Writing ----

  /** `r` differs from `c` at most by what a write may touch. */
  predicate OnlyWrote(c: Conn, r: Conn) {
    && r == c.(writePending := r.writePending, state := r.state, stateEnteredNs := r.stateEnteredNs,
               io := c.io.(sends := r.io.sends, sent := r.io.sent, queued := r.io.queued, log := r.io.log))
    && c.io.sent <= r.io.sent
    && ((r.state == c.state && r.stateEnteredNs == c.stateEnteredNs && r.io.log == c.io.log) || r.state == Failed)
  }

  predicate LoggedAtMost(c: Conn, r: Conn, reason: Reason) {
    r.io.log == c.io.log || r.io.log == c.io.log + [reason]
  }

  /** The send loop: whole chunks go out until the kernel takes less, blocks or fails. */
  function Flush(c: Conn): (r: Conn)
    ensures OnlyWrote(c, r) && r.io.queued == c.io.queued
    ensures r.io.sent + r.writePending == c.io.sent + c.writePending
    ensures |r.writePending| <= |c.writePending|
    ensures LoggedAtMost(c, r, SocketError)
    decreases |c.writePending|
  {
    if c.writePending == [] || c.io.sends == [] then c
    else
      var c1 := c.(io := c.io.(sends := c.io.sends[1..]));
      var chunk := Min(SEND_CHUNK, |c.writePending|);
      match c.io.sends[0]
      case SendWouldBlock => c1
      case SendError => FailWith(c1, SocketError, c1.io.clock)
      case Accepted(n) =>
        if n == 0 then FailWith(c1, SocketError, c1.io.clock)
        else
          var k := Min(n, chunk);
          var c2 := c1.(writePending := c1.writePending[k..],
                        io := c1.io.(sent := c1.io.sent + c1.writePending[..k]));
          if k < chunk then c2 else Flush(c2)
  }

  function Enqueue(c: Conn, m: HeartbeatMessage): (r: Conn) {
    c.(writePending := c.writePending + Encode(m), io := c.io.(queued := c.io.queued + [Sealed(m)]))
  }

  function QueueWrite(c: Conn, m: HeartbeatMessage): (r: Conn)
    ensures OnlyWrote(c, r) && r.io.queued == c.io.queued + [Sealed(m)]
    ensures r.io.sent + r.writePending == c.io.sent + c.writePending + Encode(m)
    ensures |c.writePending| <= MAX_WRITE_PENDING_BYTES ==>
              |r.writePending| <= MAX_WRITE_PENDING_BYTES || r.state == Failed
    ensures LoggedAtMost(c, r, SocketError) || LoggedAtMost(c, r, WriteOverflow)
  {
    hide Encode;
    hide Sealed;
    var c1 := Enqueue(c, m);
    if |c1.writePending| > MAX_WRITE_PENDING_BYTES then FailWith(c1, WriteOverflow, c1.io.clock)
    else if c.writePending == [] then
      assert c1.io.sent + c1.writePending == c.io.sent + c.writePending + Encode(m);
      Flush(c1)
    else c1
  }

  /** A frame that cannot be queued on `pending`: it crosses the cap, or it is the first one and the kernel's answer to
      sending it is an error, or that it took nothing. */
  predicate Refused(pending: seq<byte>, sends: seq<Send>) {
    || |pending| + MESSAGE_SIZE > MAX_WRITE_PENDING_BYTES
    || (pending == [] && sends != [] && (sends[0].SendError? || sends[0] == Accepted(0)))
  }

  /** Exactly when queueing a frame fails a connection, and with which reason. */
  lemma QueueWriteFails(c: Conn, m: HeartbeatMessage)
    requires c.state != Failed
    ensures QueueWrite(c, m).state == Failed <==> Refused(c.writePending, c.io.sends)
    ensures
      QueueWrite(c, m).io.log ==
      if !Refused(c.writePending, c.io.sends) then c.io.log
      else c.io.log + [if |c.writePending| + MESSAGE_SIZE > MAX_WRITE_PENDING_BYTES then WriteOverflow else SocketError]
  {
    hide Encode;
    hide Sealed;
    var c1 := Enqueue(c, m);
    if c.writePending == [] {
      assert |c1.writePending| == MESSAGE_SIZE;
      if c1.io.sends != [] && c1.io.sends[0].Accepted? && c1.io.sends[0].n >= MESSAGE_SIZE {
        assert c1.writePending[MESSAGE_SIZE..] == [];
        LastChunk(c1);
      }
    }
  }

  lemma LastChunk(c: Conn)
    requires |c.writePending| == MESSAGE_SIZE
    requires c.io.sends != [] && c.io.sends[0].Accepted? && c.io.sends[0].n >= MESSAGE_SIZE
    ensures Flush(c).state == c.state && Flush(c).io.log == c.io.log
  {
    var c1 := c.(io := c.io.(sends := c.io.sends[1..]));
    var c2 := c1.(writePending := c1.writePending[MESSAGE_SIZE..],
                  io := c1.io.(sent := c1.io.sent + c1.writePending[..MESSAGE_SIZE]));
    assert c2.writePending == [];
    assert Flush(c) == Flush(c2) == c2;
  }

  function Message(kind: uint8, feedId: uint32, sequence: uint64, timestampNs: int64): (r: HeartbeatMessage) {
    HeartbeatMessage(MAGIC, VERSION, kind, feedId, sequence, timestampNs, 0)
  }

  function SendPong(c: Conn, sequence: uint64, timestampNs: int64): (r: Conn) {
    if c.role != Responder || c.state != Healthy then c
    else QueueWrite(c, Message(PONG, c.feedId, sequence, timestampNs))
  }

  function NextSequence(s: uint64): (r: uint64) {
    (s + 1) % 0x1_0000_0000_0000_0000
  }

  function SendPing(c: Conn, now: Time): (r: Conn) {
    if c.role != Initiator || (c.state != Healthy && c.state != Degraded) then c
    else
      var c1 := QueueWrite(c.(nextSequence := NextSequence(c.nextSequence)),
                           Message(PING, c.feedId, c.nextSequence, now));
      c1.(stats := c1.stats.RecordPingSent())
  }

  /** Writability: connect completion while `Connecting`, otherwise room to flush. */
  function OnWritable(c: Conn, now: Time, connectOk: bool): (r: Conn) {
    if c.state == Connecting then
      if !connectOk then FailWith(c, SocketError, now)
      else
        var c1 := TransitionTo(c, Handshaking, now);
        if c.role == Initiator then QueueWrite(c1, Message(CONNECT_HELLO, c.feedId, 0, now)) else c1
    else Flush(c)
  }

  function OnHangupOrError(c: Conn, now: Time): (r: Conn) {
    FailWith(c, SocketError, now)
  }

  // ---- Reading ----

  datatype Ending = Overflowed | Closed | Drained | Errored

  /** The recv loop: append what arrives until EOF, EAGAIN, an error, or the cap is crossed. */
  function Receive(accum: seq<byte>, recvs: seq<Recv>): (r: (seq<byte>, Ending))
    decreases |recvs|
  {
    if recvs == [] then (accum, Drained)
    else
      match recvs[0]
      case Data(bytes) =>
        if |accum + bytes| > MAX_READ_ACCUM_BYTES then (accum + bytes, Overflowed)
        else Receive(accum + bytes, recvs[1..])
      case Eof => (accum, Closed)
      case RecvWouldBlock => (accum, Drained)
      case RecvError => (accum, Errored)
  }

  function HandleConnectHello(c: Conn, m: HeartbeatMessage, now: Time): (r: Conn) {
    if c.role != Responder || c.state != Handshaking then FailWith(c, UnexpectedHello, now)
    else if m.feedId != c.feedId then FailWith(c, HelloMismatch, now)
    else
      var c1 := QueueWrite(c, Message(CONNECT_ACK, c.feedId, 0, now));
      // The transition is unconditional: it overrides a failure of the write above.
      TransitionTo(c1.(lastLivenessNs := now, stats := c1.stats.(connectedSinceNs := now)), Healthy, now)
  }

  function HandleConnectAck(c: Conn, m: HeartbeatMessage, now: Time): (r: Conn) {
    if c.role != Initiator || c.state != Handshaking then FailWith(c, UnexpectedAck, now)
    else if m.feedId != c.feedId then FailWith(c, AckMismatch, now)
    else TransitionTo(c.(lastLivenessNs := now, stats := c.stats.(connectedSinceNs := now)), Healthy, now)
  }

  function HandlePing(c: Conn, m: HeartbeatMessage, now: Time): (r: Conn) {
    if c.role != Responder || c.state != Healthy then FailWith(c, UnexpectedPing, now)
    else
      var c1 := c.(lastLivenessNs := now);
      if c1.io.verdicts == [] then SendPong(c1, m.sequence, m.timestampNs)
      else
        var c2 := c1.(io := c1.io.(verdicts := c1.io.verdicts[1..]));
        match c1.io.verdicts[0]
        case Reply => SendPong(c2, m.sequence, m.timestampNs)
        case Drop => c2
        case Defer(at) =>
          c2.(io := c2.io.(deferred := c2.io.deferred + [Deferred(at, m.sequence, m.timestampNs)]))
  }

  function Remember(window: seq<uint64>, s: uint64): (r: seq<uint64>) {
    if |window| <= ACKED_SEQUENCE_WINDOW then Slide(window, s, ACKED_SEQUENCE_WINDOW) else []
  }

  /** Records a PONG as evidence of life. */
  function Accept(c: Conn, m: HeartbeatMessage, now: Time): (r: Conn) {
    var rtt := now - m.timestampNs;
    var c1 := c.(lastLivenessNs := now, consecutiveMissed := 0, stats := c.stats.RecordPongReceived(rtt),
                 io := c.io.(accepted := c.io.accepted + [Evidence(m.sequence, m.timestampNs, now, rtt)],
                             rtts := c.io.rtts + [rtt]));
    if c1.state == Degraded then TransitionTo(c1, Healthy, now) else c1
  }

  function HandlePong(c: Conn, timeoutNs: int, m: HeartbeatMessage, now: Time): (r: Conn) {
    if c.role != Initiator || (c.state != Healthy && c.state != Degraded) then FailWith(c, UnexpectedPong, now)
    else if m.sequence in c.acked then c
    else
      var c1 := c.(acked := Remember(c.acked, m.sequence));
      var rtt := now - m.timestampNs;
      if rtt >= timeoutNs || rtt < 0 then c1 else Accept(c1, m, now)
  }

  function HandleMessage(c: Conn, timeoutNs: int, m: HeartbeatMessage, now: Time): (r: Conn) {
    if m.kind == CONNECT_HELLO then HandleConnectHello(c, m, now)
    else if m.kind == CONNECT_ACK then HandleConnectAck(c, m, now)
    else if m.kind == PING then HandlePing(c, m, now)
    else if m.kind == PONG then HandlePong(c, timeoutNs, m, now)
    else if m.kind == DISCONNECT then FailWith(c, PeerClosed, now)
    else c
  }

  /** What every handler leaves alone, apart from the bytes it may send. */
  predicate KeepsInput(c: Conn, r: Conn) {
    && r.readAccum == c.readAccum && r.io.handled == c.io.handled
    && r.role == c.role && r.feedId == c.feedId && r.fd == c.fd
    && c.io.sent <= r.io.sent && c.io.queued <= r.io.queued
  }

  lemma QueueWriteFrames(c: Conn, m: HeartbeatMessage)
    ensures OnlyWrote(c, QueueWrite(c, m)) && KeepsInput(c, QueueWrite(c, m))
  {
    hide QueueWrite;
    hide Encode;
    hide Sealed;
  }

  lemma HelloKeepsInput(c: Conn, m: HeartbeatMessage, now: Time)
    ensures KeepsInput(c, HandleConnectHello(c, m, now))
  {
    hide QueueWrite;
    hide Encode;
    hide Sealed;
    hide Message;
    QueueWriteFrames(c, Message(CONNECT_ACK, c.feedId, 0, now));
  }

  lemma PingKeepsInput(c: Conn, m: HeartbeatMessage, now: Time)
    ensures KeepsInput(c, HandlePing(c, m, now))
  {
    hide QueueWrite;
    hide Encode;
    hide Sealed;
    hide Message;
    var c1 := c.(lastLivenessNs := now);
    var c2 := if c1.io.verdicts == [] then c1 else c1.(io := c1.io.(verdicts := c1.io.verdicts[1..]));
    QueueWriteFrames(c2, Message(PONG, c.feedId, m.sequence, m.timestampNs));
  }

  /** No handler touches the bytes still to be parsed, or the record of what was handled. */
  lemma HandlersLeaveInput(c: Conn, timeoutNs: int, m: HeartbeatMessage, now: Time)
    ensures KeepsInput(c, HandleMessage(c, timeoutNs, m, now))
  {
    hide HandleConnectHello;
    hide HandlePing;
    hide Remember;
    HelloKeepsInput(c, m, now);
    PingKeepsInput(c, m, now);
  }

  /** Takes the next frame off the accumulated bytes and records it as handled. */
  function TakeFrame(c: Conn, m: HeartbeatMessage): (r: Conn)
    requires |c.readAccum| >= MESSAGE_SIZE
  {
    c.(readAccum := c.readAccum[MESSAGE_SIZE..], io := c.io.(handled := c.io.handled + [m]))
  }

  /** Parses and handles complete frames until fewer than 28 bytes remain or the connection fails. */
  function Drain(c: Conn, timeoutNs: int, now: Time): (r: Conn)
    decreases |c.readAccum|
  {
    if |c.readAccum| < MESSAGE_SIZE then c
    else
      match Decode(c.readAccum[..MESSAGE_SIZE])
      case None => FailWith(c, CorruptFrame, now).(readAccum := [])
      case Some(m) =>
        var c1 := HandleMessage(TakeFrame(c, m), timeoutNs, m, now);
        HandlersLeaveInput(TakeFrame(c, m), timeoutNs, m, now);
        if c1.state == Failed then c1.(readAccum := []) else Drain(c1, timeoutNs, now)
  }

  function FinishRead(c: Conn, ending: Ending, now: Time): (r: Conn) {
    if c.state == Failed then c
    else
      match ending
      case Closed => FailWith(c, PeerClosed, now)
      case Errored => FailWith(c, SocketError, now)
      case _ => c
  }

  function OnReadable(c: Conn, timeoutNs: int, now: Time, recvs: seq<Recv>): (r: Conn) {
    var (accum, ending) := Receive(c.readAccum, recvs);
    var c1 := c.(readAccum := accum);
    if ending == Overflowed then FailWith(c1, ReadOverflow, now)
    else FinishRead(Drain(c1, timeoutNs, now), ending, now)
  }

  // ---- Time ----

  /** One timer tick. The flag is true when this very call failed the connection. */
  function CheckTimeout(c: Conn, cfg: Config, now: Time): (r: (Conn, bool)) {
    if c.state == Connecting || c.state == Handshaking then
      if now - c.stateEnteredNs >= cfg.heartbeatTimeoutNs then (TransitionTo(c, Failed, now), true)
      else (c, false)
    else if c.state == Healthy || c.state == Degraded then
      if now - c.lastLivenessNs < cfg.heartbeatTimeoutNs then (c, false)
      else if c.role == Initiator then
        var c1 := c.(consecutiveMissed := c.consecutiveMissed + 1,
                     lastLivenessNs := c.lastLivenessNs + cfg.heartbeatTimeoutNs,
                     stats := c.stats.RecordMissed());
        if c1.consecutiveMissed >= cfg.maxMissedHeartbeats then (TransitionTo(c1, Failed, now), true)
        else (TransitionTo(c1, Degraded, now), false)
      else (TransitionTo(c, Failed, now), true)
    else (c, false)
  }

  function ResetLivenessBaseline(c: Conn, now: Time): (r: Conn) {
    c.(lastLivenessNs := now)
  }

  /** Moves to a new socket: per-attempt state is cleared, cumulative statistics are kept. */
  function Rebind(c: Conn, newFd: int, now: Time): (r: Conn) {
    TransitionTo(
      c.(fd := newFd, readAccum := [], writePending := [], nextSequence := 0, acked := [],
         consecutiveMissed := 0, lastLivenessNs := now,
         stats := c.stats.(connectedSinceNs := 0).RecordReconnect(),
         io := c.io.(queued := [], sent := [], handled := [], accepted := [])),
      if c.role == Initiator then Connecting else Handshaking, now)
  }
}
