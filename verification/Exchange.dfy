/** The protocol succeeds when nothing goes wrong: a handshake whose two frames arrive completes on both
    sides, and a heartbeat answered in time is accepted, with its RTT recorded and the miss count cleared.
    The kernel may take a frame in any number of partial sends and deliver it in any number of reads, in
    one wakeup or in several, with ticks and other work of the two reactors in between. */
module Exchange {
  import opened Crc32
  import opened Heartbeat
  import opened ConnectionModel
  import opened ConnectionRuns
  import opened Detection
  import opened Reassembly

  /** Everything written in this attempt, taken by the kernel or still pending. */
  function Out(c: Conn): (r: seq<byte>) {
    c.io.sent + c.writePending
  }

  predicate OneAttempt(steps: seq<Step>) {
    forall i :: 0 <= i < |steps| ==> !steps[i].event.Reconnect?
  }

  lemma OneAttemptPrefix(steps: seq<Step>)
    requires steps != [] && OneAttempt(steps)
    ensures OneAttempt(steps[..|steps| - 1])
  {}

  // ---- What is written stays written ----

  lemma QueueOut(c: Conn, m: HeartbeatMessage)
    ensures OnlyWrote(c, QueueWrite(c, m)) && Out(QueueWrite(c, m)) == Out(c) + Encode(m)
  {
    hide QueueWrite;
    hide Encode;
    hide Sealed;
  }

  lemma PongOut(c: Conn, sequence: uint64, timestampNs: int64)
    ensures Out(c) <= Out(SendPong(c, sequence, timestampNs))
  {
    hide QueueWrite;
    hide Encode;
    hide Sealed;
    QueueOut(c, Message(PONG, c.feedId, sequence, timestampNs));
  }

  lemma PingHandledOut(c: Conn, m: HeartbeatMessage, now: Time)
    ensures Out(c) <= Out(HandlePing(c, m, now))
  {
    hide SendPong;
    var c1 := c.(lastLivenessNs := now);
    var c2 := if c1.io.verdicts == [] then c1 else c1.(io := c1.io.(verdicts := c1.io.verdicts[1..]));
    PongOut(c2, m.sequence, m.timestampNs);
  }

  lemma MessageOut(c: Conn, timeoutNs: int, m: HeartbeatMessage, now: Time)
    ensures Out(c) <= Out(HandleMessage(c, timeoutNs, m, now))
  {
    hide QueueWrite;
    hide HandlePing;
    hide Remember;
    hide Message;
    hide Encode;
    hide Sealed;
    PingHandledOut(c, m, now);
    QueueOut(c, Message(CONNECT_ACK, c.feedId, 0, now));
  }

  lemma {:induction false} DrainOut(c: Conn, timeoutNs: int, now: Time)
    ensures Out(c) <= Out(Drain(c, timeoutNs, now))
    decreases |c.readAccum|
  {
    hide Decode;
    hide HandleMessage;
    if |c.readAccum| >= MESSAGE_SIZE && Decode(c.readAccum[..MESSAGE_SIZE]).Some? {
      var m := Decode(c.readAccum[..MESSAGE_SIZE]).value;
      var c0 := TakeFrame(c, m);
      var c1 := HandleMessage(c0, timeoutNs, m, now);
      MessageOut(c0, timeoutNs, m, now);
      HandlersLeaveInput(c0, timeoutNs, m, now);
      if c1.state != Failed {
        DrainOut(c1, timeoutNs, now);
      }
    }
  }

  lemma ReadOut(c: Conn, s: Step)
    requires s.event.Readable?
    ensures Out(c) <= Out(Apply(c, s))
  {
    hide Drain;
    hide Receive;
    var k := WithKernel(c, s.clock, s.sends, s.verdicts);
    DrainOut(k.(readAccum := Receive(k.readAccum, s.event.recvs).0), s.cfg.heartbeatTimeoutNs, s.event.now);
  }

  lemma WrittenOut(c: Conn, s: Step)
    requires s.event.Writable? || s.event.PingDue? || s.event.PongDue?
    ensures Out(c) <= Out(Apply(c, s))
  {
    hide QueueWrite;
    hide Flush;
    hide Message;
    hide Encode;
    hide Sealed;
    var k := WithKernel(c, s.clock, s.sends, s.verdicts);
    match s.event {
      case Writable(now, _) =>
        QueueOut(TransitionTo(k, Handshaking, now), Message(CONNECT_HELLO, c.feedId, 0, now));
      case PingDue(now) =>
        QueueOut(k.(nextSequence := NextSequence(k.nextSequence)), Message(PING, c.feedId, c.nextSequence, now));
      case PongDue(sequence, timestampNs) =>
        QueueOut(k, Message(PONG, c.feedId, sequence, timestampNs));
      case _ =>
    }
  }

  lemma {:induction false} RunOut(c: Conn, steps: seq<Step>)
    requires OneAttempt(steps)
    ensures Out(c) <= Out(Run(c, steps))
    decreases |steps|
  {
    hide Apply;
    hide Out;
    if steps != [] {
      var front, s := steps[..|steps| - 1], steps[|steps| - 1];
      OneAttemptPrefix(steps);
      RunOut(c, front);
      StepOut(Run(c, front), s);
    }
  }

  lemma StepOut(c: Conn, s: Step)
    requires !s.event.Reconnect?
    ensures Out(c) <= Out(Apply(c, s))
  {
    if s.event.Readable? {
      hide Apply;
      ReadOut(c, s);
    } else if s.event.Writable? || s.event.PingDue? || s.event.PongDue? {
      hide Apply;
      WrittenOut(c, s);
    } else {
      hide CheckTimeout;
      TimerOut(c, s);
    }
  }

  lemma TimerOut(c: Conn, s: Step)
    requires s.event.Hangup? || s.event.Tick? || s.event.NewBaseline?
    ensures Out(Apply(c, s)) == Out(c)
  {}

  // ---- What is pending goes out ----

  /** The kernel takes every chunk it is offered. */
  predicate Generous(sends: seq<Send>) {
    forall i :: 0 <= i < |sends| ==> sends[i].Accepted? && sends[i].n >= SEND_CHUNK
  }

  /** A flush sends as many whole chunks as the kernel takes, and stops at the end of the queue. With what the queue and the
      sent bytes add up to, this says which bytes. */
  lemma {:induction false} FlushProgress(c: Conn)
    requires Generous(c.io.sends)
    ensures Flush(c).state == c.state
    ensures
      |Flush(c).writePending| ==
      if |c.writePending| <= SEND_CHUNK * |c.io.sends| then 0 else |c.writePending| - SEND_CHUNK * |c.io.sends|
    decreases |c.writePending|
  {
    if c.writePending != [] && c.io.sends != [] {
      var chunk := Min(SEND_CHUNK, |c.writePending|);
      var c1 := c.(io := c.io.(sends := c.io.sends[1..]));
      FlushProgress(c1.(writePending := c1.writePending[chunk..],
                        io := c1.io.(sent := c1.io.sent + c1.writePending[..chunk])));
    }
  }

  /** A kernel that takes less than it is offered ends the flush there. */
  lemma FlushStops(c: Conn)
    requires c.io.sends != [] && c.io.sends[0].Accepted?
    requires 0 < c.io.sends[0].n < SEND_CHUNK && c.io.sends[0].n < |c.writePending|
    ensures Flush(c).io.sends == c.io.sends[1..] && Flush(c).state == c.state
    ensures |Flush(c).writePending| == |c.writePending| - c.io.sends[0].n
  {}

  /** Write interest is wanted exactly when a writability event, with a kernel that takes what it is offered, would do
      something. */
  lemma WriteInterestExactly(c: Conn, clock: Time, now: Time)
    ensures
      var k := WithKernel(c, clock, [Accepted(SEND_CHUNK)], []);
      WantsWrite(c) <==> OnWritable(k, now, true) != k
  {
    hide QueueWrite;
    hide Encode;
    hide Sealed;
    hide Message;
    var k := WithKernel(c, clock, [Accepted(SEND_CHUNK)], []);
    if c.state != Connecting && c.writePending != [] {
      assert Generous(k.io.sends);
      FlushProgress(k);
    }
  }

  // ---- Waiting for the rest of a frame ----

  /** What a connection keeps while no frame completes and it does not fail. */
  predicate Held(c: Conn, r: Conn) {
    && r.role == c.role && r.feedId == c.feedId && r.acked == c.acked
    && r.io.handled == c.io.handled && r.io.rtts == c.io.rtts && r.io.accepted == c.io.accepted
    && r.stats.heartbeatsAcked == c.stats.heartbeatsAcked
    && (Live(c) ==> Live(r)) && (c.state == Handshaking ==> r.state == Handshaking)
    && (c.role == Responder ==> r.state == c.state)
  }

  lemma PartialRead(c: Conn, s: Step)
    requires s.event.Readable? && c.state != Failed && Apply(c, s).state != Failed
    requires |c.readAccum + Delivered(s.event.recvs)| < MESSAGE_SIZE
    ensures Held(c, Apply(c, s)) && Apply(c, s).readAccum == c.readAccum + Delivered(s.event.recvs)
  {
    hide Receive;
    ReceiveAppends(c.readAccum, s.event.recvs);
  }

  lemma OtherHeld(c: Conn, s: Step)
    requires !s.event.Readable? && !s.event.Reconnect?
    requires c.state != Failed && c.state != Connecting && Apply(c, s).state != Failed
    ensures Held(c, Apply(c, s)) && Apply(c, s).readAccum == c.readAccum
  {
    hide QueueWrite;
    hide Flush;
    hide Message;
    hide Encode;
    hide Sealed;
  }

  lemma {:induction false} RunHeld(c: Conn, steps: seq<Step>)
    requires OneAttempt(steps) && c.state != Failed && c.state != Connecting && Run(c, steps).state != Failed
    requires |c.readAccum + StreamOf(steps)| < MESSAGE_SIZE
    ensures Held(c, Run(c, steps)) && Run(c, steps).readAccum == c.readAccum + StreamOf(steps)
    ensures Run(c, steps).state != Connecting
    decreases |steps|
  {
    hide Apply;
    if steps != [] {
      var front, s := steps[..|steps| - 1], steps[|steps| - 1];
      var p := Run(c, front);
      if p.state == Failed {
        FailedAbsorbing(p, s);
      }
      OneAttemptPrefix(steps);
      RunHeld(c, front);
      if s.event.Readable? {
        assert p.readAccum + Delivered(s.event.recvs) == c.readAccum + StreamOf(steps);
        PartialRead(p, s);
      } else {
        OtherHeld(p, s);
      }
      StillUp(c, Run(c, steps));
    }
  }

  lemma StillUp(c: Conn, r: Conn)
    requires Held(c, r) && c.state != Connecting && c.state != Failed
    ensures r.state != Connecting
  {}

  /** The reads of `steps` and then `last` deliver exactly `m`, the last byte of it in `last`. */
  predicate Arrives(c: Conn, steps: seq<Step>, last: Step, m: HeartbeatMessage) {
    && OneAttempt(steps) && last.event.Readable?
    && Run(c, steps).state != Failed
    && |StreamOf(steps)| < MESSAGE_SIZE
    && StreamOf(steps) + Delivered(last.event.recvs) == Encode(m)
    && Receive(StreamOf(steps), last.event.recvs).1 == Drained
  }

  function TakeWhole(c: Conn, s: Step, m: HeartbeatMessage): (r: Conn) {
    WithKernel(c, s.clock, s.sends, s.verdicts).(readAccum := [], io := WithKernel(c, s.clock, s.sends, s.verdicts).io.(
      handled := c.io.handled + [Sealed(m)]))
  }

  lemma CompletingRead(p: Conn, s: Step, m: HeartbeatMessage)
    requires s.event.Readable? && Valid(m) && p.readAccum + Delivered(s.event.recvs) == Encode(m)
    requires Receive(p.readAccum, s.event.recvs).1 == Drained
    ensures Apply(p, s) == HandleMessage(TakeWhole(p, s, m), s.cfg.heartbeatTimeoutNs, Sealed(m), s.event.now)
  {
    hide Encode;
    hide Sealed;
    hide Decode;
    hide Receive;
    hide HandleMessage;
    ReceiveAppends(p.readAccum, s.event.recvs);
    DecodeEncode(m);
    var bytes, T := Encode(m), s.cfg.heartbeatTimeoutNs;
    assert bytes[..MESSAGE_SIZE] == bytes && bytes[MESSAGE_SIZE..] == [];
    var c1 := WithKernel(p, s.clock, s.sends, s.verdicts).(readAccum := bytes);
    var taken := TakeFrame(c1, Sealed(m));
    assert taken == TakeWhole(p, s, m);
    HandlersLeaveInput(taken, T, Sealed(m), s.event.now);
    var r := HandleMessage(taken, T, Sealed(m), s.event.now);
    assert r.(readAccum := []) == r;
    assert Drain(c1, T, s.event.now) == r;
  }

  /** However it is cut, the frame is handled whole, once, by the read that completes it. */
  lemma FrameCompletes(c: Conn, steps: seq<Step>, last: Step, m: HeartbeatMessage)
    requires c.readAccum == [] && c.state != Failed && c.state != Connecting && Valid(m) && Arrives(c, steps, last, m)
    ensures last.event.Readable?
    ensures
      var p := Run(c, steps);
      && Held(c, p)
      && Apply(p, last) == HandleMessage(TakeWhole(p, last, m), last.cfg.heartbeatTimeoutNs, Sealed(m), last.event.now)
  {
    hide Run;
    hide Apply;
    hide Encode;
    hide Sealed;
    hide TakeWhole;
    hide HandleMessage;
    hide Held;
    assert c.readAccum + StreamOf(steps) == StreamOf(steps);
    RunHeld(c, steps);
    CompletingRead(Run(c, steps), last, m);
  }

  lemma SealedParts(m: HeartbeatMessage)
    ensures
      var r := Sealed(m);
      r.kind == m.kind && r.feedId == m.feedId && r.sequence == m.sequence && r.timestampNs == m.timestampNs
  {
    hide Checksum;
    hide Payload;
  }

  // ---- One heartbeat ----

  /** The write side of one ping step. */
  lemma PingWritten(ini: Conn, s: Step)
    requires ini.role == Initiator && Live(ini) && s.event.PingDue? && Apply(ini, s).state != Failed
    ensures
      var r := Apply(ini, s);
      && Out(r) == Out(ini) + Encode(Message(PING, ini.feedId, ini.nextSequence, s.event.now))
      && Held(ini, r) && r.readAccum == ini.readAccum && Live(r)
  {
    hide Encode;
    hide Sealed;
    hide QueueWrite;
    hide Message;
    var k := WithKernel(ini, s.clock, s.sends, s.verdicts);
    QueueOut(k.(nextSequence := NextSequence(k.nextSequence)), Message(PING, ini.feedId, ini.nextSequence, s.event.now));
  }

  predicate RepliesAtOnce(s: Step) {
    s.verdicts == [] || s.verdicts[0] == Reply
  }

  /** The responder's turn: the read that completes the PING queues the reply, echoing sequence and timestamp. */
  lemma PingAnswered(peer: Conn, wait: seq<Step>, hear: Step, ping: HeartbeatMessage)
    requires peer.role == Responder && peer.state == Healthy && peer.readAccum == []
    requires Valid(ping) && ping.kind == PING && Arrives(peer, wait, hear, ping) && RepliesAtOnce(hear)
    ensures
      var p := Run(peer, wait);
      Out(Apply(p, hear)) == Out(p) + Encode(Message(PONG, peer.feedId, ping.sequence, ping.timestampNs))
  {
    hide Encode;
    hide Sealed;
    hide QueueWrite;
    hide Apply;
    hide Run;
    hide Arrives;
    FrameCompletes(peer, wait, hear, ping);
    SealedParts(ping);
    var p := Run(peer, wait);
    var k := TakeWhole(p, hear, ping);
    var k1 := k.(lastLivenessNs := hear.event.now);
    var k2 := if k1.io.verdicts == [] then k1 else k1.(io := k1.io.(verdicts := k1.io.verdicts[1..]));
    QueueOut(k2, Message(PONG, peer.feedId, ping.sequence, ping.timestampNs));
  }

  /** What an accepted PONG does to an initiator. */
  predicate Refreshes(c: Conn, r: Conn, v: Time, rtt: int) {
    && r.state == Healthy && r.consecutiveMissed == 0 && r.lastLivenessNs == v
    && r.io.rtts == c.io.rtts + [rtt]
    && r.stats.heartbeatsAcked == c.stats.heartbeatsAcked + 1 && r.stats.lastRttNs == rtt
  }

  /** The initiator's turn: the PONG is evidence unless it is repeated or late. */
  lemma PongAccepted(ini: Conn, mid: seq<Step>, read: Step, pong: HeartbeatMessage)
    requires ini.role == Initiator && Live(ini) && ini.readAccum == []
    requires Valid(pong) && pong.kind == PONG && Arrives(ini, mid, read, pong)
    requires pong.sequence !in ini.acked && 0 <= read.event.now - pong.timestampNs < read.cfg.heartbeatTimeoutNs
    ensures Refreshes(ini, Apply(Run(ini, mid), read), read.event.now, read.event.now - pong.timestampNs)
  {
    hide Encode;
    hide Sealed;
    hide Apply;
    hide Run;
    hide Remember;
    hide Arrives;
    FrameCompletes(ini, mid, read, pong);
    SealedParts(pong);
  }

  /** Bytes that continue the same stream from the same place, and are as many, are the same. */
  lemma SameContinuation(a: seq<byte>, b: seq<byte>, c: seq<byte>, whole: seq<byte>)
    requires a + b <= whole && a + c <= whole && |b| == |c|
    ensures b == c
  {
    assert b == whole[|a|..|a| + |b|] && c == whole[|a|..|a| + |c|];
  }

  /** What arrives is what was written: if frame `m` was written right after `a`, and the bytes that arrive are
      the next ones the writer's kernel took after `a`, they are that frame. */
  lemma WhatArrives(w: Conn, later: seq<Step>, a: seq<byte>, m: HeartbeatMessage, arrived: seq<byte>)
    requires OneAttempt(later) && Out(w) == a + Encode(m)
    requires |arrived| == MESSAGE_SIZE && a + arrived <= Run(w, later).io.sent
    ensures arrived == Encode(m)
  {
    hide Encode;
    hide Run;
    RunOut(w, later);
    SameContinuation(a, arrived, Encode(m), Out(Run(w, later)));
  }

  /** The reads of `steps` and then `last` deliver one frame's worth of the bytes that follow `before` in what
      the other side's kernel has taken, without failing the reader first; `last` completes it. */
  predicate Delivery(c: Conn, steps: seq<Step>, last: Step, before: seq<byte>, taken: seq<byte>) {
    && OneAttempt(steps) && last.event.Readable?
    && Run(c, steps).state != Failed
    && |StreamOf(steps)| < MESSAGE_SIZE
    && |StreamOf(steps) + Delivered(last.event.recvs)| == MESSAGE_SIZE
    && before + (StreamOf(steps) + Delivered(last.event.recvs)) <= taken
    && Receive(StreamOf(steps), last.event.recvs).1 == Drained
  }

  /** A heartbeat answered in time is accepted. The initiator pings at t and goes on with `mid` (flushing, ticking,
      reading); the responder works through `wait`, hears the PING in `hear`, and goes on with `after` (flushing);
      the initiator's read `read` completes the PONG at v. If neither failed on the way, v - t is under the timeout
      and the number is not in the window, the initiator ends Healthy, with no misses, fresh liveness and exactly
      v - t recorded. */
  lemma HeartbeatRoundTrip(ini: Conn, peer: Conn, ping: Step, mid: seq<Step>, read: Step,
                           wait: seq<Step>, hear: Step, after: seq<Step>)
    requires ini.role == Initiator && Live(ini) && ini.readAccum == [] && ping.event.PingDue?
    requires peer.role == Responder && peer.state == Healthy && peer.readAccum == []
    requires OneAttempt(after) && RepliesAtOnce(hear)
    requires Delivery(peer, wait, hear, Out(ini), Run(Apply(ini, ping), mid).io.sent)
    requires Delivery(Apply(ini, ping), mid, read, Out(Run(peer, wait)), Run(Apply(Run(peer, wait), hear), after).io.sent)
    requires ini.nextSequence !in ini.acked
    requires 0 <= read.event.now - ping.event.now < read.cfg.heartbeatTimeoutNs
    ensures Refreshes(ini, Apply(Run(Apply(ini, ping), mid), read), read.event.now, read.event.now - ping.event.now)
  {
    hide Encode;
    hide Apply;
    hide Run;
    hide Receive;
    hide Delivered;
    hide StreamOf;
    hide Out;
    var t := ping.event.now;
    var ini1, p := Apply(ini, ping), Run(peer, wait);
    var pingFrame, pongFrame := Message(PING, ini.feedId, ini.nextSequence, t), Message(PONG, peer.feedId, ini.nextSequence, t);
    UnfailedStart(ini1, mid);
    PingWritten(ini, ping);
    WhatArrives(ini1, mid, Out(ini), pingFrame, StreamOf(wait) + Delivered(hear.event.recvs));
    PingAnswered(peer, wait, hear, pingFrame);
    WhatArrives(Apply(p, hear), after, Out(p), pongFrame, StreamOf(mid) + Delivered(read.event.recvs));
    PongAccepted(ini1, mid, read, pongFrame);
  }

  /** A run that ends unfailed was unfailed when it began. */
  lemma {:induction false} UnfailedStart(c: Conn, steps: seq<Step>)
    requires OneAttempt(steps) && Run(c, steps).state != Failed
    ensures c.state != Failed
    decreases |steps|
  {
    hide Apply;
    if steps != [] {
      var front, s := steps[..|steps| - 1], steps[|steps| - 1];
      if Run(c, front).state == Failed {
        FailedAbsorbing(Run(c, front), s);
      }
      OneAttemptPrefix(steps);
      UnfailedStart(c, front);
    }
  }

  // ---- The handshake ----

  lemma HelloWritten(ini: Conn, s: Step)
    requires ini.role == Initiator && ini.state == Connecting
    requires s.event.Writable? && s.event.connectOk && Apply(ini, s).state != Failed
    ensures
      var r := Apply(ini, s);
      && Out(r) == Out(ini) + Encode(Message(CONNECT_HELLO, ini.feedId, 0, s.event.now))
      && r.role == Initiator && r.state == Handshaking && r.feedId == ini.feedId && r.readAccum == ini.readAccum
  {
    hide Encode;
    hide Sealed;
    hide QueueWrite;
    hide Message;
    var k := TransitionTo(WithKernel(ini, s.clock, s.sends, s.verdicts), Handshaking, s.event.now);
    QueueOut(k, Message(CONNECT_HELLO, ini.feedId, 0, s.event.now));
  }

  lemma HelloAnswered(peer: Conn, wait: seq<Step>, hear: Step, hello: HeartbeatMessage)
    requires peer.role == Responder && peer.state == Handshaking && peer.readAccum == []
    requires Valid(hello) && hello.kind == CONNECT_HELLO && hello.feedId == peer.feedId && Arrives(peer, wait, hear, hello)
    ensures
      var p := Run(peer, wait);
      var r := Apply(p, hear);
      && Out(r) == Out(p) + Encode(Message(CONNECT_ACK, peer.feedId, 0, hear.event.now))
      && r.state == Healthy && r.lastLivenessNs == hear.event.now
  {
    hide Encode;
    hide Sealed;
    hide QueueWrite;
    hide Apply;
    hide Run;
    hide Arrives;
    FrameCompletes(peer, wait, hear, hello);
    SealedParts(hello);
    var p := Run(peer, wait);
    QueueOut(TakeWhole(p, hear, hello), Message(CONNECT_ACK, peer.feedId, 0, hear.event.now));
  }

  lemma AckAccepted(ini: Conn, mid: seq<Step>, read: Step, ack: HeartbeatMessage)
    requires ini.role == Initiator && ini.state == Handshaking && ini.readAccum == []
    requires Valid(ack) && ack.kind == CONNECT_ACK && ack.feedId == ini.feedId && Arrives(ini, mid, read, ack)
    ensures
      var r := Apply(Run(ini, mid), read);
      r.state == Healthy && r.lastLivenessNs == read.event.now && r.stats.connectedSinceNs == read.event.now
  {
    hide Encode;
    hide Sealed;
    hide Apply;
    hide Run;
    hide Arrives;
    FrameCompletes(ini, mid, read, ack);
    SealedParts(ack);
  }

  /** Connect completion `connect`, HELLO completed by `hear`, ACK completed by `read`, with any other work of the
      two sides in between: both end Healthy, each with liveness from the moment it heard the other. */
  lemma HandshakeCompletes(ini: Conn, peer: Conn, connect: Step, mid: seq<Step>, read: Step,
                           wait: seq<Step>, hear: Step, after: seq<Step>)
    requires ini.role == Initiator && ini.state == Connecting && ini.readAccum == []
    requires connect.event.Writable? && connect.event.connectOk
    requires peer.role == Responder && peer.state == Handshaking && peer.readAccum == [] && peer.feedId == ini.feedId
    requires OneAttempt(after)
    requires Delivery(peer, wait, hear, Out(ini), Run(Apply(ini, connect), mid).io.sent)
    requires Delivery(Apply(ini, connect), mid, read, Out(Run(peer, wait)), Run(Apply(Run(peer, wait), hear), after).io.sent)
    ensures
      var p := Apply(Run(peer, wait), hear);
      var r := Apply(Run(Apply(ini, connect), mid), read);
      && p.state == Healthy && p.lastLivenessNs == hear.event.now
      && r.state == Healthy && r.lastLivenessNs == read.event.now && r.stats.connectedSinceNs == read.event.now
  {
    hide Encode;
    hide Apply;
    hide Run;
    hide Receive;
    hide Delivered;
    hide StreamOf;
    hide Out;
    var ini1, p := Apply(ini, connect), Run(peer, wait);
    var hello := Message(CONNECT_HELLO, ini.feedId, 0, connect.event.now);
    var ack := Message(CONNECT_ACK, peer.feedId, 0, hear.event.now);
    UnfailedStart(ini1, mid);
    HelloWritten(ini, connect);
    WhatArrives(ini1, mid, Out(ini), hello, StreamOf(wait) + Delivered(hear.event.recvs));
    HelloAnswered(peer, wait, hear, hello);
    WhatArrives(Apply(p, hear), after, Out(p), ack, StreamOf(mid) + Delivered(read.event.recvs));
    AckAccepted(ini1, mid, read, ack);
  }
}
