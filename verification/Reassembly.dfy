/** Stream reassembly: however the kernel cuts a byte stream into reads, and whatever else happens in
    between, the frames a connection handles are those of parsing the whole stream at once. */
module Reassembly {
  import opened Crc32
  import opened Heartbeat
  import opened ConnectionModel
  import opened ConnectionRuns
  import opened Detection

  // ---- Parsing a whole stream ----

  /** The frames before the first bad one, the bytes after them, and whether a bad frame follows. */
  datatype Parsed = Parsed(frames: seq<HeartbeatMessage>, rest: seq<byte>, bad: bool)

  function Parse(s: seq<byte>): (r: Parsed)
    ensures !r.bad ==> |r.rest| < MESSAGE_SIZE
    ensures r.bad ==> |r.rest| >= MESSAGE_SIZE
    decreases |s|
  {
    if |s| < MESSAGE_SIZE then Parsed([], s, false)
    else
      match Decode(s[..MESSAGE_SIZE])
      case None => Parsed([], s, true)
      case Some(m) =>
        var p := Parse(s[MESSAGE_SIZE..]);
        p.(frames := [m] + p.frames)
  }

  /** Parsing resumes: what follows a parsed prefix is parsed from its leftover bytes, unless the
      prefix already contains a bad frame, after which nothing more is parsed. */
  lemma {:induction false} ParseConcat(a: seq<byte>, b: seq<byte>)
    ensures
      var p := Parse(a);
      var q := Parse(p.rest + b);
      Parse(a + b) == if p.bad then p.(rest := p.rest + b) else q.(frames := p.frames + q.frames)
    decreases |a|
  {
    hide Decode;
    if |a| < MESSAGE_SIZE {
      assert Parse(a).frames + Parse(a + b).frames == Parse(a + b).frames;
    } else {
      assert (a + b)[..MESSAGE_SIZE] == a[..MESSAGE_SIZE];
      if Decode(a[..MESSAGE_SIZE]).Some? {
        assert (a + b)[MESSAGE_SIZE..] == a[MESSAGE_SIZE..] + b;
        ParseConcat(a[MESSAGE_SIZE..], b);
        var p := Parse(a[MESSAGE_SIZE..]);
        var m := Decode(a[..MESSAGE_SIZE]).value;
        var q := Parse(p.rest + b);
        assert [m] + (p.frames + q.frames) == ([m] + p.frames) + q.frames;
      }
    }
  }

  // ---- Draining the accumulated bytes ----

  predicate LastLogged(c: Conn, reason: Reason) {
    c.io.log != [] && c.io.log[|c.io.log| - 1] == reason
  }

  /** How far a drain got through the parse of the buffer it started from. */
  predicate DrainedAlong(c: Conn, r: Conn, p: Parsed) {
    var n := |r.io.handled| - |c.io.handled|;
    && 0 <= n <= |p.frames|
    && r.io.handled == c.io.handled + p.frames[..n]
    && (r.state != Failed ==> n == |p.frames| && !p.bad && r.readAccum == p.rest)
    && (n == |p.frames| && p.bad ==> r.state == Failed)
    && (r.state == Failed && LastLogged(r, CorruptFrame) ==> n == |p.frames| && p.bad)
    && (r.state == Failed ==> r.readAccum == [])
  }

  /** A write that fails a connection says why, and the reason is never a corrupt frame. */
  lemma {:induction false} FlushReason(c: Conn)
    requires c.state != Failed && Flush(c).state == Failed
    ensures LastLogged(Flush(c), SocketError)
    decreases |c.writePending|
  {
    if c.io.sends[0].Accepted? && c.io.sends[0].n > 0 {
      var chunk := Min(SEND_CHUNK, |c.writePending|);
      var k := Min(c.io.sends[0].n, chunk);
      var c1 := c.(io := c.io.(sends := c.io.sends[1..]));
      FlushReason(c1.(writePending := c1.writePending[k..], io := c1.io.(sent := c1.io.sent + c1.writePending[..k])));
    }
  }

  lemma QueueReason(c: Conn, m: HeartbeatMessage)
    requires c.state != Failed && QueueWrite(c, m).state == Failed
    ensures LastLogged(QueueWrite(c, m), SocketError) || LastLogged(QueueWrite(c, m), WriteOverflow)
  {
    hide Flush;
    hide Encode;
    hide Sealed;
    var c1 := Enqueue(c, m);
    if |c1.writePending| <= MAX_WRITE_PENDING_BYTES && c.writePending == [] {
      FlushReason(c1);
    }
  }

  /** A handler that fails the connection has its own reason: only the parser reports corrupt frames. */
  lemma HandlerReason(c: Conn, timeoutNs: int, m: HeartbeatMessage, now: Time)
    requires c.state != Failed && HandleMessage(c, timeoutNs, m, now).state == Failed
    ensures !LastLogged(HandleMessage(c, timeoutNs, m, now), CorruptFrame)
  {
    hide QueueWrite;
    hide HandlePing;
    hide Remember;
    hide Message;
    if m.kind == PING {
      PingReason(c, m, now);
    }
  }

  lemma PongReason(c: Conn, sequence: uint64, timestampNs: int64)
    requires c.state != Failed && SendPong(c, sequence, timestampNs).state == Failed
    ensures !LastLogged(SendPong(c, sequence, timestampNs), CorruptFrame)
  {
    hide QueueWrite;
    hide Message;
    hide Encode;
    hide Sealed;
    hide LastLogged;
    QueueReason(c, Message(PONG, c.feedId, sequence, timestampNs));
    OneReason(SendPong(c, sequence, timestampNs));
  }

  lemma OneReason(c: Conn)
    ensures LastLogged(c, SocketError) || LastLogged(c, WriteOverflow) ==> !LastLogged(c, CorruptFrame)
  {}

  lemma PingReason(c: Conn, m: HeartbeatMessage, now: Time)
    requires c.state != Failed && HandlePing(c, m, now).state == Failed
    ensures !LastLogged(HandlePing(c, m, now), CorruptFrame)
  {
    hide SendPong;
    var c1 := c.(lastLivenessNs := now);
    var c2 := if c1.io.verdicts == [] then c1 else c1.(io := c1.io.(verdicts := c1.io.verdicts[1..]));
    if SendPong(c2, m.sequence, m.timestampNs).state == Failed {
      PongReason(c2, m.sequence, m.timestampNs);
    }
  }

  lemma {:induction false} DrainParses(c: Conn, timeoutNs: int, now: Time)
    requires c.state != Failed
    ensures DrainedAlong(c, Drain(c, timeoutNs, now), Parse(c.readAccum))
    decreases |c.readAccum|
  {
    hide Decode;
    hide HandleMessage;
    if |c.readAccum| >= MESSAGE_SIZE {
      var d := Decode(c.readAccum[..MESSAGE_SIZE]);
      if d.Some? {
        var m := d.value;
        var c0 := TakeFrame(c, m);
        var c1 := HandleMessage(c0, timeoutNs, m, now);
        HandlersLeaveInput(c0, timeoutNs, m, now);
        var p := Parse(c.readAccum[MESSAGE_SIZE..]);
        assert Parse(c.readAccum).frames == [m] + p.frames;
        if c1.state != Failed {
          DrainParses(c1, timeoutNs, now);
          var r := Drain(c1, timeoutNs, now);
          var n := |r.io.handled| - |c1.io.handled|;
          assert ([m] + p.frames)[..n + 1] == [m] + p.frames[..n];
        } else {
          HandlerReason(c0, timeoutNs, m, now);
          assert ([m] + p.frames)[..1] == [m];
        }
      }
    }
  }

  // ---- Reads ----

  /** The bytes one call to `on_readable` receives before its recv loop stops. */
  function Delivered(recvs: seq<Recv>): (r: seq<byte>)
    decreases |recvs|
  {
    if recvs == [] || !recvs[0].Data? then [] else recvs[0].bytes + Delivered(recvs[1..])
  }

  lemma {:induction false} ReceiveAppends(accum: seq<byte>, recvs: seq<Recv>)
    ensures Receive(accum, recvs).1 != Overflowed ==> Receive(accum, recvs).0 == accum + Delivered(recvs)
    decreases |recvs|
  {
    if recvs != [] && recvs[0].Data? {
      ReceiveAppends(accum + recvs[0].bytes, recvs[1..]);
      assert accum + recvs[0].bytes + Delivered(recvs[1..]) == accum + Delivered(recvs);
    }
  }

  /** A read crosses the cap exactly when what it leaves in the buffer and what it receives together do. */
  lemma {:induction false} OverflowExactly(accum: seq<byte>, recvs: seq<Recv>)
    requires |accum| <= MAX_READ_ACCUM_BYTES
    ensures Receive(accum, recvs).1 == Overflowed <==> |accum| + |Delivered(recvs)| > MAX_READ_ACCUM_BYTES
    decreases |recvs|
  {
    if recvs != [] && recvs[0].Data? && |accum + recvs[0].bytes| <= MAX_READ_ACCUM_BYTES {
      OverflowExactly(accum + recvs[0].bytes, recvs[1..]);
    }
  }

  /** And then it fails the connection at once: none of the frames it received is handled. */
  lemma ReadCap(c: Conn, timeoutNs: int, now: Time, recvs: seq<Recv>)
    requires |c.readAccum| + |Delivered(recvs)| > MAX_READ_ACCUM_BYTES >= |c.readAccum|
    ensures
      var r := OnReadable(c, timeoutNs, now, recvs);
      r.state == Failed && LastLogged(r, ReadOverflow) && r.io.handled == c.io.handled
  {
    hide Drain;
    hide Receive;
    hide Delivered;
    OverflowExactly(c.readAccum, recvs);
  }

  /** A peer that says goodbye is gone: a DISCONNECT fails the connection, and nothing after it is handled. */
  lemma DisconnectCloses(c: Conn, timeoutNs: int, now: Time)
    requires c.state != Failed && Parse(c.readAccum).frames != [] && Parse(c.readAccum).frames[0].kind == DISCONNECT
    ensures
      var r := Drain(c, timeoutNs, now);
      r.state == Failed && LastLogged(r, PeerClosed) && r.io.handled == c.io.handled + [Parse(c.readAccum).frames[0]]
  {
    hide Decode;
  }

  /** A read ended by EOF handles every complete frame it received, in order, before acting on the
      close; only a failure of the frames themselves cuts that short. */
  lemma FramesBeforeEof(c: Conn, timeoutNs: int, now: Time, recvs: seq<Recv>)
    requires c.state != Failed
    requires Receive(c.readAccum, recvs).1 == Closed
    ensures
      var r := OnReadable(c, timeoutNs, now, recvs);
      var p := Parse(c.readAccum + Delivered(recvs));
      var d := Drain(c.(readAccum := c.readAccum + Delivered(recvs)), timeoutNs, now);
      && r.state == Failed
      && DrainedAlong(c, d, p) && r.io.handled == d.io.handled
      && (d.state != Failed ==> r.io.handled == c.io.handled + p.frames && LastLogged(r, PeerClosed))
  {
    hide Drain;
    hide Decode;
    ReceiveAppends(c.readAccum, recvs);
    var c1 := c.(readAccum := c.readAccum + Delivered(recvs));
    DrainParses(c1, timeoutNs, now);
  }

  // ---- Whole runs ----

  /** Every byte received during a run's current attempt: a new socket starts a new stream. */
  function StreamOf(steps: seq<Step>): (r: seq<byte>)
    decreases |steps|
  {
    if steps == [] then []
    else
      var s := steps[|steps| - 1];
      if s.event.Reconnect? then []
      else StreamOf(steps[..|steps| - 1]) + if s.event.Readable? then Delivered(s.event.recvs) else []
  }

  predicate InStep(c: Conn, stream: seq<byte>) {
    var p := Parse(stream);
    !p.bad && c.io.handled == p.frames && c.readAccum == p.rest
  }

  lemma OnlyReadsRead(c: Conn, s: Step)
    requires !s.event.Readable? && !s.event.Reconnect?
    ensures Apply(c, s).io.handled == c.io.handled && Apply(c, s).readAccum == c.readAccum
  {
    hide QueueWrite;
    hide Flush;
    hide Encode;
    hide Sealed;
    hide Message;
  }

  lemma ReadInStep(c: Conn, s: Step, stream: seq<byte>)
    requires s.event.Readable? && InStep(c, stream) && c.state != Failed && Apply(c, s).state != Failed
    ensures InStep(Apply(c, s), stream + Delivered(s.event.recvs))
  {
    hide Drain;
    hide Parse;
    hide Receive;
    hide Delivered;
    var recvs := s.event.recvs;
    var k := WithKernel(c, s.clock, s.sends, s.verdicts);
    ReceiveAppends(k.readAccum, recvs);
    var k1 := k.(readAccum := k.readAccum + Delivered(recvs));
    ParseConcat(stream, Delivered(recvs));
    DrainParses(k1, s.cfg.heartbeatTimeoutNs, s.event.now);
  }

  /** Segmentation does not matter: after any run, reconnects included, the frames handled in the current
      attempt and the bytes left over are those of parsing everything received in it, in one piece. */
  lemma {:induction false} StreamReassembly(fd: int, role: Role, feedId: uint32, clock: Time, steps: seq<Step>)
    requires Run(NewConn(fd, role, feedId, clock), steps).state != Failed
    ensures InStep(Run(NewConn(fd, role, feedId, clock), steps), StreamOf(steps))
    decreases |steps|
  {
    hide Apply;
    hide InStep;
    var c := NewConn(fd, role, feedId, clock);
    if steps == [] {
      NewInStep(fd, role, feedId, clock);
    } else {
      var front, last := steps[..|steps| - 1], steps[|steps| - 1];
      var p := Run(c, front);
      RunStep(c, steps);
      if last.event.Reconnect? {
        ReboundInStep(p, last);
      } else {
        if p.state == Failed {
          FailedAbsorbing(p, last);
        }
        StreamReassembly(fd, role, feedId, clock, front);
        if last.event.Readable? {
          ReadInStep(p, last, StreamOf(front));
        } else {
          OnlyReadsRead(p, last);
          assert StreamOf(steps) == StreamOf(front);
          SameInStep(p, Apply(p, last), StreamOf(front));
        }
      }
    }
  }

  /** Where a read stops: of the whole stream received so far, a read that is not cut off by the buffer cap
      handles the frames in order, as far as the first bad frame or the first frame that fails the connection;
      a corrupt frame is reported only when it is the first bad frame of the whole stream and every frame
      before it has been handled. */
  lemma StreamStops(fd: int, role: Role, feedId: uint32, clock: Time, steps: seq<Step>, last: Step)
    requires Run(NewConn(fd, role, feedId, clock), steps).state != Failed
    requires last.event.Readable?
    requires Receive(Run(NewConn(fd, role, feedId, clock), steps).readAccum, last.event.recvs).1 != Overflowed
    ensures
      var r := Apply(Run(NewConn(fd, role, feedId, clock), steps), last);
      var whole := Parse(StreamOf(steps) + Delivered(last.event.recvs));
      && r.io.handled <= whole.frames
      && (r.state != Failed ==> r.io.handled == whole.frames && !whole.bad)
      && (r.state == Failed && LastLogged(r, CorruptFrame) ==> r.io.handled == whole.frames && whole.bad)
  {
    hide Apply;
    hide Run;
    var c := Run(NewConn(fd, role, feedId, clock), steps);
    StreamReassembly(fd, role, feedId, clock, steps);
    ReadStops(c, last, StreamOf(steps));
  }

  lemma ReadStops(c: Conn, s: Step, stream: seq<byte>)
    requires s.event.Readable? && InStep(c, stream) && c.state != Failed
    requires Receive(c.readAccum, s.event.recvs).1 != Overflowed
    ensures
      var r := Apply(c, s);
      var whole := Parse(stream + Delivered(s.event.recvs));
      && r.io.handled <= whole.frames
      && (r.state != Failed ==> r.io.handled == whole.frames && !whole.bad)
      && (r.state == Failed && LastLogged(r, CorruptFrame) ==> r.io.handled == whole.frames && whole.bad)
  {
    hide Drain;
    hide Parse;
    hide Receive;
    hide Delivered;
    var recvs := s.event.recvs;
    var k := WithKernel(c, s.clock, s.sends, s.verdicts);
    ReceiveAppends(k.readAccum, recvs);
    var k1 := k.(readAccum := k.readAccum + Delivered(recvs));
    ParseConcat(stream, Delivered(recvs));
    DrainParses(k1, s.cfg.heartbeatTimeoutNs, s.event.now);
    var p := Parse(k1.readAccum);
    var n := |Drain(k1, s.cfg.heartbeatTimeoutNs, s.event.now).io.handled| - |c.io.handled|;
    assert c.io.handled + p.frames[..n] <= c.io.handled + p.frames;
    if n == |p.frames| {
      assert p.frames[..n] == p.frames;
    }
  }

  /** A new attempt has handled nothing and received nothing. */
  lemma ReboundInStep(c: Conn, s: Step)
    requires s.event.Reconnect?
    ensures InStep(Apply(c, s), [])
  {}

  lemma NewInStep(fd: int, role: Role, feedId: uint32, clock: Time)
    ensures InStep(NewConn(fd, role, feedId, clock), [])
  {}

  lemma SameInStep(c: Conn, r: Conn, stream: seq<byte>)
    requires InStep(c, stream) && r.io.handled == c.io.handled && r.readAccum == c.readAccum
    ensures InStep(r, stream)
  {
    hide Parse;
  }
}
