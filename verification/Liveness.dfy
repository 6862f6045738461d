/** When a silent peer is given up on the responder's side. The time a client was last heard is read from the steps:
    its acceptance, then every read that handled a HELLO or a PING of it. A tick fails it if and only if a whole
    timeout has passed since; so the simulator reaps exactly the clients that have been silent that long, and never
    one that keeps pinging. */
module Liveness {
  import opened Heartbeat
  import opened ConnectionModel
  import CR = ConnectionRuns
  import Detection
  import FS = FeedSimulatorClass

  // ---- Being heard ----

  predicate Speaks(m: HeartbeatMessage) {
    m.kind == CONNECT_HELLO || m.kind == PING
  }

  /** The frames handled since `before` contain a HELLO or a PING. */
  predicate HeardSince(before: Conn, after: Conn) {
    exists i :: |before.io.handled| <= i < |after.io.handled| && Speaks(after.io.handled[i])
  }

  /** A responder heard at `heard`: waiting for its HELLO since then, or Healthy with liveness from then. */
  predicate HeardAt(c: Conn, heard: int) {
    && c.role == Responder
    && match c.state
       case Handshaking => c.stateEnteredNs == heard
       case Healthy => c.lastLivenessNs == heard
       case Failed => true
       case _ => false
  }

  predicate Grew(c: Conn, r: Conn) {
    c.io.handled <= r.io.handled
  }

  lemma MessageHeard(c: Conn, timeoutNs: int, m: HeartbeatMessage, now: Time, heard: int)
    requires HeardAt(c, heard) && c.state != Failed && IsKnownMessageType(m.kind)
    ensures
      var r := HandleMessage(c, timeoutNs, m, now);
      && HeardAt(r, now) && r.io.handled == c.io.handled
      && (r.state != Failed ==> Speaks(m) && r.state == Healthy)
  {
    hide QueueWrite;
    hide Encode;
    hide Sealed;
    hide Message;
  }

  /** What a drain did to a responder, in one of three ways: nothing was handled, everything handled spoke, or it failed. */
  predicate DrainedHeard(c: Conn, r: Conn, now: Time, heard: int) {
    && r.role == Responder && Grew(c, r)
    && (r.state == Failed
        || (r.io.handled == c.io.handled && HeardAt(r, heard))
        || (HeardSince(c, r) && HeardAt(r, now)))
  }

  lemma HeardFirst(c: Conn, c1: Conn, m: HeartbeatMessage, r: Conn, now: Time)
    requires c1.io.handled == c.io.handled + [m] && Speaks(m) && DrainedHeard(c1, r, now, now)
    ensures DrainedHeard(c, r, now, now)
    ensures r.state != Failed ==> HeardSince(c, r) && HeardAt(r, now)
  {
    var k := |c.io.handled|;
    assert c1.io.handled[k] == m;
    if r.state != Failed {
      assert r.io.handled[k] == m;
    }
  }

  lemma {:induction false} DrainHeard(c: Conn, timeoutNs: int, now: Time, heard: int)
    requires HeardAt(c, heard) && c.state != Failed
    ensures DrainedHeard(c, Drain(c, timeoutNs, now), now, heard)
    decreases |c.readAccum|
  {
    hide Decode;
    hide HandleMessage;
    if |c.readAccum| >= MESSAGE_SIZE && Decode(c.readAccum[..MESSAGE_SIZE]).Some? {
      var m := Decode(c.readAccum[..MESSAGE_SIZE]).value;
      var c0 := TakeFrame(c, m);
      var c1 := HandleMessage(c0, timeoutNs, m, now);
      CR.DecodedKnown(c.readAccum[..MESSAGE_SIZE]);
      MessageHeard(c0, timeoutNs, m, now, heard);
      HandlersLeaveInput(c0, timeoutNs, m, now);
      if c1.state != Failed {
        DrainHeard(c1, timeoutNs, now, now);
        HeardFirst(c, c1, m, Drain(c1, timeoutNs, now), now);
      }
    }
  }

  /** When the responder was last heard, after a call at `now`. */
  function HeardAfter(before: Conn, after: Conn, now: int, heard: int): (r: int) {
    if HeardSince(before, after) then now else heard
  }

  lemma ReadHeard(c: Conn, timeoutNs: int, now: Time, recvs: seq<Recv>, heard: int)
    requires HeardAt(c, heard) && c.state != Failed
    ensures
      var r := OnReadable(c, timeoutNs, now, recvs);
      HeardAt(r, HeardAfter(c, r, now, heard)) && Grew(c, r)
  {
    hide Drain;
    hide Receive;
    var c1 := c.(readAccum := Receive(c.readAccum, recvs).0);
    DrainHeard(c1, timeoutNs, now, heard);
    SameHeard(c, c1, Drain(c1, timeoutNs, now));
  }

  lemma SameHeard(c: Conn, c1: Conn, r: Conn)
    requires c1.io.handled == c.io.handled
    ensures HeardSince(c, r) <==> HeardSince(c1, r)
  {}

  lemma NotHeard(c: Conn, r: Conn)
    requires r.io.handled == c.io.handled
    ensures !HeardSince(c, r)
  {}

  // ---- One responder ----

  /** The steps a responder is driven by. */
  predicate ResponderStep(e: CR.Event) {
    !e.NewBaseline? && !e.Reconnect?
  }

  /** When the responder was last heard: the time of the last step that handled a HELLO or a PING, or `start`. */
  function LastHeard(c: Conn, steps: seq<CR.Step>, start: int): (r: int)
    decreases |steps|
  {
    if steps == [] then start
    else
      var front, last := steps[..|steps| - 1], steps[|steps| - 1];
      HeardAfter(CR.Run(c, front), CR.Run(c, steps), Detection.At(last), LastHeard(c, front, start))
  }

  lemma OtherHeard(c: Conn, s: CR.Step, heard: int)
    requires HeardAt(c, heard) && ResponderStep(s.event) && !s.event.Readable?
    ensures HeardAt(CR.Apply(c, s), heard) && CR.Apply(c, s).io.handled == c.io.handled
  {
    hide QueueWrite;
    hide Flush;
    hide Message;
  }

  lemma FailedHeard(c: Conn, heard: int, other: int)
    requires HeardAt(c, heard) && c.state == Failed
    ensures HeardAt(c, other)
  {}

  lemma StepHeard(c: Conn, s: CR.Step, heard: int)
    requires HeardAt(c, heard) && ResponderStep(s.event)
    ensures
      var r := CR.Apply(c, s);
      HeardAt(r, HeardAfter(c, r, Detection.At(s), heard))
  {
    hide CR.Apply;
    hide HeardSince;
    var r := CR.Apply(c, s);
    if c.state == Failed {
      Detection.FailedAbsorbing(c, s);
    } else if s.event.Readable? {
      ReadStepHeard(c, s, heard);
    } else {
      OtherHeard(c, s, heard);
      NotHeard(c, r);
    }
  }

  lemma ReadStepHeard(c: Conn, s: CR.Step, heard: int)
    requires HeardAt(c, heard) && c.state != Failed && s.event.Readable?
    ensures
      var r := CR.Apply(c, s);
      HeardAt(r, HeardAfter(c, r, s.event.now, heard))
  {
    hide OnReadable;
    var k := WithKernel(c, s.clock, s.sends, s.verdicts);
    ReadHeard(k, s.cfg.heartbeatTimeoutNs, s.event.now, s.event.recvs, heard);
    SameHeard(c, k, CR.Apply(c, s));
  }

  lemma NewHeard(fd: int, feedId: uint32, clock: Time)
    ensures HeardAt(NewConn(fd, Responder, feedId, clock), clock)
  {}

  lemma {:induction false} RunHeard(fd: int, feedId: uint32, clock: Time, steps: seq<CR.Step>)
    requires forall i :: 0 <= i < |steps| ==> ResponderStep(steps[i].event)
    ensures
      var c := NewConn(fd, Responder, feedId, clock);
      HeardAt(CR.Run(c, steps), LastHeard(c, steps, clock))
    decreases |steps|
  {
    hide CR.Apply;
    hide HeardAt;
    hide HeardSince;
    if steps == [] {
      NewHeard(fd, feedId, clock);
    } else {
      var c := NewConn(fd, Responder, feedId, clock);
      var front, last := steps[..|steps| - 1], steps[|steps| - 1];
      RunHeard(fd, feedId, clock, front);
      StepHeard(CR.Run(c, front), last, LastHeard(c, front, clock));
    }
  }

  lemma TimeoutHeard(c: Conn, cfg: Config, now: Time, heard: int)
    requires HeardAt(c, heard) && c.state != Failed
    ensures CheckTimeout(c, cfg, now).1 <==> now >= heard + cfg.heartbeatTimeoutNs
    ensures CheckTimeout(c, cfg, now).1 <==> CheckTimeout(c, cfg, now).0.state == Failed
  {}

  /** On every run of a responder that has not failed, in the handshake or after it, a tick fails it if and only if a
      whole timeout has passed since it was accepted or since the last step that handled a HELLO or a PING. */
  lemma SilenceExactly(fd: int, feedId: uint32, clock: Time, steps: seq<CR.Step>, last: CR.Step)
    requires forall i :: 0 <= i < |steps| ==> ResponderStep(steps[i].event)
    requires last.event.Tick? && CR.Run(NewConn(fd, Responder, feedId, clock), steps).state != Failed
    ensures
      var c := NewConn(fd, Responder, feedId, clock);
      CR.Apply(CR.Run(c, steps), last).state == Failed <==>
        last.event.now >= LastHeard(c, steps, clock) + last.cfg.heartbeatTimeoutNs
  {
    hide CR.Run;
    hide LastHeard;
    hide CheckTimeout;
    RunHeard(fd, feedId, clock, steps);
    var c := NewConn(fd, Responder, feedId, clock);
    var p := CR.Run(c, steps);
    var k := WithKernel(p, last.clock, last.sends, last.verdicts);
    TimeoutHeard(k, last.cfg, last.event.now, LastHeard(c, steps, clock));
  }

  // ---- The clients of the simulator ----

  /** When the client on `fd` was last heard, over a run of the simulator. */
  function ClientHeard(cfg: Config, ops: seq<FS.SimOp>, fd: int): (r: int)
    decreases |ops|
  {
    if ops == [] then 0
    else
      var front, op := ops[..|ops| - 1], ops[|ops| - 1];
      var before, after := FS.SimRun(cfg, front), FS.SimRun(cfg, ops);
      if op.Accept? && op.fd == fd && fd !in before.clients then op.clock
      else if op.Event? && op.on == fd && fd in before.clients && fd in after.clients
              && HeardSince(before.clients[fd].conn, after.clients[fd].conn) then op.now
      else ClientHeard(cfg, front, fd)
  }

  predicate AllHeard(s: FS.Sim, heard: int -> int) {
    forall fd :: fd in s.clients ==> HeardAt(s.clients[fd].conn, heard(fd))
  }

  lemma FlushHeard(c: Conn, heard: int)
    requires HeardAt(c, heard)
    ensures HeardAt(Flush(c), heard) && Flush(c).io.handled == c.io.handled
  {
    hide Flush;
  }

  /** An event that leaves the client unfailed: it was heard now, or not at all. */
  lemma ServeHeard(c: Conn, cfg: Config, ev: FS.ClientEvent, now: Time, a: FS.Answers, heard: int)
    requires HeardAt(c, heard) && FS.ServeConn(c, cfg, ev, now, a).state != Failed
    ensures
      var r := FS.ServeConn(c, cfg, ev, now, a);
      HeardAt(r, HeardAfter(c, r, now, heard))
  {
    hide OnReadable;
    hide Flush;
    hide HeardSince;
    var k := WithKernel(c, a.clock, a.sends, a.verdicts);
    var k1 := if ev.readable then OnReadable(k, cfg.heartbeatTimeoutNs, now, ev.recvs) else k;
    NotHeard(c, k);
    if c.state == Failed {
      FailedServed(c, cfg, ev, now, a);
    } else {
      ReadHeard(k, cfg.heartbeatTimeoutNs, now, ev.recvs, heard);
      SameHeard(c, k, k1);
      FlushHeard(k1, HeardAfter(c, k1, now, heard));
      SameAfter(c, k1, Flush(k1));
    }
  }

  lemma SameAfter(c: Conn, r: Conn, r1: Conn)
    requires r1.io.handled == r.io.handled
    ensures HeardSince(c, r) <==> HeardSince(c, r1)
  {}

  lemma FailedServed(c: Conn, cfg: Config, ev: FS.ClientEvent, now: Time, a: FS.Answers)
    requires c.state == Failed
    ensures FS.ServeConn(c, cfg, ev, now, a).state == Failed
  {
    hide Drain;
    hide Receive;
    var k := WithKernel(c, a.clock, a.sends, a.verdicts);
    Detection.FailedDrain(k.(readAccum := Receive(k.readAccum, ev.recvs).0), cfg.heartbeatTimeoutNs, now);
  }

  lemma ReplyHeard(c: Conn, a: FS.Answers, sequence: uint64, timestampNs: int64, heard: int)
    requires HeardAt(c, heard)
    ensures HeardAt(SendPong(WithKernel(c, a.clock, a.sends, a.verdicts), sequence, timestampNs), heard)
  {
    hide QueueWrite;
    hide Message;
  }

  lemma {:induction false} FiresHeard(s: FS.Sim, queue: seq<FS.PendingReply>, now: Time, answers: nat -> FS.Answers, k: nat,
                                      heard: int -> int)
    requires AllHeard(s, heard) && k <= |queue|
    ensures AllHeard(FS.FireUpTo(s, queue, now, answers, k), heard)
    ensures FS.FireUpTo(s, queue, now, answers, k).clients.Keys == s.clients.Keys
    decreases k
  {
    hide SendPong;
    hide HeardAt;
    if k > 0 {
      FiresHeard(s, queue, now, answers, k - 1, heard);
      var s1 := FS.FireUpTo(s, queue, now, answers, k - 1);
      var p := queue[k - 1];
      if p.fd in s1.clients {
        ReplyHeard(s1.clients[p.fd].conn, answers(k - 1), p.sequence, p.timestampNs, heard(p.fd));
      }
    }
  }

  lemma TickHeard(s: FS.Sim, cfg: Config, now: Time, answers: nat -> FS.Answers, heard: int -> int)
    requires AllHeard(s, heard)
    ensures AllHeard(FS.SimStep(s, cfg, FS.Tick(now, answers)), heard)
    ensures FS.SimStep(s, cfg, FS.Tick(now, answers)).clients.Keys
            == s.clients.Keys - FS.TimedOut(s.clients, cfg, now)
  {
    hide FS.FireUpTo;
    hide FS.Unripe;
    hide FS.PurgeAll;
    hide FS.TimedOut;
    hide HeardAt;
    var s1 := FS.Reaped(s, FS.TimedOut(s.clients, cfg, now));
    FiresHeard(s1, s1.pending, now, answers, |s1.pending|, heard);
  }

  lemma EventHeard(s: FS.Sim, cfg: Config, op: FS.SimOp, heard: int -> int, heard': int -> int)
    requires op.Event? && AllHeard(s, heard) && op.on in s.clients
    requires
      var r := FS.SimStep(s, cfg, op);
      forall fd :: fd in r.clients ==>
        heard'(fd) == if fd == op.on && fd in s.clients && HeardSince(s.clients[fd].conn, r.clients[fd].conn) then op.now
                      else heard(fd)
    ensures AllHeard(FS.SimStep(s, cfg, op), heard')
  {
    hide FS.ServeConn;
    hide FS.Purge;
    hide FS.Collected;
    hide HeardSince;
    hide HeardAt;
    var c := s.clients[op.on].conn;
    var r := FS.ServeConn(c, cfg, op.ev, op.now, op.a);
    if r.state != Failed {
      ServeHeard(c, cfg, op.ev, op.now, op.a, heard(op.on));
      var settled := r.(io := r.io.(deferred := []));
      SameAfter(c, r, settled);
      DeferredHeard(r, HeardAfter(c, r, op.now, heard(op.on)));
    }
  }

  lemma DeferredHeard(c: Conn, heard: int)
    requires HeardAt(c, heard)
    ensures HeardAt(c.(io := c.io.(deferred := [])), heard)
  {}

  lemma {:induction false} SimHeard(cfg: Config, ops: seq<FS.SimOp>)
    ensures AllHeard(FS.SimRun(cfg, ops), fd => ClientHeard(cfg, ops, fd))
    decreases |ops|
  {
    hide FS.Served;
    hide FS.FireUpTo;
    hide HeardAt;
    hide HeardSince;
    if ops != [] {
      var front, op := ops[..|ops| - 1], ops[|ops| - 1];
      var s := FS.SimRun(cfg, front);
      var before: int -> int, after: int -> int := fd => ClientHeard(cfg, front, fd), fd => ClientHeard(cfg, ops, fd);
      SimHeard(cfg, front);
      match op {
        case Accept(fd, feedId, clock) => NewHeard(fd, feedId, clock);
        case Event(on, ev, now, a) =>
          if on in s.clients {
            EventHeard(s, cfg, op, before, after);
          }
        case Tick(now, answers) => TickHeard(s, cfg, now, answers, before);
        case Kill(_) =>
      }
    }
  }

  /** The simulator's tick removes exactly the clients that have been silent for a whole timeout: over every run, whoever
      the clients are and whatever they send, a client that has not failed is removed by a tick if and only if that
      much time has passed since it was accepted and since the last event that handled a HELLO or a PING of it. */
  lemma ReapedExactly(cfg: Config, ops: seq<FS.SimOp>, now: Time, answers: nat -> FS.Answers, fd: int)
    requires fd in FS.SimRun(cfg, ops).clients && FS.SimRun(cfg, ops).clients[fd].conn.state != Failed
    ensures fd !in FS.SimStep(FS.SimRun(cfg, ops), cfg, FS.Tick(now, answers)).clients <==>
            now >= ClientHeard(cfg, ops, fd) + cfg.heartbeatTimeoutNs
  {
    hide FS.SimStep;
    hide CheckTimeout;
    hide ClientHeard;
    var s := FS.SimRun(cfg, ops);
    hide FS.SimRun;
    SimHeard(cfg, ops);
    TickHeard(s, cfg, now, answers, f => ClientHeard(cfg, ops, f));
    TimeoutHeard(s.clients[fd].conn, cfg, now, ClientHeard(cfg, ops, fd));
  }
}
