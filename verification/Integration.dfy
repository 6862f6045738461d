/** The reactors drive their connections only through the steps that the run theorems quantify over: what
    the monitor does to a slot's connection, and what the simulator does to a client, is a sequence of
    those steps. So every slot of every monitor run has a sound connection, and a client of the simulator
    moves as the responder of the two-party system does. */
module Integration {
  import opened Heartbeat
  import opened Stats
  import opened ConnectionModel
  import CR = ConnectionRuns
  import opened Slots
  import P = Protocol
  import PR = ProtocolRuns
  import FS = FeedSimulatorClass
  import D = Detection

  // ---- The monitor drives an initiator ----

  function Say(cfg: Config, a: Answer, e: CR.Event): (r: CR.Step) {
    CR.Step(cfg, a.clock, a.sends, [], e)
  }

  lemma SameKernel(c: Conn, clock: Time)
    requires c.io.clock == clock && c.io.verdicts == []
    ensures WithKernel(c, clock, c.io.sends, []) == c
  {}

  lemma WritableKernel(c: Conn, now: Time, ok: bool)
    ensures OnWritable(c, now, ok).io.clock == c.io.clock && OnWritable(c, now, ok).io.verdicts == c.io.verdicts
  {
    hide QueueWrite;
    hide Flush;
    hide Encode;
    hide Sealed;
  }

  /** One epoll event is one hangup step, or a write step followed by a read step of the rest. */
  lemma EventIsSteps(c: Conn, cfg: Config, ev: SockEvent, now: Time, a: Answer)
    ensures
      var c0 := WithKernel(c, a.clock, a.sends, []);
      var c1 := if ev.writable then CR.Apply(c, Say(cfg, a, CR.Writable(now, ev.connectOk))) else c0;
      EventConn(c, cfg, ev, now, a) ==
        if ev.hangup then CR.Apply(c, Say(cfg, a, CR.Hangup(now)))
        else if c1.state != Failed && ev.readable then
          CR.Apply(c1, Say(cfg, a.(sends := c1.io.sends), CR.Readable(now, ev.recvs)))
        else c1
  {
    hide OnReadable;
    hide OnWritable;
    var c0 := WithKernel(c, a.clock, a.sends, []);
    WritableKernel(c0, now, ev.connectOk);
    var c1 := if ev.writable then OnWritable(c0, now, ev.connectOk) else c0;
    SameKernel(c1, a.clock);
  }

  lemma EventSound(c: Conn, cfg: Config, ev: SockEvent, now: Time, a: Answer, lim: CR.Limits)
    requires CR.Sound(c, lim) && CR.ConfigOk(cfg, lim)
    ensures CR.Sound(EventConn(c, cfg, ev, now, a), lim)
  {
    hide EventConn;
    hide CR.Sound;
    hide CR.Apply;
    EventIsSteps(c, cfg, ev, now, a);
    var h, w := Say(cfg, a, CR.Hangup(now)), Say(cfg, a, CR.Writable(now, ev.connectOk));
    CR.ApplySound(c, h, lim);
    CR.ApplySound(c, w, lim);
    CR.SimpleStepsSound(c, h, lim);
    var c1 := if ev.writable then CR.Apply(c, w) else WithKernel(c, a.clock, a.sends, []);
    CR.ApplySound(c1, Say(cfg, a.(sends := c1.io.sends), CR.Readable(now, ev.recvs)), lim);
  }

  /** A tick is a ping step and a timeout step, a timeout step, or a reconnect. */
  lemma TickSound(s: Slot, cfg: Config, now: Time, a: Answer, fd: int, lim: CR.Limits)
    requires ConfigOk(cfg) && CR.ConfigOk(cfg, lim) && CR.Sound(s.conn, lim)
    ensures CR.Sound(TickSlot(s, cfg, now, a, fd).conn, lim)
  {
    hide CR.Sound;
    hide SendPing;
    hide CheckTimeout;
    hide Rebind;
    hide ScheduleReconnect;
    var k := WithKernel(s.conn, a.clock, a.sends, []);
    CR.SimpleStepsSound(s.conn, Say(cfg, a, CR.Hangup(now)), lim);
    CR.SendPingSound(k, now, lim);
    CR.CheckTimeoutSound(SendPing(k, now), cfg, now, lim);
    CR.CheckTimeoutSound(s.conn, cfg, now, lim);
    CR.RebindSound(s.conn, fd, now, lim);
    ScheduleConn(s, cfg, now, a);
  }

  /** Scheduling never touches the connection. */
  lemma ScheduleConn(s: Slot, cfg: Config, now: Time, a: Answer)
    requires ConfigOk(cfg)
    ensures forall t: Slot, at: Time :: ScheduleReconnect(t, cfg, at, a.jitter).conn == t.conn
  {
    hide Backoff;
    hide Jittered;
  }

  lemma StepSound(s: Slot, cfg: Config, e: SlotEvent, lim: CR.Limits)
    requires ConfigOk(cfg) && CR.ConfigOk(cfg, lim) && CR.Sound(s.conn, lim)
    ensures CR.Sound(SlotStep(s, cfg, e).conn, lim)
  {
    hide CR.Sound;
    hide EventConn;
    hide TickSlot;
    hide ScheduleReconnect;
    hide OnHangupOrError;
    hide ResetLivenessBaseline;
    match e {
      case Sock(ev, now, a) =>
        EventSound(s.conn, cfg, ev, now, a, lim);
        ScheduleConn(s, cfg, now, a);
      case TimerTick(now, a, fd) => TickSound(s, cfg, now, a, fd, lim);
      case ForceDisconnect(a) =>
        CR.SimpleStepsSound(s.conn, Say(cfg, a, CR.Hangup(a.clock)), lim);
        ScheduleConn(s, cfg, 0, a);
      case ForceReconnect =>
      case Baseline(now) =>
        CR.SimpleStepsSound(s.conn, CR.Step(cfg, 0, [], [], CR.NewBaseline(now)), lim);
    }
  }

  /** On every run of every slot, whatever the peer and the kernel do: outbound FIFO and its 64 KiB bound,
      the lifecycle and its handshake, the exact acknowledged window, and honest statistics. */
  lemma {:induction false} SlotRunSound(fd: nat, feedId: uint32, clock: Time, m: int, turns: seq<Turn>, lim: CR.Limits)
    requires Turns(turns, m) && lim.timeoutNs <= MAX_INT64
    requires forall i :: 0 <= i < |turns| ==> CR.ConfigOk(turns[i].cfg, lim)
    ensures CR.Sound(SlotRun(NewSlot(fd, feedId, clock), m, turns).conn, lim)
    decreases |turns|
  {
    hide CR.Sound;
    hide SlotStep;
    hide CR.ConfigOk;
    CR.NewConnSound(fd, Initiator, feedId, clock, lim);
    if turns != [] {
      var front, last := turns[..|turns| - 1], turns[|turns| - 1];
      SlotRunSound(fd, feedId, clock, m, front, lim);
      StepSound(SlotRun(NewSlot(fd, feedId, clock), m, front), last.cfg, last.event, lim);
    }
  }

  // ---- The simulator drives a responder ----

  /** What the two-party system sees of the simulator through one descriptor. */
  function Seen(s: FS.Sim, fd: int): (r: PR.Peer)
    requires fd in s.clients
  {
    PR.Alive(s.clients[fd].conn, DeferredFor(s.pending, fd))
  }

  function DeferredFor(pending: seq<FS.PendingReply>, fd: int): (r: seq<Deferred>)
    decreases |pending|
  {
    if pending == [] then []
    else
      var p := pending[|pending| - 1];
      DeferredFor(pending[..|pending| - 1], fd)
      + if p.fd == fd then [Deferred(p.fireAtNs, p.sequence, p.timestampNs)] else []
  }

  lemma {:induction false} DeferredConcat(a: seq<FS.PendingReply>, b: seq<FS.PendingReply>, fd: int)
    ensures DeferredFor(a + b, fd) == DeferredFor(a, fd) + DeferredFor(b, fd)
    decreases |b|
  {
    if b == [] {
      assert a + b == a;
    } else {
      var n := |b| - 1;
      DeferredConcat(a, b[..n], fd);
      assert (a + b)[..|a + b| - 1] == a + b[..n];
    }
  }

  lemma {:induction false} DeferredCollected(ds: seq<Deferred>, fd: int, instance: nat)
    ensures DeferredFor(FS.Collected(ds, fd, instance), fd) == ds
    decreases |ds|
  {
    if ds != [] {
      var n := |ds| - 1;
      var c := FS.Collected(ds[..n], fd, instance);
      var p := FS.PendingReply(ds[n].fireAtNs, fd, ds[n].sequence, ds[n].timestampNs, instance);
      DeferredCollected(ds[..n], fd, instance);
      assert FS.Collected(ds, fd, instance) == c + [p];
      assert (c + [p])[..|c|] == c;
    }
  }

  /** The first thing a client event does: hang up, read, or write. */
  function FirstStep(cfg: Config, ev: FS.ClientEvent, now: Time, a: FS.Answers): (r: CR.Step) {
    CR.Step(cfg, a.clock, a.sends, a.verdicts,
            if ev.hangup then CR.Hangup(now)
            else if ev.readable then CR.Readable(now, ev.recvs)
            else CR.Writable(now, true))
  }

  /** The write that follows a read in the same event, with the kernel answers the read left over. */
  function SecondStep(cfg: Config, c: Conn, now: Time): (r: CR.Step) {
    CR.Step(cfg, c.io.clock, c.io.sends, c.io.verdicts, CR.Writable(now, true))
  }

  predicate ReadsAndWrites(ev: FS.ClientEvent) {
    !ev.hangup && ev.readable && ev.writable
  }

  /** A client event as one or two moves of the two-party system's responder. */
  function Moved(c: Conn, pending: seq<Deferred>, cfg: Config, ev: FS.ClientEvent, now: Time, a: FS.Answers): (r: PR.Peer) {
    var first := PR.Settle(c, CR.Apply(c, FirstStep(cfg, ev, now, a)), pending, false);
    if ReadsAndWrites(ev) && first.Alive? then
      PR.Settle(first.conn, CR.Apply(first.conn, SecondStep(cfg, first.conn, now)), first.pending, false)
    else first
  }

  lemma {:induction false} FlushKeepsDeferred(c: Conn, ds: seq<Deferred>)
    ensures Flush(c.(io := c.io.(deferred := ds))) == Flush(c).(io := Flush(c).io.(deferred := ds))
    ensures Flush(c).io.deferred == c.io.deferred
    decreases |c.writePending|
  {
    if c.writePending != [] && c.io.sends != [] && c.io.sends[0].Accepted? && c.io.sends[0].n > 0 {
      var chunk := Min(SEND_CHUNK, |c.writePending|);
      var k := Min(c.io.sends[0].n, chunk);
      var c1 := c.(io := c.io.(sends := c.io.sends[1..]));
      var c2 := c1.(writePending := c1.writePending[k..], io := c1.io.(sent := c1.io.sent + c1.writePending[..k]));
      if k == chunk {
        FlushKeepsDeferred(c2, ds);
      }
    }
  }

  /** What the connection goes through is the same either way. */
  lemma ServeIsMoved(c: Conn, pending: seq<Deferred>, cfg: Config, ev: FS.ClientEvent, now: Time, a: FS.Answers)
    requires FS.ClientConn(c, c.fd) && (ev.hangup || ev.readable || ev.writable)
    ensures
      var r := FS.ServeConn(c, cfg, ev, now, a);
      var moved := Moved(c, pending, cfg, ev, now, a);
      && (r.state == Failed <==> moved.Gone?)
      && (r.state != Failed ==> moved == PR.Alive(r.(io := r.io.(deferred := [])), pending + r.io.deferred))
  {
    hide OnReadable;
    hide Flush;
    var k := WithKernel(c, a.clock, a.sends, a.verdicts);
    if ReadsAndWrites(ev) {
      var c1 := OnReadable(k, cfg.heartbeatTimeoutNs, now, ev.recvs);
      FS.ReadableResponder(k, cfg.heartbeatTimeoutNs, now, ev.recvs);
      FlushKeepsDeferred(c1, []);
      if c1.state != Failed {
        SecondWrite(c1, pending, cfg, now);
      }
    } else if c.state == Failed {
      D.FailedAbsorbing(c, FirstStep(cfg, ev, now, a));
    }
  }

  lemma SecondWrite(c: Conn, pending: seq<Deferred>, cfg: Config, now: Time)
    requires c.state != Connecting && c.state != Failed
    ensures
      var settled := c.(io := c.io.(deferred := []));
      var w := CR.Apply(settled, SecondStep(cfg, settled, now));
      var f := Flush(c);
      && w == f.(io := f.io.(deferred := []))
      && PR.Settle(settled, w, pending + c.io.deferred, false) ==
         if f.state == Failed then PR.Gone(w) else PR.Alive(w, pending + f.io.deferred)
  {
    hide Flush;
    FlushKeepsDeferred(c, []);
    FlushKeepsDeferred(c, c.io.deferred);
  }

  /** Serving an event on a client is what the responder of the two-party system does, in one move or, for an
      event that is both readable and writable, in two: same connection, same replies owed, and removed from the
      simulator exactly when the peer is gone. */
  lemma ServedIsPeerMove(s: FS.Sim, cfg: Config, fd: int, ev: FS.ClientEvent, now: Time, a: FS.Answers)
    requires FS.SimOk(s) && fd in s.clients && (ev.hangup || ev.readable || ev.writable)
    ensures
      var moved := Moved(s.clients[fd].conn, DeferredFor(s.pending, fd), cfg, ev, now, a);
      var r := FS.Served(s, cfg, fd, ev, now, a);
      if fd in r.clients then Seen(r, fd) == moved else moved.Gone?
  {
    hide FS.ServeConn;
    hide Moved;
    hide FS.SimOk;
    hide FS.Collected;
    hide FS.Purge;
    hide DeferredFor;
    FS.InstanceKnown(s, fd);
    hide FS.ClientOk;
    hide FS.Conserved;
    var c := s.clients[fd].conn;
    ServeIsMoved(c, DeferredFor(s.pending, fd), cfg, ev, now, a);
    var r := FS.ServeConn(c, cfg, ev, now, a);
    DeferredConcat(s.pending, FS.Collected(r.io.deferred, fd, s.clients[fd].instance), fd);
    DeferredCollected(r.io.deferred, fd, s.clients[fd].instance);
  }

  /** Sending a deferred reply in a tick is the two-party system's Fire. */
  lemma RepliedIsFire(s: FS.Sim, p: FS.PendingReply, a: FS.Answers, ini: Conn, i: nat)
    requires p.fd in s.clients && a.verdicts == []
    requires i < |DeferredFor(s.pending, p.fd)|
    requires DeferredFor(s.pending, p.fd)[i] == Deferred(p.fireAtNs, p.sequence, p.timestampNs)
    ensures
      var before := PR.System(ini, Seen(s, p.fd));
      PR.Next(before, PR.Fire(i, a.clock, a.sends)).peer
      == PR.Alive(FS.Replied(s, p, a).clients[p.fd].conn, P.Without(DeferredFor(s.pending, p.fd), i))
  {
    hide SendPong;
    hide DeferredFor;
    hide P.Without;
  }
}
