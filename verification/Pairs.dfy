/** A slot joined to its peer. What the monitor does to the slot's connection is a sequence of enabled moves of the
    two-party system, so it keeps that system's invariant and the numbering of the PINGs; and that makes the pair
    safe. */
module Pairs {
  import opened Heartbeat
  import opened ConnectionModel
  import CR = ConnectionRuns
  import opened Reassembly
  import opened Slots
  import opened Protocol
  import PR = ProtocolRuns
  import opened PingHistory
  import Integration
  import SlotHistory
  import Pacing

  // ---- One slot and its peer ----

  /** The pair keeps the joint invariant, and the initiator has pinged at exactly `pings`. */
  predicate PairOk(c: Conn, peer: PR.Peer, pings: seq<Time>) {
    PR.Inv(PR.System(c, peer)) && Numbered(c, pings)
  }

  /** One enabled move of the initiator that is not a reconnect. */
  lemma MoveOk(c: Conn, peer: PR.Peer, pings: seq<Time>, step: CR.Step)
    requires PairOk(c, peer, pings) && PR.Enabled(PR.System(c, peer), PR.IniMove(step)) && !step.event.Reconnect?
    ensures PairOk(CR.Apply(c, step), peer, TimesAfter(c, step, pings))
  {
    hide PR.Inv;
    hide PR.Enabled;
    hide Numbered;
    hide CR.Apply;
    PR.NextInv(PR.System(c, peer), PR.IniMove(step));
    StepNumbered(c, step, pings);
  }

  lemma ReboundOk(c: Conn, peer: PR.Peer, pings: seq<Time>, fd: int, now: Time)
    requires PairOk(c, peer, pings) && c.state == Failed
    ensures PairOk(Rebind(c, fd, now), PR.Absent, [])
  {
    hide PR.Inv;
    hide Numbered;
    var step := CR.Step(Config(0, 0, 0, 0, 0, 0), c.io.clock, c.io.sends, c.io.verdicts, CR.Reconnect(fd, now));
    PR.NextInv(PR.System(c, peer), PR.IniMove(step));
    StepNumbered(c, step, pings);
  }

  lemma KernelIni(c: Conn, r: Conn)
    requires IniState(c) && Credit(c) && r == WithKernel(c, r.io.clock, r.io.sends, r.io.verdicts)
    ensures IniState(r) && Credit(r)
  {
    hide IniState;
    hide Credit;
    PR.IniFacts(c);
    PR.IniQuiet(c, r);
  }

  lemma KernelNumbered(c: Conn, pings: seq<Time>, clock: Time, sends: seq<Send>, verdicts: seq<Verdict>)
    requires Numbered(c, pings)
    ensures Numbered(WithKernel(c, clock, sends, verdicts), pings)
  {
    hide PingAt;
    hide Wrapped;
  }

  lemma KernelInv(c: Conn, peer: PR.Peer, clock: Time, sends: seq<Send>, verdicts: seq<Verdict>)
    requires PR.Inv(PR.System(c, peer))
    ensures PR.Inv(PR.System(WithKernel(c, clock, sends, verdicts), peer))
  {
    hide IniState;
    hide Credit;
    hide PR.PeerInv;
    hide CR.EncodeAll;
    var r := WithKernel(c, clock, sends, verdicts);
    KernelIni(c, r);
    PR.PeerKeeps(PR.System(c, peer), r);
  }

  lemma KernelOk(c: Conn, peer: PR.Peer, pings: seq<Time>, clock: Time, sends: seq<Send>, verdicts: seq<Verdict>)
    requires PairOk(c, peer, pings)
    ensures PairOk(WithKernel(c, clock, sends, verdicts), peer, pings)
  {
    hide PR.Inv;
    hide Numbered;
    hide WithKernel;
    KernelInv(c, peer, clock, sends, verdicts);
    KernelNumbered(c, pings, clock, sends, verdicts);
  }

  /** The bytes an event would have the initiator read are the next ones its peer's kernel has taken. */
  predicate FromPeer(c: Conn, ev: SockEvent, peer: PR.Peer) {
    ev.readable && !ev.hangup && c.state != Failed ==>
      Received(c) + Delivered(ev.recvs) <= PR.PeerConn(PR.System(c, peer)).io.sent
  }

  lemma WrittenFirst(c: Conn, peer: PR.Peer, pings: seq<Time>, step: CR.Step, ev: SockEvent)
    requires PairOk(c, peer, pings) && step.event.Writable? && FromPeer(c, ev, peer)
    ensures
      var r := CR.Apply(c, step);
      && PairOk(r, peer, pings) && FromPeer(r, ev, peer) && (c.state == Failed ==> r.state == Failed)
  {
    hide PR.Inv;
    hide Numbered;
    hide CR.Apply;
    hide Delivered;
    hide CR.EncodeAll;
    MoveOk(c, peer, pings, step);
    InvParts(c, peer);
    PR.IniLocal(c, step);
  }

  lemma InvParts(c: Conn, peer: PR.Peer)
    requires PR.Inv(PR.System(c, peer))
    ensures IniState(c) && Credit(c) && c.role == Initiator
  {
    hide PR.PeerInv;
    hide CR.EncodeAll;
    hide Credit;
  }

  lemma ReadNext(c: Conn, peer: PR.Peer, pings: seq<Time>, step: CR.Step, ev: SockEvent)
    requires PairOk(c, peer, pings) && c.state != Failed && !ev.hangup && ev.readable && FromPeer(c, ev, peer)
    requires step.event.Readable? && step.event.recvs == ev.recvs
    ensures PairOk(CR.Apply(c, step), peer, pings)
  {
    hide PR.Inv;
    hide Numbered;
    hide CR.Apply;
    hide Delivered;
    hide CR.EncodeAll;
    MoveOk(c, peer, pings, step);
  }

  /** A socket event is a hangup move, or a write move and then a read move; a connection that has failed by then
      is not read. */
  lemma EventOk(c: Conn, peer: PR.Peer, pings: seq<Time>, cfg: Config, ev: SockEvent, now: Time, a: Answer)
    requires PairOk(c, peer, pings) && FromPeer(c, ev, peer)
    ensures PairOk(EventConn(c, cfg, ev, now, a), peer, pings)
  {
    hide PairOk;
    hide FromPeer;
    hide CR.Apply;
    hide EventConn;
    Integration.EventIsSteps(c, cfg, ev, now, a);
    if ev.hangup {
      HangupOk(c, peer, pings, Integration.Say(cfg, a, CR.Hangup(now)));
    } else {
      var w := Integration.Say(cfg, a, CR.Writable(now, ev.connectOk));
      KernelOk(c, peer, pings, a.clock, a.sends, []);
      KernelFromPeer(c, ev, peer, a.clock, a.sends, []);
      if ev.writable {
        WrittenFirst(c, peer, pings, w, ev);
      }
      var c1 := if ev.writable then CR.Apply(c, w) else WithKernel(c, a.clock, a.sends, []);
      if c1.state != Failed && ev.readable {
        ReadNext(c1, peer, pings, Integration.Say(cfg, a.(sends := c1.io.sends), CR.Readable(now, ev.recvs)), ev);
      }
    }
  }

  lemma HangupOk(c: Conn, peer: PR.Peer, pings: seq<Time>, step: CR.Step)
    requires PairOk(c, peer, pings) && (step.event.Hangup? || step.event.Tick? || step.event.NewBaseline?)
    ensures PairOk(CR.Apply(c, step), peer, pings)
  {
    hide PR.Inv;
    hide Numbered;
    hide CR.Apply;
    MoveOk(c, peer, pings, step);
  }

  lemma KernelFromPeer(c: Conn, ev: SockEvent, peer: PR.Peer, clock: Time, sends: seq<Send>, verdicts: seq<Verdict>)
    requires FromPeer(c, ev, peer)
    ensures FromPeer(WithKernel(c, clock, sends, verdicts), ev, peer)
  {
    hide Delivered;
    hide CR.EncodeAll;
  }

  lemma TimeoutOk(c: Conn, peer: PR.Peer, pings: seq<Time>, cfg: Config, now: Time)
    requires PairOk(c, peer, pings)
    ensures PairOk(CheckTimeout(c, cfg, now).0, peer, pings)
    ensures PairOk(OnHangupOrError(c, now), peer, pings)
    ensures PairOk(ResetLivenessBaseline(c, now), peer, pings)
  {
    hide PairOk;
    hide CR.Apply;
    hide CheckTimeout;
    SlotHistory.StillApply(c, cfg, now, 0);
    HangupOk(c, peer, pings, SlotHistory.Still(c, cfg, CR.Tick(now)));
    HangupOk(c, peer, pings, SlotHistory.Still(c, cfg, CR.Hangup(now)));
    HangupOk(c, peer, pings, SlotHistory.Still(c, cfg, CR.NewBaseline(now)));
  }

  lemma PingOk(c: Conn, peer: PR.Peer, pings: seq<Time>, cfg: Config, now: Time, a: Answer)
    requires PairOk(c, peer, pings) && IsLive(c)
    ensures PairOk(SendPing(WithKernel(c, a.clock, a.sends, []), now), peer, pings + [now])
  {
    hide PR.Inv;
    hide Numbered;
    hide SendPing;
    InvParts(c, peer);
    MoveOk(c, peer, pings, Integration.Say(cfg, a, CR.PingDue(now)));
  }

  // ---- What an event of the slot does to the pair ----

  predicate Rebinds(s: Slot, e: SlotEvent) {
    e.TimerTick? && ReconnectDue(s, e.now) && e.a.socket.Some?
  }

  /** A reconnect leaves the old client behind; the new one has not been accepted yet. */
  function PeerAfter(s: Slot, e: SlotEvent, peer: PR.Peer): (r: PR.Peer) {
    if Rebinds(s, e) then PR.Absent else peer
  }

  function PingsAfter(s: Slot, e: SlotEvent, pings: seq<Time>): (r: seq<Time>) {
    if Rebinds(s, e) then []
    else if Pacing.PingDueNow(s, e) then pings + [e.now]
    else pings
  }

  predicate Arriving(s: Slot, e: SlotEvent, peer: PR.Peer) {
    e.Sock? ==> FromPeer(s.conn, e.ev, peer)
  }

  lemma TickOk(s: Slot, cfg: Config, e: SlotEvent, peer: PR.Peer, pings: seq<Time>)
    requires ConfigOk(cfg) && PairOk(s.conn, peer, pings) && e.TimerTick?
    ensures PairOk(TickSlot(s, cfg, e.now, e.a, e.fd).conn, PeerAfter(s, e, peer), PingsAfter(s, e, pings))
  {
    hide PairOk;
    hide CheckTimeout;
    hide SendPing;
    hide Rebind;
    hide ScheduleReconnect;
    Integration.ScheduleConn(s, cfg, e.now, e.a);
    var p := if e.now < s.nextPingDueNs then s.conn else SendPing(WithKernel(s.conn, e.a.clock, e.a.sends, []), e.now);
    if IsLive(s.conn) {
      if e.now >= s.nextPingDueNs {
        PingOk(s.conn, peer, pings, cfg, e.now, e.a);
      }
      TimeoutOk(p, peer, PingsAfter(s, e, pings), cfg, e.now);
    } else if s.conn.state == Failed {
      if Rebinds(s, e) {
        ReboundOk(s.conn, peer, pings, e.fd, e.now);
      }
    } else {
      TimeoutOk(s.conn, peer, pings, cfg, e.now);
    }
  }

  /** Every event, tick and command of a slot is a sequence of enabled moves of its pair. */
  lemma SlotStepOk(s: Slot, cfg: Config, e: SlotEvent, peer: PR.Peer, pings: seq<Time>)
    requires ConfigOk(cfg) && PairOk(s.conn, peer, pings) && Arriving(s, e, peer)
    ensures PairOk(SlotStep(s, cfg, e).conn, PeerAfter(s, e, peer), PingsAfter(s, e, pings))
  {
    hide PairOk;
    hide EventConn;
    hide TickSlot;
    hide ScheduleReconnect;
    hide OnHangupOrError;
    hide ResetLivenessBaseline;
    match e {
      case Sock(ev, now, a) =>
        EventOk(s.conn, peer, pings, cfg, ev, now, a);
        Integration.ScheduleConn(s, cfg, now, a);
      case TimerTick(_, _, _) => TickOk(s, cfg, e, peer, pings);
      case ForceDisconnect(a) =>
        TimeoutOk(s.conn, peer, pings, cfg, a.clock);
        Integration.ScheduleConn(s, cfg, 0, a);
      case ForceReconnect =>
      case Baseline(now) => TimeoutOk(s.conn, peer, pings, cfg, now);
    }
  }

  // ---- Safety ----

  /** What every feed's connection and every client served may be relied on for. */
  predicate Safe(c: Conn, peer: PR.Peer, pings: seq<Time>) {
    && NoFault(c) && (peer.Alive? ==> NoFault(peer.conn))
    && PR.Authentic(c)
    && (forall e :: e in c.io.accepted ==>
          exists i :: 0 <= i < |pings| && e.sequence == Wrapped(i) && e.rttNs == e.atNs - pings[i])
  }

  lemma PairSafe(c: Conn, peer: PR.Peer, pings: seq<Time>)
    requires PairOk(c, peer, pings)
    ensures Safe(c, peer, pings)
  {
    hide PR.Inv;
    hide PR.Authentic;
    hide NoFault;
    hide Numbered;
    hide Wrapped;
    var s := PR.System(c, peer);
    PR.InvNoFault(s);
    PR.InvAuthentic(s);
    ServedNoFault(s);
    forall e | e in c.io.accepted
      ensures exists i :: 0 <= i < |pings| && e.sequence == Wrapped(i) && e.rttNs == e.atNs - pings[i]
    {
      PingBehind(s, pings, e);
    }
  }

  lemma ServedNoFault(s: PR.System)
    requires PR.Inv(s)
    ensures s.peer.Alive? ==> NoFault(s.peer.conn)
  {
    hide PR.IniInv;
    hide PeerState;
    hide Echoes;
    hide ReadsFrom;
  }

  lemma NewPairOk(fd: nat, f: uint32, clock: Time)
    ensures PairOk(NewSlot(fd, f, clock).conn, PR.Absent, [])
  {
    hide PR.Inv;
    PR.StartInv(fd, f, clock);
    StartNumbered(fd, f, clock);
  }

  // ---- A failed connection is not read ----

  /** The guard that keeps initiators free of faults: a connection that has failed is not read, so an event adds no fault to it,
      whatever bytes are waiting and whoever sent them. */
  lemma FailedIsNotRead(c: Conn, cfg: Config, ev: SockEvent, now: Time, a: Answer)
    requires c.state == Failed && NoFault(c)
    ensures NoFault(EventConn(c, cfg, ev, now, a))
  {
    hide OnReadable;
    hide Flush;
    var k := WithKernel(c, a.clock, a.sends, []);
    PR.SameLog(c, k);
    PR.FaultLogged(k, SocketError, now);
  }
}
