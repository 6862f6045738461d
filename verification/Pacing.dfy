/** When the monitor acts on a slot. PINGs: over every run, one at each timer tick that finds the connection
    live and a PING due, none at any other time, and never two within the interval in force at the first.
    Reconnects: a failed slot waits out its jittered backoff and reconnects at the first tick after it. */
module Pacing {
  import opened Heartbeat
  import opened ConnectionModel
  import opened Slots

  /** A tick that sent a PING, and the interval in force then. */
  datatype PingTick = PingTick(atNs: Time, intervalNs: int)

  predicate PingDueNow(s: Slot, e: SlotEvent) {
    e.TimerTick? && IsLive(s.conn) && e.now >= s.nextPingDueNs
  }

  /** The ping ticks of a run, in order. */
  function PingTicks(s: Slot, m: int, turns: seq<Turn>): (r: seq<PingTick>)
    requires Turns(turns, m)
    decreases |turns|
  {
    if turns == [] then []
    else
      var front, last := turns[..|turns| - 1], turns[|turns| - 1];
      var ticks := PingTicks(s, m, front);
      if PingDueNow(SlotRun(s, m, front), last.event) then
        ticks + [PingTick(last.event.now, last.cfg.heartbeatIntervalNs)]
      else ticks
  }

  /** Consecutive PINGs are at least the interval apart. */
  predicate Spaced(ticks: seq<PingTick>) {
    forall i :: 0 <= i < |ticks| - 1 ==> ticks[i].atNs + ticks[i].intervalNs <= ticks[i + 1].atNs
  }

  function NextDue(ticks: seq<PingTick>): (r: int) {
    if ticks == [] then 0 else ticks[|ticks| - 1].atNs + ticks[|ticks| - 1].intervalNs
  }

  // ---- Only ping steps count as sent ----

  predicate SameSent(c: Conn, r: Conn) {
    r.stats.heartbeatsSent == c.stats.heartbeatsSent
  }

  lemma MessageSent(c: Conn, timeoutNs: int, m: HeartbeatMessage, now: Time)
    ensures SameSent(c, HandleMessage(c, timeoutNs, m, now))
  {
    hide QueueWrite;
    hide Remember;
  }

  lemma {:induction false} DrainSent(c: Conn, timeoutNs: int, now: Time)
    ensures SameSent(c, Drain(c, timeoutNs, now))
    decreases |c.readAccum|
  {
    hide Decode;
    hide HandleMessage;
    if |c.readAccum| >= MESSAGE_SIZE && Decode(c.readAccum[..MESSAGE_SIZE]).Some? {
      var m := Decode(c.readAccum[..MESSAGE_SIZE]).value;
      var c0 := TakeFrame(c, m);
      var c1 := HandleMessage(c0, timeoutNs, m, now);
      MessageSent(c0, timeoutNs, m, now);
      HandlersLeaveInput(c0, timeoutNs, m, now);
      if c1.state != Failed {
        DrainSent(c1, timeoutNs, now);
      }
    }
  }

  lemma ReadSent(c: Conn, timeoutNs: int, now: Time, recvs: seq<Recv>)
    ensures SameSent(c, OnReadable(c, timeoutNs, now, recvs))
  {
    hide Drain;
    hide Receive;
    DrainSent(c.(readAccum := Receive(c.readAccum, recvs).0), timeoutNs, now);
  }

  lemma WriteSent(c: Conn, now: Time, ok: bool)
    ensures SameSent(c, OnWritable(c, now, ok))
  {
    hide QueueWrite;
    hide Flush;
    hide Message;
  }

  lemma EventSent(c: Conn, cfg: Config, ev: SockEvent, now: Time, a: Answer)
    ensures SameSent(c, EventConn(c, cfg, ev, now, a))
  {
    hide OnReadable;
    hide OnWritable;
    var c0 := WithKernel(c, a.clock, a.sends, []);
    WriteSent(c0, now, ev.connectOk);
    var c1 := if ev.writable then OnWritable(c0, now, ev.connectOk) else c0;
    ReadSent(c1, cfg.heartbeatTimeoutNs, now, ev.recvs);
  }

  lemma PingSent(c: Conn, now: Time)
    requires c.role == Initiator && IsLive(c)
    ensures SendPing(c, now).stats.heartbeatsSent == c.stats.heartbeatsSent + 1
  {
    hide QueueWrite;
    hide Message;
  }

  lemma ScheduleKeepsTimer(s: Slot, cfg: Config, now: Time, jitter: Jitter)
    requires ConfigOk(cfg)
    ensures ScheduleReconnect(s, cfg, now, jitter).nextPingDueNs == s.nextPingDueNs
    ensures ScheduleReconnect(s, cfg, now, jitter).conn == s.conn
  {
    hide Backoff;
    hide Jittered;
  }

  lemma CheckSent(s: Slot, cfg: Config, now: Time, a: Answer)
    requires ConfigOk(cfg)
    ensures CheckSlot(s, cfg, now, a).nextPingDueNs == s.nextPingDueNs
    ensures SameSent(s.conn, CheckSlot(s, cfg, now, a).conn)
  {
    hide ScheduleReconnect;
    var c := CheckTimeout(s.conn, cfg, now).0;
    ScheduleKeepsTimer(s.(conn := c, alerts := s.alerts + 1), cfg, a.clock, a.jitter);
  }

  lemma ConnectSent(s: Slot, cfg: Config, now: Time, a: Answer, fd: int)
    requires ConfigOk(cfg)
    ensures ConnectSlot(s, cfg, now, a, fd).nextPingDueNs == s.nextPingDueNs
    ensures SameSent(s.conn, ConnectSlot(s, cfg, now, a, fd).conn)
  {
    hide ScheduleReconnect;
    ScheduleKeepsTimer(s.(reconnectReadyAtNs := -1), cfg, now, a.jitter);
  }

  lemma PingSlotSent(s: Slot, cfg: Config, now: Time, a: Answer)
    requires s.conn.role == Initiator && IsLive(s.conn)
    ensures
      var due := now >= s.nextPingDueNs;
      var r := PingSlot(s, cfg, now, a);
      && r.nextPingDueNs == (if due then now + cfg.heartbeatIntervalNs else s.nextPingDueNs)
      && r.conn.stats.heartbeatsSent == s.conn.stats.heartbeatsSent + if due then 1 else 0
  {
    hide SendPing;
    PingSent(WithKernel(s.conn, a.clock, a.sends, []), now);
  }

  lemma TickSent(s: Slot, cfg: Config, e: SlotEvent)
    requires ConfigOk(cfg) && s.conn.role == Initiator && e.TimerTick?
    ensures
      var due := PingDueNow(s, e);
      var r := TickSlot(s, cfg, e.now, e.a, e.fd);
      && r.nextPingDueNs == (if due then e.now + cfg.heartbeatIntervalNs else s.nextPingDueNs)
      && r.conn.stats.heartbeatsSent == s.conn.stats.heartbeatsSent + if due then 1 else 0
  {
    hide PingSlot;
    hide CheckSlot;
    hide ConnectSlot;
    if IsLive(s.conn) {
      PingSlotSent(s, cfg, e.now, e.a);
      CheckSent(PingSlot(s, cfg, e.now, e.a), cfg, e.now, e.a);
    } else {
      CheckSent(s, cfg, e.now, e.a);
      ConnectSent(s, cfg, e.now, e.a, e.fd);
    }
  }

  lemma StepSent(s: Slot, cfg: Config, e: SlotEvent)
    requires ConfigOk(cfg) && s.conn.role == Initiator
    ensures
      var due := PingDueNow(s, e);
      var r := SlotStep(s, cfg, e);
      && r.nextPingDueNs == (if due then e.now + cfg.heartbeatIntervalNs else s.nextPingDueNs)
      && r.conn.stats.heartbeatsSent == s.conn.stats.heartbeatsSent + if due then 1 else 0
  {
    hide EventConn;
    hide TickSlot;
    hide ScheduleReconnect;
    match e {
      case Sock(ev, now, a) =>
        EventSent(s.conn, cfg, ev, now, a);
        var s1 := s.(conn := EventConn(s.conn, cfg, ev, now, a), alerts := s.alerts + 1);
        ScheduleKeepsTimer(s1, cfg, a.clock, a.jitter);
      case TimerTick(_, _, _) => TickSent(s, cfg, e);
      case ForceDisconnect(a) =>
        var s1 := s.(conn := OnHangupOrError(s.conn, a.clock), alerts := s.alerts + 1);
        ScheduleKeepsTimer(s1, cfg, a.clock, a.jitter);
      case _ =>
    }
  }

  lemma StepRole(s: Slot, cfg: Config, e: SlotEvent)
    requires ConfigOk(cfg) && s.conn.role == Initiator
    ensures SlotStep(s, cfg, e).conn.role == Initiator && SlotStep(s, cfg, e).conn.feedId == s.conn.feedId
  {
    hide EventConn;
    hide PingSlot;
    hide CheckTimeout;
    hide ScheduleReconnect;
    match e {
      case Sock(ev, now, a) =>
        EventIdentity(s.conn, cfg, ev, now, a);
        var s1 := s.(conn := EventConn(s.conn, cfg, ev, now, a), alerts := s.alerts + 1);
        ScheduleKeepsTimer(s1, cfg, a.clock, a.jitter);
      case TimerTick(now, a, fd) => TickRole(s, cfg, now, a, fd);
      case ForceDisconnect(a) =>
        var s1 := s.(conn := OnHangupOrError(s.conn, a.clock), alerts := s.alerts + 1);
        ScheduleKeepsTimer(s1, cfg, a.clock, a.jitter);
      case _ =>
    }
  }

  lemma TickRole(s: Slot, cfg: Config, now: Time, a: Answer, fd: int)
    requires ConfigOk(cfg) && s.conn.role == Initiator
    ensures TickSlot(s, cfg, now, a, fd).conn.role == Initiator
    ensures TickSlot(s, cfg, now, a, fd).conn.feedId == s.conn.feedId
  {
    hide PingSlot;
    hide CheckTimeout;
    hide ScheduleReconnect;
    PingIdentity(s, cfg, now, a);
    var p := if IsLive(s.conn) then PingSlot(s, cfg, now, a) else s;
    CheckIdentity(p.conn, cfg, now);
    var c := CheckTimeout(p.conn, cfg, now).0;
    ScheduleKeepsTimer(p.(conn := c, alerts := p.alerts + 1), cfg, a.clock, a.jitter);
    ScheduleKeepsTimer(s.(reconnectReadyAtNs := -1), cfg, now, a.jitter);
  }

  /** Heartbeat pacing. Over every run of a slot, through failures, reconnects and changes of the interval:
      the PINGs counted as sent are exactly the ticks that found a live connection and a PING due, and
      consecutive ones are at least the interval apart that was in force at the earlier. */
  lemma {:induction false} PingsPaced(fd: nat, feedId: uint32, clock: Time, m: int, turns: seq<Turn>)
    requires Turns(turns, m)
    ensures
      var s := SlotRun(NewSlot(fd, feedId, clock), m, turns);
      var ticks := PingTicks(NewSlot(fd, feedId, clock), m, turns);
      && s.conn.role == Initiator
      && s.conn.stats.heartbeatsSent == |ticks|
      && s.nextPingDueNs == NextDue(ticks)
      && Spaced(ticks)
    decreases |turns|
  {
    hide SlotStep;
    if turns != [] {
      var front, last := turns[..|turns| - 1], turns[|turns| - 1];
      PingsPaced(fd, feedId, clock, m, front);
      var s := SlotRun(NewSlot(fd, feedId, clock), m, front);
      StepSent(s, last.cfg, last.event);
      StepRole(s, last.cfg, last.event);
    }
  }

  // ---- Waiting out the backoff ----

  /** A handled failure that waits until `ready`, with `n` reconnects behind it. */
  predicate Waiting(s: Slot, ready: int, n: nat) {
    && s.conn.state == Failed && !s.giveUp
    && s.reconnectReadyAtNs == ready && ready >= 0
    && s.conn.stats.reconnects == n
  }

  /** What can happen to an unwatched slot before `ready`, short of a manual reconnect. */
  predicate Calm(e: SlotEvent, ready: int) {
    match e
    case TimerTick(now, _, _) => now < ready
    case ForceDisconnect(_) => true
    case Baseline(_) => true
    case _ => false
  }

  lemma {:induction false} StillWaiting(s: Slot, m: int, turns: seq<Turn>, ready: int, n: nat)
    requires Turns(turns, m) && Waiting(s, ready, n)
    requires forall i :: 0 <= i < |turns| ==> Calm(turns[i].event, ready)
    ensures Waiting(SlotRun(s, m, turns), ready, n)
    ensures SlotRun(s, m, turns).reconnectAttempts == s.reconnectAttempts
    decreases |turns|
  {
    hide PingSlot;
    hide CheckSlot;
    hide ConnectSlot;
    hide FailSlot;
    if turns != [] {
      StillWaiting(s, m, turns[..|turns| - 1], ready, n);
    }
  }

  lemma ScheduleBounds(s: Slot, cfg: Config, now: Time, jitter: Jitter)
    requires ConfigOk(cfg) && s.conn.state == Failed && !s.giveUp
    ensures
      var r := ScheduleReconnect(s, cfg, now, jitter);
      var delay := Backoff(cfg.reconnectBaseDelayNs, cfg.reconnectMaxDelayNs, s.reconnectAttempts);
      && (r.giveUp <==> 0 <= cfg.maxReconnectAttempts <= s.reconnectAttempts)
      && (!r.giveUp ==>
            && Waiting(r, r.reconnectReadyAtNs, s.conn.stats.reconnects)
            && 0.75 * (delay as real) - 1.0 < (r.reconnectReadyAtNs - now) as real <= 1.25 * (delay as real))
  {
    hide Backoff;
    hide Jittered;
    var delay := Backoff(cfg.reconnectBaseDelayNs, cfg.reconnectMaxDelayNs, s.reconnectAttempts);
    JitterBounds(delay, jitter);
  }

  /** A failed slot that waits until `ready` reconnects at exactly the first tick at or after it: once, on the
      socket it is given. Without a socket it waits again, 3/4 to 5/4 of the next backoff from that tick, or
      gives up exactly when its attempts are spent. */
  lemma ReconnectOnTime(s: Slot, m: int, turns: seq<Turn>, last: Turn, ready: int, n: nat)
    requires Turns(turns, m) && ConfigOk(last.cfg) && Waiting(s, ready, n) && s.conn.role == Initiator
    requires forall i :: 0 <= i < |turns| ==> Calm(turns[i].event, ready)
    requires last.event.TimerTick?
    ensures
      var w := SlotRun(s, m, turns);
      var r := SlotStep(w, last.cfg, last.event);
      var now := last.event.now;
      var delay := Backoff(last.cfg.reconnectBaseDelayNs, last.cfg.reconnectMaxDelayNs, s.reconnectAttempts);
      if now < ready then Waiting(r, ready, n)
      else if last.event.a.socket.Some? then
        && r.conn.stats.reconnects == n + 1 && r.conn.fd == last.event.fd
        && r.conn.state != Failed && !Pending(r)
      else
        && r.conn.stats.reconnects == n && r.conn.state == Failed
        && (r.giveUp <==> 0 <= last.cfg.maxReconnectAttempts <= s.reconnectAttempts)
        && (!r.giveUp ==>
              0.75 * (delay as real) - 1.0 < (r.reconnectReadyAtNs - now) as real <= 1.25 * (delay as real))
  {
    hide PingSlot;
    hide CheckSlot;
    hide ScheduleReconnect;
    hide SlotRun;
    hide Backoff;
    StillWaiting(s, m, turns, ready, n);
    var w := SlotRun(s, m, turns);
    ScheduleBounds(w.(reconnectReadyAtNs := -1), last.cfg, last.event.now, last.event.a.jitter);
    ScheduleKeepsTimer(w.(reconnectReadyAtNs := -1), last.cfg, last.event.now, last.event.a.jitter);
  }
}
