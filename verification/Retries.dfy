/** How a slot answers a failure, exactly: with one alert, and with a wait or with giving up. It gives up if and only if
    the limit's worth of waits has been scheduled since the start or since the last manual reconnect of a failed
    connection. Also what the operator's and the kernel's way of failing a slot do. */
module Retries {
  import opened Heartbeat
  import opened ConnectionModel
  import opened Slots
  import Pacing

  // ---- Waits ----

  /** The turn from `p` to `r` was answered by the scheduler: a failure was alerted, or a reconnect got no socket. */
  predicate Answered(p: Slot, e: SlotEvent, r: Slot) {
    r.alerts > p.alerts || (e.TimerTick? && ReconnectDue(p, e.now) && e.a.socket.None?)
  }

  /** A manual reconnect that found the connection failed. */
  predicate Restores(p: Slot, e: SlotEvent) {
    e.ForceReconnect? && p.conn.state == Failed
  }

  /** The waits scheduled since the start of the run or the last effective manual reconnect. */
  function Waits(s: Slot, m: int, turns: seq<Turn>): (r: nat)
    requires Turns(turns, m)
    decreases |turns|
  {
    if turns == [] then 0
    else
      var front, e := turns[..|turns| - 1], turns[|turns| - 1].event;
      var before, after := SlotRun(s, m, front), SlotRun(s, m, turns);
      if Restores(before, e) then 0
      else if Answered(before, e, after) && !after.giveUp then Waits(s, m, front) + 1
      else Waits(s, m, front)
  }

  /** The budget used is the number of waits, and giving up means it is spent. */
  predicate Spent(s: Slot, m: int, waits: nat) {
    && s.reconnectAttempts == waits
    && (m >= 0 ==> waits <= m)
    && (s.giveUp ==> 0 <= m <= waits)
  }

  /** Scheduling, as the scheduler was called on `s` in place of the slot of the turn before. */
  predicate Scheduled(s: Slot, r: Slot, m: int) {
    && (r.giveUp <==> s.giveUp || 0 <= m <= s.reconnectAttempts)
    && r.reconnectAttempts == s.reconnectAttempts + (if 0 <= m <= s.reconnectAttempts then 0 else 1)
    && r.alerts == s.alerts
  }

  lemma ScheduleScheduled(s: Slot, cfg: Config, now: Time, jitter: Jitter)
    requires ConfigOk(cfg)
    ensures Scheduled(s, ScheduleReconnect(s, cfg, now, jitter), cfg.maxReconnectAttempts)
  {
    hide Backoff;
    hide Jittered;
  }

  /** What one turn does to the scheduler's fields. */
  predicate TurnSpends(p: Slot, e: SlotEvent, r: Slot, m: int) {
    if Restores(p, e) then r.reconnectAttempts == 0 && !r.giveUp && r.alerts == p.alerts
    else if Answered(p, e, r) then
      && (r.giveUp <==> p.giveUp || 0 <= m <= p.reconnectAttempts)
      && r.reconnectAttempts == p.reconnectAttempts + (if 0 <= m <= p.reconnectAttempts then 0 else 1)
    else r.reconnectAttempts == p.reconnectAttempts && r.giveUp == p.giveUp
  }

  lemma TickSpends(p: Slot, cfg: Config, e: SlotEvent)
    requires ConfigOk(cfg) && e.TimerTick?
    ensures TurnSpends(p, e, TickSlot(p, cfg, e.now, e.a, e.fd), cfg.maxReconnectAttempts)
  {
    hide PingSlot;
    hide CheckTimeout;
    hide ScheduleReconnect;
    var now, a := e.now, e.a;
    PingIdentity(p, cfg, now, a);
    var q := if IsLive(p.conn) then PingSlot(p, cfg, now, a) else p;
    var c := CheckTimeout(q.conn, cfg, now).0;
    ScheduleScheduled(q.(conn := c, alerts := q.alerts + 1), cfg, a.clock, a.jitter);
    ScheduleScheduled(p.(reconnectReadyAtNs := -1), cfg, now, a.jitter);
  }

  lemma StepSpends(p: Slot, cfg: Config, e: SlotEvent)
    requires ConfigOk(cfg)
    ensures TurnSpends(p, e, SlotStep(p, cfg, e), cfg.maxReconnectAttempts)
  {
    hide EventConn;
    hide TickSlot;
    hide ScheduleReconnect;
    hide OnHangupOrError;
    match e {
      case Sock(ev, now, a) =>
        var c := EventConn(p.conn, cfg, ev, now, a);
        ScheduleScheduled(p.(conn := c, alerts := p.alerts + 1), cfg, a.clock, a.jitter);
      case TimerTick(_, _, _) => TickSpends(p, cfg, e);
      case ForceDisconnect(a) =>
        ScheduleScheduled(p.(conn := OnHangupOrError(p.conn, a.clock), alerts := p.alerts + 1), cfg, a.clock, a.jitter);
      case ForceReconnect =>
      case Baseline(_) =>
    }
  }

  lemma {:induction false} RunSpends(fd: nat, feedId: uint32, clock: Time, m: int, turns: seq<Turn>)
    requires Turns(turns, m)
    ensures
      var s := NewSlot(fd, feedId, clock);
      Spent(SlotRun(s, m, turns), m, Waits(s, m, turns))
    decreases |turns|
  {
    hide SlotStep;
    hide Answered;
    hide Restores;
    if turns != [] {
      var front, last := turns[..|turns| - 1], turns[|turns| - 1];
      RunSpends(fd, feedId, clock, m, front);
      StepSpends(SlotRun(NewSlot(fd, feedId, clock), m, front), last.cfg, last.event);
    }
  }

  /** The retry budget is exact, and a manual reconnect restores all of it: on every run, when the scheduler answers a
      failure, or a reconnect that got no socket, it gives up if and only if max_reconnect_attempts = m >= 0 waits
      have been scheduled since the start or since the last effective manual reconnect. */
  lemma GivesUpExactly(fd: nat, feedId: uint32, clock: Time, m: int, turns: seq<Turn>)
    requires Turns(turns, m) && turns != []
    ensures
      var s := NewSlot(fd, feedId, clock);
      var front, last := turns[..|turns| - 1], turns[|turns| - 1];
      var before, after := SlotRun(s, m, front), SlotRun(s, m, turns);
      && (Answered(before, last.event, after) && !Restores(before, last.event) ==>
            (after.giveUp <==> m >= 0 && Waits(s, m, front) == m))
      && (m >= 0 ==> Waits(s, m, turns) <= m)
  {
    hide SlotStep;
    hide Answered;
    hide Restores;
    hide Waits;
    var front, last := turns[..|turns| - 1], turns[|turns| - 1];
    RunSpends(fd, feedId, clock, m, front);
    RunSpends(fd, feedId, clock, m, turns);
    StepSpends(SlotRun(NewSlot(fd, feedId, clock), m, front), last.cfg, last.event);
  }

  // ---- Failing a slot ----

  /** The answer to a failure: one alert, the connection failed, and either the attempts are spent and the slot has given
      up, or it waits 3/4 to 5/4 of its backoff from the clock of the failure. */
  predicate FailureAnswered(s: Slot, r: Slot, cfg: Config, clock: Time)
    requires ConfigOk(cfg)
  {
    var delay := Backoff(cfg.reconnectBaseDelayNs, cfg.reconnectMaxDelayNs, s.reconnectAttempts);
    && r.conn.state == Failed && r.alerts == s.alerts + 1
    && (r.giveUp <==> 0 <= cfg.maxReconnectAttempts <= s.reconnectAttempts)
    && (!r.giveUp ==>
          && r.reconnectAttempts == s.reconnectAttempts + 1 && Pending(r)
          && 0.75 * (delay as real) - 1.0 < (r.reconnectReadyAtNs - clock) as real <= 1.25 * (delay as real))
  }

  lemma FailAnswers(s: Slot, c: Conn, cfg: Config, a: Answer)
    requires ConfigOk(cfg) && !s.giveUp && c.state == Failed
    ensures FailureAnswered(s, FailSlot(s.(conn := c), cfg, a), cfg, a.clock)
  {
    hide ScheduleReconnect;
    hide Backoff;
    var s1 := s.(conn := c, alerts := s.alerts + 1);
    Pacing.ScheduleBounds(s1, cfg, a.clock, a.jitter);
    Pacing.ScheduleKeepsTimer(s1, cfg, a.clock, a.jitter);
    ScheduleScheduled(s1, cfg, a.clock, a.jitter);
  }

  /** A connect that the kernel reports as failed, a hangup, and the operator's disconnect all fail the slot, once. */
  lemma FailedOnce(s: Slot, cfg: Config, ev: SockEvent, now: Time, a: Answer)
    requires ConfigOk(cfg) && !s.giveUp && s.conn.state != Failed
    ensures ev.hangup ==> FailureAnswered(s, EventSlot(s, cfg, ev, now, a), cfg, a.clock)
    ensures s.conn.state == Connecting && ev.writable && !ev.connectOk ==>
              FailureAnswered(s, EventSlot(s, cfg, ev, now, a), cfg, a.clock)
    ensures FailureAnswered(s, ForceDisconnectSlot(s, cfg, a), cfg, a.clock)
  {
    hide OnReadable;
    hide FailSlot;
    hide FailureAnswered;
    var c := EventConn(s.conn, cfg, ev, now, a);
    if c.state == Failed {
      FailAnswers(s, c, cfg, a);
    }
    FailAnswers(s, OnHangupOrError(s.conn, a.clock), cfg, a);
  }
}
