/** The connection of a slot, over any run of the slot, is the result of a run of connection steps. So what is proved
    of every run of a connection holds of a slot's: detection on time, with exactly one alert; no premature failure;
    and stream reassembly. */
module SlotHistory {
  import opened Heartbeat
  import opened ConnectionModel
  import CR = ConnectionRuns
  import opened Detection
  import opened Attempts
  import opened Reassembly
  import opened Slots
  import Pacing
  import Integration

  // ---- The steps behind one event of the slot ----

  /** The step, with the kernel's answers left as they are. */
  function Still(c: Conn, cfg: Config, e: CR.Event): (r: CR.Step) {
    CR.Step(cfg, c.io.clock, c.io.sends, c.io.verdicts, e)
  }

  /** What an event does that reports nothing: an initiator ignores it. */
  const NOTHING: CR.Event := CR.PongDue(0, 0)

  function EventSteps(c: Conn, cfg: Config, ev: SockEvent, now: Time, a: Answer): (r: seq<CR.Step>) {
    var w := Integration.Say(cfg, a, CR.Writable(now, ev.connectOk));
    var c1 := if ev.writable then CR.Apply(c, w) else WithKernel(c, a.clock, a.sends, []);
    if ev.hangup then [Integration.Say(cfg, a, CR.Hangup(now))]
    else if c1.state != Failed && ev.readable then
      (if ev.writable then [w] else [])
      + [Integration.Say(cfg, a.(sends := c1.io.sends), CR.Readable(now, ev.recvs))]
    else if ev.writable then [w]
    else [Integration.Say(cfg, a, NOTHING)]
  }

  function PingSteps(s: Slot, cfg: Config, now: Time, a: Answer): (r: seq<CR.Step>) {
    if now < s.nextPingDueNs then [] else [Integration.Say(cfg, a, CR.PingDue(now))]
  }

  function TickSteps(s: Slot, cfg: Config, now: Time, a: Answer, fd: nat): (r: seq<CR.Step>) {
    if IsLive(s.conn) then
      PingSteps(s, cfg, now, a) + [Still(PingSlot(s, cfg, now, a).conn, cfg, CR.Tick(now))]
    else if s.conn.state == Connecting || s.conn.state == Handshaking then [Still(s.conn, cfg, CR.Tick(now))]
    else if ReconnectDue(s, now) && a.socket.Some? then [Still(s.conn, cfg, CR.Reconnect(fd, now))]
    else []
  }

  function StepsOf(s: Slot, cfg: Config, e: SlotEvent): (r: seq<CR.Step>) {
    match e
    case Sock(ev, now, a) => EventSteps(s.conn, cfg, ev, now, a)
    case TimerTick(now, a, fd) => TickSteps(s, cfg, now, a, fd)
    case ForceDisconnect(a) => if s.conn.state == Failed then [] else [Still(s.conn, cfg, CR.Hangup(a.clock))]
    case ForceReconnect => []
    case Baseline(now) => [Still(s.conn, cfg, CR.NewBaseline(now))]
  }

  // ---- They do what the event does ----

  lemma RunOne(c: Conn, s: CR.Step)
    ensures CR.Run(c, [s]) == CR.Apply(c, s)
  {
    hide CR.Apply;
    assert [s][..0] == [];
    assert CR.Run(c, []) == c;
  }

  lemma {:induction false} RunAppend(c: Conn, a: seq<CR.Step>, b: seq<CR.Step>)
    ensures CR.Run(c, a + b) == CR.Run(CR.Run(c, a), b)
    decreases |b|
  {
    hide CR.Apply;
    if b == [] {
      assert a + b == a;
    } else {
      assert (a + b)[..|a + b| - 1] == a + b[..|b| - 1];
      RunAppend(c, a, b[..|b| - 1]);
    }
  }

  lemma NothingDone(c: Conn, cfg: Config, a: Answer)
    requires c.role == Initiator
    ensures CR.Apply(c, Integration.Say(cfg, a, NOTHING)) == WithKernel(c, a.clock, a.sends, [])
  {
    hide QueueWrite;
  }

  lemma EventStepsRun(c: Conn, cfg: Config, ev: SockEvent, now: Time, a: Answer)
    requires c.role == Initiator
    ensures EventConn(c, cfg, ev, now, a) == CR.Run(c, EventSteps(c, cfg, ev, now, a))
  {
    hide CR.Apply;
    hide CR.Run;
    hide EventConn;
    hide WithKernel;
    Integration.EventIsSteps(c, cfg, ev, now, a);
    NothingDone(c, cfg, a);
    var w := Integration.Say(cfg, a, CR.Writable(now, ev.connectOk));
    var c1 := if ev.writable then CR.Apply(c, w) else WithKernel(c, a.clock, a.sends, []);
    var r := Integration.Say(cfg, a.(sends := c1.io.sends), CR.Readable(now, ev.recvs));
    RunOne(c, Integration.Say(cfg, a, CR.Hangup(now)));
    RunOne(c, Integration.Say(cfg, a, NOTHING));
    RunOne(c, w);
    RunOne(c1, r);
    RunAppend(c, [w], [r]);
    if !ev.writable && ev.readable {
      assert [] + [r] == [r];
      KernelTwice(c, a, r);
      RunOne(c, r);
    }
  }

  /** A step brings its own kernel answers. */
  lemma KernelTwice(c: Conn, a: Answer, s: CR.Step)
    ensures CR.Apply(WithKernel(c, a.clock, a.sends, []), s) == CR.Apply(c, s)
  {
    assert WithKernel(WithKernel(c, a.clock, a.sends, []), s.clock, s.sends, s.verdicts)
        == WithKernel(c, s.clock, s.sends, s.verdicts);
  }

  lemma StillApply(c: Conn, cfg: Config, now: Time, fd: int)
    ensures CR.Apply(c, Still(c, cfg, CR.Tick(now))) == CheckTimeout(c, cfg, now).0
    ensures CR.Apply(c, Still(c, cfg, CR.Hangup(now))) == OnHangupOrError(c, now)
    ensures CR.Apply(c, Still(c, cfg, CR.NewBaseline(now))) == ResetLivenessBaseline(c, now)
    ensures CR.Apply(c, Still(c, cfg, CR.Reconnect(fd, now))) == Rebind(c, fd, now)
  {
    hide CheckTimeout;
    hide Rebind;
    assert WithKernel(c, c.io.clock, c.io.sends, c.io.verdicts) == c;
  }

  lemma PingStepsRun(s: Slot, cfg: Config, now: Time, a: Answer)
    ensures PingSlot(s, cfg, now, a).conn == CR.Run(s.conn, PingSteps(s, cfg, now, a))
  {
    hide SendPing;
    RunOne(s.conn, Integration.Say(cfg, a, CR.PingDue(now)));
  }

  lemma TickStepsRun(s: Slot, cfg: Config, now: Time, a: Answer, fd: nat)
    requires ConfigOk(cfg)
    ensures TickSlot(s, cfg, now, a, fd).conn == CR.Run(s.conn, TickSteps(s, cfg, now, a, fd))
  {
    hide CR.Apply;
    hide CR.Run;
    hide PingSlot;
    hide PingSteps;
    hide CheckTimeout;
    hide Rebind;
    hide ScheduleReconnect;
    Integration.ScheduleConn(s, cfg, now, a);
    PingStepsRun(s, cfg, now, a);
    var p := PingSlot(s, cfg, now, a).conn;
    StillApply(p, cfg, now, fd);
    StillApply(s.conn, cfg, now, fd);
    RunOne(p, Still(p, cfg, CR.Tick(now)));
    RunOne(s.conn, Still(s.conn, cfg, CR.Tick(now)));
    RunOne(s.conn, Still(s.conn, cfg, CR.Reconnect(fd, now)));
    RunAppend(s.conn, PingSteps(s, cfg, now, a), [Still(p, cfg, CR.Tick(now))]);
    RunNone(s.conn);
  }

  lemma RunNone(c: Conn)
    ensures CR.Run(c, []) == c
  {}

  /** One event, tick or command of the slot is the run of its steps. */
  lemma StepsRun(s: Slot, cfg: Config, e: SlotEvent)
    requires ConfigOk(cfg) && s.conn.role == Initiator
    ensures SlotStep(s, cfg, e).conn == CR.Run(s.conn, StepsOf(s, cfg, e))
  {
    hide CR.Apply;
    hide CR.Run;
    hide EventConn;
    hide EventSteps;
    hide TickSlot;
    hide TickSteps;
    hide ScheduleReconnect;
    hide OnHangupOrError;
    hide ResetLivenessBaseline;
    RunNone(s.conn);
    match e {
      case Sock(ev, now, a) =>
        EventStepsRun(s.conn, cfg, ev, now, a);
        Integration.ScheduleConn(s, cfg, now, a);
      case TimerTick(now, a, fd) => TickStepsRun(s, cfg, now, a, fd);
      case ForceDisconnect(a) =>
        StillApply(s.conn, cfg, a.clock, 0);
        RunOne(s.conn, Still(s.conn, cfg, CR.Hangup(a.clock)));
        Integration.ScheduleConn(s, cfg, 0, a);
      case ForceReconnect =>
      case Baseline(now) =>
        StillApply(s.conn, cfg, now, 0);
        RunOne(s.conn, Still(s.conn, cfg, CR.NewBaseline(now)));
    }
  }

  // ---- Whole runs ----

  /** All the connection steps of a run of the slot. */
  function History(s: Slot, m: int, turns: seq<Turn>): (r: seq<CR.Step>)
    requires Turns(turns, m)
    decreases |turns|
  {
    if turns == [] then []
    else
      var front, last := turns[..|turns| - 1], turns[|turns| - 1];
      History(s, m, front) + StepsOf(SlotRun(s, m, front), last.cfg, last.event)
  }

  /** The slot's connection is what those steps make of it. */
  lemma {:induction false} SlotRunIsRun(s: Slot, m: int, turns: seq<Turn>)
    requires Turns(turns, m) && s.conn.role == Initiator
    ensures SlotRun(s, m, turns).conn == CR.Run(s.conn, History(s, m, turns))
    ensures SlotRun(s, m, turns).conn.role == Initiator
    decreases |turns|
  {
    hide CR.Run;
    hide SlotStep;
    hide StepsOf;
    if turns == [] {
      RunNone(s.conn);
    } else {
      var front, last := turns[..|turns| - 1], turns[|turns| - 1];
      var p := SlotRun(s, m, front);
      SlotRunIsRun(s, m, front);
      StepsRun(p, last.cfg, last.event);
      Pacing.StepRole(p, last.cfg, last.event);
      RunAppend(s.conn, History(s, m, front), StepsOf(p, last.cfg, last.event));
    }
  }

  // ---- Stream reassembly ----

  /** A slot whose connection is up has handled exactly the frames of what it has received in the current attempt. */
  lemma SlotReassembles(fd: nat, feedId: uint32, clock: Time, m: int, turns: seq<Turn>)
    requires Turns(turns, m)
    ensures
      var s := NewSlot(fd, feedId, clock);
      SlotRun(s, m, turns).conn.state != Failed ==>
        InStep(SlotRun(s, m, turns).conn, StreamOf(History(s, m, turns)))
  {
    hide CR.Run;
    hide History;
    hide SlotRun;
    hide InStep;
    var s := NewSlot(fd, feedId, clock);
    SlotRunIsRun(s, m, turns);
    if SlotRun(s, m, turns).conn.state != Failed {
      StreamReassembly(fd, Initiator, feedId, clock, History(s, m, turns));
    }
  }

  // ---- No premature failure ----

  lemma LastStep(front: seq<CR.Step>, more: seq<CR.Step>)
    requires more != []
    ensures (front + more)[..|front + more| - 1] == front + more[..|more| - 1]
    ensures (front + more)[|front + more| - 1] == more[|more| - 1]
  {}

  lemma StepConfigs(s: Slot, cfg: Config, e: SlotEvent)
    ensures forall x :: x in StepsOf(s, cfg, e) ==> x.cfg == cfg
  {
    hide CR.Apply;
    hide PingSlot;
  }

  lemma {:induction false} PositiveHistory(s: Slot, m: int, turns: seq<Turn>)
    requires Turns(turns, m) && forall i :: 0 <= i < |turns| ==> turns[i].cfg.heartbeatTimeoutNs > 0
    ensures PositiveTimeouts(History(s, m, turns))
    decreases |turns|
  {
    hide SlotStep;
    hide StepsOf;
    if turns != [] {
      var front, last := turns[..|turns| - 1], turns[|turns| - 1];
      PositiveHistory(s, m, front);
      StepConfigs(SlotRun(s, m, front), last.cfg, last.event);
    }
  }

  /** A slot that its timer fails has gone without evidence for at least the sum of the timeouts charged, whatever the
      operator changed in between. */
  lemma SlotNotPremature(fd: nat, feedId: uint32, clock: Time, m: int, turns: seq<Turn>)
    requires Turns(turns, m) && turns != [] && turns[|turns| - 1].event.TimerTick?
    requires forall i :: 0 <= i < |turns| ==> turns[i].cfg.heartbeatTimeoutNs > 0
    requires FreshBaselines(History(NewSlot(fd, feedId, clock), m, turns), clock)
    ensures
      var s := NewSlot(fd, feedId, clock);
      var before, last := SlotRun(s, m, turns[..|turns| - 1]), turns[|turns| - 1];
      var l := LedgerOf(s.conn, History(s, m, turns), clock);
      IsLive(before.conn) && SlotRun(s, m, turns).conn.state == Failed
      && !PingFails(before, last.cfg, last.event.now, last.event.a) ==>
        && last.event.now - l.evidenceAt >= Sum(l.charges)
        && |l.charges| == before.conn.consecutiveMissed + 1 && |l.charges| >= last.cfg.maxMissedHeartbeats
  {
    hide CR.Run;
    hide LedgerOf;
    hide SlotRun;
    hide FreshBaselines;
    hide PositiveTimeouts;
    hide PingSlot;
    hide PingFails;
    hide TickSlot;
    var s := NewSlot(fd, feedId, clock);
    var front, last := turns[..|turns| - 1], turns[|turns| - 1];
    var before := SlotRun(s, m, front);
    var now, a := last.event.now, last.event.a;
    SlotRunIsRun(s, m, front);
    SlotRunIsRun(s, m, turns);
    PositiveHistory(s, m, turns);
    var h := History(s, m, turns);
    if IsLive(before.conn) && !PingFails(before, last.cfg, now, a) && SlotRun(s, m, turns).conn.state == Failed {
      PingFailsExactly(before, last.cfg, now, a);
      PingStepsRun(before, last.cfg, now, a);
      PingKeepsMisses(before, last.cfg, now, a);
      var more := TickSteps(before, last.cfg, now, a, last.event.fd);
      LastStep(History(s, m, front), more);
      assert more[..|more| - 1] == PingSteps(before, last.cfg, now, a);
      RunAppend(s.conn, History(s, m, front), PingSteps(before, last.cfg, now, a));
      NoPrematureFailure(fd, feedId, clock, h);
    }
  }

  lemma PingKeepsMisses(s: Slot, cfg: Config, now: Time, a: Answer)
    requires IsLive(s.conn)
    ensures PingSlot(s, cfg, now, a).conn.consecutiveMissed == s.conn.consecutiveMissed
    ensures PingSlot(s, cfg, now, a).conn.state == s.conn.state || PingSlot(s, cfg, now, a).conn.state == Failed
  {
    hide QueueWrite;
    hide Encode;
    hide Sealed;
  }

  // ---- Attempts ----

  lemma NewSlotBegins(fd: nat, feedId: uint32, clock: Time)
    ensures Begins(NewSlot(fd, feedId, clock).conn, clock)
  {}

  /** A tick that finds the slot connecting or handshaking fails it if and only if a whole timeout has passed since the
      phase was opened: by adding the feed or by the tick that reconnected it, then by the connect completing. */
  lemma SlotAttemptTimed(fd: nat, feedId: uint32, clock: Time, m: int, turns: seq<Turn>)
    requires Turns(turns, m) && turns != [] && turns[|turns| - 1].event.TimerTick?
    ensures
      var s := NewSlot(fd, feedId, clock);
      var front, last := turns[..|turns| - 1], turns[|turns| - 1];
      Attempting(SlotRun(s, m, front).conn) ==>
        (SlotRun(s, m, turns).conn.state == Failed <==>
           last.event.now >= PhaseOpened(s.conn, History(s, m, front), clock) + last.cfg.heartbeatTimeoutNs)
  {
    hide CR.Run;
    hide History;
    hide PhaseOpened;
    hide NewSlot;
    hide Begins;
    hide TickSlot;
    hide CR.Apply;
    var s := NewSlot(fd, feedId, clock);
    var front, last := turns[..|turns| - 1], turns[|turns| - 1];
    var before := SlotRun(s, m, front);
    NewSlotBegins(fd, feedId, clock);
    SlotIsInitiator(fd, feedId, clock);
    SlotRunIsRun(s, m, front);
    if Attempting(before.conn) {
      var tick := Still(before.conn, last.cfg, CR.Tick(last.event.now));
      TickStepsRun(before, last.cfg, last.event.now, last.event.a, last.event.fd);
      RunOne(before.conn, tick);
      AttemptTick(s.conn, History(s, m, front), tick, clock);
    }
  }

  lemma SlotIsInitiator(fd: nat, feedId: uint32, clock: Time)
    ensures NewSlot(fd, feedId, clock).conn.role == Initiator
  {}

  // ---- Detection on time ----

  lemma {:induction false} RunSplit(s: Slot, m: int, a: seq<Turn>, b: seq<Turn>)
    requires Turns(a, m) && Turns(b, m)
    ensures Turns(a + b, m) && SlotRun(s, m, a + b) == SlotRun(SlotRun(s, m, a), m, b)
    decreases |b|
  {
    hide SlotStep;
    if b == [] {
      assert a + b == a;
    } else {
      assert (a + b)[..|a + b| - 1] == a + b[..|b| - 1];
      RunSplit(s, m, a, b[..|b| - 1]);
    }
  }

  lemma QuietSplit(c: Conn, a: seq<CR.Step>, b: seq<CR.Step>, timeoutNs: int, maxMissed: int)
    requires Quiet(c, a + b, timeoutNs, maxMissed)
    ensures Quiet(c, a, timeoutNs, maxMissed) && Quiet(CR.Run(c, a), b, timeoutNs, maxMissed)
  {
    hide QuietStep;
    hide CR.Run;
    forall i | 0 <= i < |a|
      ensures QuietStep(CR.Run(c, a[..i]), a[i], timeoutNs, maxMissed)
    {
      assert (a + b)[..i] == a[..i] && (a + b)[i] == a[i];
    }
    forall i | 0 <= i < |b|
      ensures QuietStep(CR.Run(CR.Run(c, a), b[..i]), b[i], timeoutNs, maxMissed)
    {
      assert (a + b)[..|a| + i] == a + b[..i] && (a + b)[|a| + i] == b[i];
      RunAppend(c, a, b[..i]);
    }
  }

  lemma QuietFirst(c: Conn, steps: seq<CR.Step>, timeoutNs: int, maxMissed: int)
    requires Quiet(c, steps, timeoutNs, maxMissed) && steps != []
    ensures QuietStep(c, steps[0], timeoutNs, maxMissed)
  {
    hide QuietStep;
    assert steps[..0] == [];
    RunNone(c);
  }

  /** A failure of the slot is handled: it waits for a reconnect or has given up. */
  predicate Handled(s: Slot) {
    s.conn.state == Failed ==> Pending(s) || s.giveUp
  }

  lemma ScheduleHandles(s: Slot, cfg: Config, now: Time, jitter: Jitter)
    requires ConfigOk(cfg)
    ensures Handled(ScheduleReconnect(s, cfg, now, jitter)) && ScheduleReconnect(s, cfg, now, jitter).conn == s.conn
  {
    hide Backoff;
    hide Jittered;
    JitterBounds(Backoff(cfg.reconnectBaseDelayNs, cfg.reconnectMaxDelayNs, s.reconnectAttempts), jitter);
  }

  lemma QuietTick(s: Slot, cfg: Config, e: SlotEvent, timeoutNs: int, maxMissed: int)
    requires ConfigOk(cfg) && s.conn.role == Initiator && Handled(s) && e.TimerTick?
    requires Quiet(s.conn, StepsOf(s, cfg, e), timeoutNs, maxMissed)
    ensures Handled(SlotStep(s, cfg, e))
    ensures SlotStep(s, cfg, e).conn.stats.reconnects == s.conn.stats.reconnects
  {
    hide PingSlot;
    hide CheckTimeout;
    hide ScheduleReconnect;
    hide QueueWrite;
    var now, a := e.now, e.a;
    PingIdentity(s, cfg, now, a);
    var p := if IsLive(s.conn) then PingSlot(s, cfg, now, a) else s;
    CheckIdentity(p.conn, cfg, now);
    var c := CheckTimeout(p.conn, cfg, now).0;
    ScheduleHandles(p.(conn := c, alerts := p.alerts + 1), cfg, a.clock, a.jitter);
    ScheduleHandles(s.(reconnectReadyAtNs := -1), cfg, now, a.jitter);
    if IsLive(s.conn) {
      hide Quiet;
      QuietPing(s, cfg, now, a, e, timeoutNs, maxMissed);
    } else if ReconnectDue(s, now) && a.socket.Some? {
      QuietFirst(s.conn, StepsOf(s, cfg, e), timeoutNs, maxMissed);
      assert false;
    }
  }

  lemma QuietPing(s: Slot, cfg: Config, now: Time, a: Answer, e: SlotEvent, timeoutNs: int, maxMissed: int)
    requires IsLive(s.conn) && e.TimerTick? && e.now == now && e.a == a
    requires Quiet(s.conn, StepsOf(s, cfg, e), timeoutNs, maxMissed)
    ensures PingSlot(s, cfg, now, a).conn.state != Failed
  {
    hide CR.Apply;
    hide CR.Run;
    hide PingSlot;
    hide Quiet;
    PingStepsRun(s, cfg, now, a);
    RunNone(s.conn);
    if now >= s.nextPingDueNs {
      var ping := Integration.Say(cfg, a, CR.PingDue(now));
      RunOne(s.conn, ping);
      QuietFirst(s.conn, StepsOf(s, cfg, e), timeoutNs, maxMissed);
    }
  }

  lemma QuietTurn(s: Slot, cfg: Config, e: SlotEvent, timeoutNs: int, maxMissed: int)
    requires ConfigOk(cfg) && s.conn.role == Initiator && Handled(s)
    requires Quiet(s.conn, StepsOf(s, cfg, e), timeoutNs, maxMissed)
    ensures Handled(SlotStep(s, cfg, e))
    ensures SlotStep(s, cfg, e).conn.stats.reconnects == s.conn.stats.reconnects
  {
    hide EventConn;
    hide EventSteps;
    hide ScheduleReconnect;
    hide Quiet;
    match e {
      case Sock(ev, now, a) =>
        EventIdentity(s.conn, cfg, ev, now, a);
        var c := EventConn(s.conn, cfg, ev, now, a);
        ScheduleHandles(s.(conn := c, alerts := s.alerts + 1), cfg, a.clock, a.jitter);
      case TimerTick(_, _, _) => QuietTick(s, cfg, e, timeoutNs, maxMissed);
      case ForceDisconnect(a) =>
        ScheduleHandles(s.(conn := OnHangupOrError(s.conn, a.clock), alerts := s.alerts + 1), cfg, a.clock, a.jitter);
      case ForceReconnect =>
      case Baseline(now) =>
    }
  }

  lemma {:induction false} QuietTurns(s: Slot, m: int, turns: seq<Turn>, timeoutNs: int, maxMissed: int)
    requires Turns(turns, m) && s.conn.role == Initiator && Handled(s)
    requires Quiet(s.conn, History(s, m, turns), timeoutNs, maxMissed)
    ensures Handled(SlotRun(s, m, turns))
    ensures SlotRun(s, m, turns).conn.stats.reconnects == s.conn.stats.reconnects
    decreases |turns|
  {
    hide SlotStep;
    hide StepsOf;
    hide Handled;
    hide Quiet;
    hide CR.Run;
    if turns != [] {
      var front, last := turns[..|turns| - 1], turns[|turns| - 1];
      var p := SlotRun(s, m, front);
      SlotRunIsRun(s, m, front);
      QuietSplit(s.conn, History(s, m, front), StepsOf(p, last.cfg, last.event), timeoutNs, maxMissed);
      QuietTurns(s, m, front, timeoutNs, maxMissed);
      QuietTurn(p, last.cfg, last.event, timeoutNs, maxMissed);
    }
  }

  /** A slot whose peer has fallen silent fails at exactly the first tick at or after R + M*T, and by then it is handled:
      scheduled or given up, on the same attempt. */
  lemma SlotDetects(s: Slot, m: int, turns: seq<Turn>, timeoutNs: int, maxMissed: int, delta: int, t0: int)
    requires Turns(turns, m) && s.conn.role == Initiator && s.conn.state == Healthy && s.conn.consecutiveMissed == 0
    requires timeoutNs > 0 && maxMissed >= 1 && 0 <= delta <= timeoutNs
    requires s.conn.lastLivenessNs <= t0 < s.conn.lastLivenessNs + timeoutNs
    requires Quiet(s.conn, History(s, m, turns), timeoutNs, maxMissed) && TicksPaced(History(s, m, turns), t0, delta)
    ensures
      var r := SlotRun(s, m, turns);
      && (r.conn.state == Failed <==>
            LastTick(History(s, m, turns), t0) >= s.conn.lastLivenessNs + maxMissed * timeoutNs)
      && Handled(r) && r.conn.stats.reconnects == s.conn.stats.reconnects
  {
    hide SlotRun;
    hide History;
    hide Quiet;
    hide TicksPaced;
    hide LastTick;
    hide CR.Run;
    SlotRunIsRun(s, m, turns);
    QuietTurns(s, m, turns, timeoutNs, maxMissed);
    ExactDetection(s.conn, History(s, m, turns), timeoutNs, maxMissed, delta, t0);
  }
}
