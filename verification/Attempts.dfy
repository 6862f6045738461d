/** When a connection attempt times out, exactly. The time of the phase an attempt is in is read from the steps: the
    construction or the reconnect that began it, then the step that completed the connect. A tick fails the attempt
    if and only if a whole timeout has passed since that time. */
module Attempts {
  import opened Heartbeat
  import opened ConnectionModel
  import opened ConnectionRuns
  import opened Detection

  /** When the phase of the attempt that is in force after `steps` was opened. */
  function PhaseOpened(c: Conn, steps: seq<Step>, start: int): (r: int)
    decreases |steps|
  {
    if steps == [] then start
    else
      var front, last := steps[..|steps| - 1], steps[|steps| - 1];
      if last.event.Reconnect? then last.event.now
      else if last.event.Writable? && Run(c, front).state == Connecting then last.event.now
      else PhaseOpened(c, front, start)
  }

  /** An attempting initiator entered its state when its phase was opened. */
  predicate OpenedAt(c: Conn, since: int) {
    && c.role == Initiator
    && (c.state != Failed ==> Going(c))
    && (Attempting(c) ==> c.stateEnteredNs == since)
  }

  lemma BegunOpen(c: Conn, start: int)
    requires Begins(c, start)
    ensures OpenedAt(c, start)
  {
    BeginsFresh(c, start);
  }

  /** Completing the connect leaves Connecting, one way or the other. */
  lemma ConnectEnds(c: Conn, s: Step)
    requires c.role == Initiator && c.state == Connecting && s.event.Writable?
    ensures Apply(c, s).state != Connecting
    ensures Apply(c, s).state == Handshaking ==> s.event.connectOk && Apply(c, s).stateEnteredNs == s.event.now
  {
    hide QueueWrite;
    hide Encode;
    hide Sealed;
    hide Message;
  }

  lemma ReconnectOpens(c: Conn, s: Step)
    requires c.role == Initiator && s.event.Reconnect?
    ensures OpenedAt(Apply(c, s), s.event.now) && Apply(c, s).state == Connecting
  {}

  lemma TimerKeepsPhase(c: Conn, s: Step, since: int)
    requires OpenedAt(c, since) && (s.event.Tick? || s.event.NewBaseline?)
    ensures OpenedAt(Apply(c, s), since)
  {}

  lemma OpenedStep(c: Conn, s: Step, since: int)
    requires OpenedAt(c, since)
    ensures
      var since' := if s.event.Reconnect? || (s.event.Writable? && c.state == Connecting) then s.event.now else since;
      OpenedAt(Apply(c, s), since')
  {
    hide Apply;
    if s.event.Reconnect? {
      ReconnectOpens(c, s);
    } else if c.state == Failed {
      FailedAbsorbing(c, s);
    } else if s.event.Tick? || s.event.NewBaseline? {
      TimerKeepsPhase(c, s, since);
    } else {
      TrafficOutcome(c, s);
      if s.event.Writable? && c.state == Connecting {
        ConnectEnds(c, s);
      } else if !s.event.Writable? {
        OnlyWritesConnect(c, s);
      }
    }
  }

  lemma OnlyWritesConnect(c: Conn, s: Step)
    requires Going(c) && IsTraffic(s.event) && !s.event.Writable?
    ensures c.state == Connecting ==> Apply(c, s).state != Handshaking
  {
    hide Apply;
    TrafficOutcome(c, s);
    if c.state == Connecting {
      NotConnected(c, s);
    }
  }

  lemma NotConnected(c: Conn, s: Step)
    requires Going(c) && IsTraffic(s.event) && !s.event.Writable? && c.state == Connecting
    ensures Untouched(c, Apply(c, s)) || Broke(c, Apply(c, s))
  {
    hide QueueWrite;
    hide OnReadable;
    if s.event.Readable? {
      ReadOutcome(WithKernel(c, s.clock, s.sends, s.verdicts), s.cfg.heartbeatTimeoutNs, s.event.now, s.event.recvs);
    }
  }

  lemma {:induction false} OpenedRun(c: Conn, steps: seq<Step>, start: int)
    requires Begins(c, start)
    ensures OpenedAt(Run(c, steps), PhaseOpened(c, steps, start))
    decreases |steps|
  {
    hide Apply;
    hide OpenedAt;
    hide Begins;
    if steps == [] {
      BegunOpen(c, start);
    } else {
      var front, last := steps[..|steps| - 1], steps[|steps| - 1];
      OpenedRun(c, front, start);
      OpenedStep(Run(c, front), last, PhaseOpened(c, front, start));
    }
  }

  lemma TickExactly(c: Conn, s: Step, since: int)
    requires OpenedAt(c, since) && Attempting(c) && s.event.Tick?
    ensures Apply(c, s).state == Failed <==> s.event.now >= since + s.cfg.heartbeatTimeoutNs
    ensures Apply(c, s).state != Failed ==> Apply(c, s).state == c.state
  {}

  /** On every run, reconnects and changes of the timeout included, a tick that finds the initiator connecting or
      handshaking fails it if and only if a whole timeout has passed since the phase it is in was opened. */
  lemma AttemptTick(c: Conn, steps: seq<Step>, last: Step, start: int)
    requires Begins(c, start) && Attempting(Run(c, steps)) && last.event.Tick?
    ensures Apply(Run(c, steps), last).state == Failed <==>
            last.event.now >= PhaseOpened(c, steps, start) + last.cfg.heartbeatTimeoutNs
  {
    hide Run;
    hide Apply;
    hide PhaseOpened;
    hide Begins;
    OpenedRun(c, steps, start);
    TickExactly(Run(c, steps), last, PhaseOpened(c, steps, start));
  }

  // ---- Whole attempts ----

  /** Nothing but ticks may fail the attempt, and the handshake does not complete. */
  predicate UnansweredStep(p: Conn, s: Step, timeoutNs: int) {
    && AttemptStep(s, timeoutNs)
    && (Apply(p, s).state == Failed ==> s.event.Tick? || p.state == Failed)
    && !Live(Apply(p, s))
  }

  predicate Unanswered(c: Conn, steps: seq<Step>, timeoutNs: int) {
    forall i :: 0 <= i < |steps| ==> UnansweredStep(Run(c, steps[..i]), steps[i], timeoutNs)
  }

  lemma UnansweredPrefix(c: Conn, steps: seq<Step>, timeoutNs: int)
    requires steps != [] && Unanswered(c, steps, timeoutNs)
    ensures Unanswered(c, steps[..|steps| - 1], timeoutNs)
    ensures UnansweredStep(Run(c, steps[..|steps| - 1]), steps[|steps| - 1], timeoutNs)
  {
    hide Run;
    hide UnansweredStep;
    var front := steps[..|steps| - 1];
    forall i | 0 <= i < |front|
      ensures UnansweredStep(Run(c, front[..i]), front[i], timeoutNs)
    {
      assert front[..i] == steps[..i];
    }
  }

  /** A tick of the attempt that came a whole timeout or more after its phase was opened. */
  predicate Overdue(c: Conn, steps: seq<Step>, i: nat, timeoutNs: int, start: int)
    requires i < |steps|
  {
    steps[i].event.Tick? && At(steps[i]) >= PhaseOpened(c, steps[..i], start) + timeoutNs
  }

  predicate AnyOverdue(c: Conn, steps: seq<Step>, timeoutNs: int, start: int) {
    exists i :: 0 <= i < |steps| && Overdue(c, steps, i, timeoutNs, start)
  }

  lemma OverdueMore(c: Conn, steps: seq<Step>, timeoutNs: int, start: int)
    requires steps != []
    ensures
      AnyOverdue(c, steps, timeoutNs, start) <==>
        || AnyOverdue(c, steps[..|steps| - 1], timeoutNs, start)
        || Overdue(c, steps, |steps| - 1, timeoutNs, start)
  {
    hide PhaseOpened;
    var front := steps[..|steps| - 1];
    assert forall i :: 0 <= i < |front| ==> front[..i] == steps[..i];
    forall i | 0 <= i < |front|
      ensures Overdue(c, front, i, timeoutNs, start) <==> Overdue(c, steps, i, timeoutNs, start)
    {
    }
    if i :| 0 <= i < |front| && Overdue(c, front, i, timeoutNs, start) {
      assert Overdue(c, steps, i, timeoutNs, start);
    }
  }

  /** An attempt that nobody answers, and that nothing but its timer may fail, has failed if and only if some tick came a
      whole timeout after the phase it was in was opened, counted from the construction or the reconnect that began
      it and then from the step that completed the connect. */
  lemma {:induction false} AttemptFailsExactly(c: Conn, steps: seq<Step>, timeoutNs: int, start: int)
    requires Begins(c, start) && Unanswered(c, steps, timeoutNs)
    ensures Run(c, steps).state == Failed <==> AnyOverdue(c, steps, timeoutNs, start)
    ensures Run(c, steps).state != Failed ==> Attempting(Run(c, steps))
    decreases |steps|
  {
    hide Apply;
    hide PhaseOpened;
    hide Begins;
    if steps == [] {
      BeginsFresh(c, start);
    } else {
      var front, last := steps[..|steps| - 1], steps[|steps| - 1];
      UnansweredPrefix(c, steps, timeoutNs);
      hide Unanswered;
      AttemptFailsExactly(c, front, timeoutNs, start);
      OverdueMore(c, steps, timeoutNs, start);
      hide AnyOverdue;
      var p := Run(c, front);
      if p.state == Failed {
        FailedAbsorbing(p, last);
      } else if last.event.Tick? {
        AttemptTick(c, front, last, start);
      }
    }
  }

  /** In particular no tick before start + T fails an attempt begun at `start`, provided its connect was not completed at
      a time before that. */
  lemma NotBefore(c: Conn, steps: seq<Step>, timeoutNs: int, start: int)
    requires Begins(c, start) && Unanswered(c, steps, timeoutNs)
    requires forall i :: 0 <= i < |steps| && steps[i].event.Writable? ==> At(steps[i]) >= start
    requires forall i :: 0 <= i < |steps| && steps[i].event.Tick? ==> At(steps[i]) < start + timeoutNs
    ensures Attempting(Run(c, steps))
  {
    hide Run;
    hide Begins;
    hide PhaseOpened;
    AttemptFailsExactly(c, steps, timeoutNs, start);
    forall i | 0 <= i < |steps|
      ensures !Overdue(c, steps, i, timeoutNs, start)
    {
      UnansweredNoReconnect(c, steps, timeoutNs, i);
      OpenedAfter(c, steps[..i], start);
    }
  }

  lemma UnansweredNoReconnect(c: Conn, steps: seq<Step>, timeoutNs: int, i: nat)
    requires Unanswered(c, steps, timeoutNs) && i <= |steps|
    ensures forall k :: 0 <= k < i ==> !steps[..i][k].event.Reconnect?
  {
    hide Run;
    hide Apply;
    hide Live;
    forall k | 0 <= k < i
      ensures !steps[..i][k].event.Reconnect?
    {
      assert UnansweredStep(Run(c, steps[..k]), steps[k], timeoutNs);
    }
  }

  lemma {:induction false} OpenedAfter(c: Conn, steps: seq<Step>, start: int)
    requires forall k :: 0 <= k < |steps| ==> !steps[k].event.Reconnect?
    requires forall k :: 0 <= k < |steps| && steps[k].event.Writable? ==> At(steps[k]) >= start
    ensures PhaseOpened(c, steps, start) >= start
    decreases |steps|
  {
    hide Run;
    if steps != [] {
      OpenedAfter(c, steps[..|steps| - 1], start);
    }
  }
}
