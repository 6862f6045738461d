/** What a change of the timeout at run time grants, and what the miss statistic counts. */
module Baselines {
  import opened Heartbeat
  import opened ConnectionModel
  import opened ConnectionRuns
  import opened Detection

  // ---- Only ticks count misses ----

  lemma MessageMissed(c: Conn, timeoutNs: int, m: HeartbeatMessage, now: Time)
    ensures HandleMessage(c, timeoutNs, m, now).stats.missed == c.stats.missed
  {
    hide QueueWrite;
    hide Remember;
    hide Message;
  }

  lemma {:induction false} DrainMissed(c: Conn, timeoutNs: int, now: Time)
    ensures Drain(c, timeoutNs, now).stats.missed == c.stats.missed
    decreases |c.readAccum|
  {
    hide Decode;
    hide HandleMessage;
    if |c.readAccum| >= MESSAGE_SIZE && Decode(c.readAccum[..MESSAGE_SIZE]).Some? {
      var m := Decode(c.readAccum[..MESSAGE_SIZE]).value;
      var c1 := HandleMessage(TakeFrame(c, m), timeoutNs, m, now);
      MessageMissed(TakeFrame(c, m), timeoutNs, m, now);
      HandlersLeaveInput(TakeFrame(c, m), timeoutNs, m, now);
      if c1.state != Failed {
        DrainMissed(c1, timeoutNs, now);
      }
    }
  }

  lemma OtherMissed(c: Conn, s: Step)
    requires !s.event.Tick?
    ensures Apply(c, s).stats.missed == c.stats.missed
  {
    hide QueueWrite;
    hide Flush;
    hide Drain;
    hide Receive;
    hide Message;
    if s.event.Readable? {
      var k := WithKernel(c, s.clock, s.sends, s.verdicts);
      DrainMissed(k.(readAccum := Receive(k.readAccum, s.event.recvs).0), s.cfg.heartbeatTimeoutNs, s.event.now);
    }
  }

  /** The ticks of a run that raised the count of consecutive misses. */
  function ChargedTicks(c: Conn, steps: seq<Step>): (r: nat)
    decreases |steps|
  {
    if steps == [] then 0
    else
      var front, last := steps[..|steps| - 1], steps[|steps| - 1];
      ChargedTicks(c, front)
      + if last.event.Tick? && Run(c, steps).consecutiveMissed > Run(c, front).consecutiveMissed then 1 else 0
  }

  /** The cumulative statistic counts exactly those, over every run, reconnects included. */
  lemma {:induction false} MissesCounted(c: Conn, steps: seq<Step>)
    ensures Run(c, steps).stats.missed == c.stats.missed + ChargedTicks(c, steps)
    decreases |steps|
  {
    if steps != [] {
      var front, last := steps[..|steps| - 1], steps[|steps| - 1];
      MissesCounted(c, front);
      if !last.event.Tick? {
        hide Apply;
        OtherMissed(Run(c, front), last);
      }
    }
  }

  // ---- A new timeout starts from its baseline ----

  /** What may follow a timeout change to `timeoutNs` at `t` in the same attempt: ticks, and traffic not dated before it. */
  predicate Following(s: Step, t: int, timeoutNs: int) {
    && s.cfg.heartbeatTimeoutNs == timeoutNs && !s.event.NewBaseline? && !s.event.Reconnect?
    && (IsTraffic(s.event) ==> At(s) >= t)
  }

  /** An initiator that is up and whose liveness is from `t` or later; exactly from `t` if it has no newer evidence. */
  predicate Granted(c0: Conn, c: Conn, t: int) {
    c.state != Failed ==>
      && Going(c) && Live(c) && c.lastLivenessNs >= t
      && |c.io.accepted| >= |c0.io.accepted|
      && (|c.io.accepted| == |c0.io.accepted| ==> c.lastLivenessNs == t)
  }

  lemma GrantedStep(c0: Conn, c: Conn, s: Step, t: int, timeoutNs: int)
    requires Granted(c0, c, t) && Following(s, t, timeoutNs)
    requires s.event.Tick? ==> At(s) < t + timeoutNs
    ensures Granted(c0, Apply(c, s), t)
    ensures Apply(c, s).stats.missed == c.stats.missed
  {
    if c.state == Failed {
      hide Apply;
      FailedAbsorbing(c, s);
      if s.event.Tick? {
        FailedTick(c, s);
      } else {
        OtherMissed(c, s);
      }
    } else if !s.event.Tick? {
      hide Apply;
      TrafficOutcome(c, s);
      OtherMissed(c, s);
    }
  }

  lemma FailedTick(c: Conn, s: Step)
    requires c.state == Failed && s.event.Tick?
    ensures Apply(c, s).stats.missed == c.stats.missed
  {}

  lemma {:induction false} GrantedRun(c: Conn, change: Step, steps: seq<Step>, timeoutNs: int)
    requires Going(c) && Live(c) && change.event.NewBaseline?
    requires forall i :: 0 <= i < |steps| ==> Following(steps[i], change.event.now, timeoutNs)
    requires forall i :: 0 <= i < |steps| && steps[i].event.Tick? ==> At(steps[i]) < change.event.now + timeoutNs
    ensures
      var c0 := Apply(c, change);
      Granted(c0, Run(c0, steps), change.event.now) && Run(c0, steps).stats.missed == c.stats.missed
    decreases |steps|
  {
    if steps != [] {
      hide Apply;
      hide Granted;
      var front, last := steps[..|steps| - 1], steps[|steps| - 1];
      var c0 := Apply(c, change);
      GrantedRun(c, change, front, timeoutNs);
      GrantedStep(c0, Run(c0, front), last, change.event.now, timeoutNs);
    }
  }

  /** A timeout changed to T at t restarts the wait: no tick before t + T charges a miss, whatever had accumulated under
      the old timeout; and the first tick from then on charges one exactly if it comes at or after t + T, when no
      evidence has been accepted since the change. */
  lemma TimeoutChange(c: Conn, change: Step, steps: seq<Step>, tick: Step, timeoutNs: int)
    requires Going(c) && Live(c) && change.event.NewBaseline? && tick.event.Tick?
    requires forall i :: 0 <= i < |steps| ==> Following(steps[i], change.event.now, timeoutNs)
    requires forall i :: 0 <= i < |steps| && steps[i].event.Tick? ==> At(steps[i]) < change.event.now + timeoutNs
    requires tick.cfg.heartbeatTimeoutNs == timeoutNs
    ensures
      var c0 := Apply(c, change);
      var p := Run(c0, steps);
      && p.stats.missed == c.stats.missed
      && (p.state != Failed && |p.io.accepted| == |c0.io.accepted| ==>
            (Apply(p, tick).stats.missed == c.stats.missed + 1 <==> tick.event.now >= change.event.now + timeoutNs))
  {
    hide Run;
    GrantedRun(c, change, steps, timeoutNs);
  }
}
