/** When an initiator declares its peer failed: the exact detection time under a constant timeout, no
    premature failure under timeouts changed at run time, the time limit on a connection attempt, and
    kFailed as an absorbing state. */
module Detection {
  import opened Heartbeat
  import opened Stats
  import opened ConnectionModel
  import opened ConnectionRuns

  predicate Live(c: Conn) {
    c.state == Healthy || c.state == Degraded
  }

  /** The fields the miss counter works with. */
  predicate Untouched(c: Conn, r: Conn) {
    && r.role == c.role
    && r.state == c.state && r.stateEnteredNs == c.stateEnteredNs
    && r.consecutiveMissed == c.consecutiveMissed && r.lastLivenessNs == c.lastLivenessNs
    && r.io.accepted == c.io.accepted
  }

  /** Fresh evidence: the peer answered in time, or completed the handshake. */
  predicate Refreshed(c: Conn, r: Conn, now: Time) {
    && r.role == c.role
    && r.state == Healthy && r.consecutiveMissed == 0 && r.lastLivenessNs == now
    && (if c.state == Handshaking then |r.io.accepted| >= |c.io.accepted|
        else Live(c) && |r.io.accepted| > |c.io.accepted|)
  }

  predicate Broke(c: Conn, r: Conn) {
    r.role == c.role && r.state == Failed && |r.io.accepted| >= |c.io.accepted|
  }

  /** An initiator that has not failed, and whose miss count is zero unless it is Degraded. */
  predicate Going(c: Conn) {
    && c.role == Initiator && c.state != Failed
    && (c.state != Degraded ==> c.consecutiveMissed == 0)
  }

  // ---- Outcomes of a read ----

  lemma MessageOutcome(c: Conn, timeoutNs: int, m: HeartbeatMessage, now: Time)
    requires Going(c) && IsKnownMessageType(m.kind)
    ensures
      var r := HandleMessage(c, timeoutNs, m, now);
      Untouched(c, r) || Refreshed(c, r, now) || Broke(c, r)
  {
    hide QueueWrite;
    hide Remember;
    hide ConnectionStats.RecordPongReceived;
  }

  /** A refreshed connection stays refreshed, untouched, or breaks. */
  lemma {:induction false} DrainOutcome(c: Conn, timeoutNs: int, now: Time)
    requires Going(c)
    ensures
      var r := Drain(c, timeoutNs, now);
      Untouched(c, r) || Refreshed(c, r, now) || Broke(c, r)
    decreases |c.readAccum|
  {
    hide Decode;
    hide HandleMessage;
    if |c.readAccum| >= MESSAGE_SIZE {
      var d := Decode(c.readAccum[..MESSAGE_SIZE]);
      if d.Some? {
        var c0 := TakeFrame(c, d.value);
        var c1 := HandleMessage(c0, timeoutNs, d.value, now);
        DecodedKnown(c.readAccum[..MESSAGE_SIZE]);
        MessageOutcome(c0, timeoutNs, d.value, now);
        HandlersLeaveInput(c0, timeoutNs, d.value, now);
        if c1.state != Failed {
          DrainOutcome(c1, timeoutNs, now);
        }
      }
    }
  }

  /** Whatever arrives, one read leaves the miss counter's fields alone, refreshes them because a
      PONG was accepted (or the handshake completed), or fails the connection. */
  lemma ReadOutcome(c: Conn, timeoutNs: int, now: Time, recvs: seq<Recv>)
    requires Going(c)
    ensures
      var r := OnReadable(c, timeoutNs, now, recvs);
      Untouched(c, r) || Refreshed(c, r, now) || Broke(c, r)
  {
    hide Drain;
    hide Receive;
    DrainOutcome(c.(readAccum := Receive(c.readAccum, recvs).0), timeoutNs, now);
  }

  /** Steps other than ticks, baselines and reconnects. */
  predicate IsTraffic(e: Event) {
    !e.Tick? && !e.NewBaseline? && !e.Reconnect?
  }

  function At(s: Step): (r: Time) {
    if s.event.PongDue? then s.clock else s.event.now
  }

  /** The attempt moves from connecting to handshaking. */
  predicate Connected(c: Conn, r: Conn, now: int) {
    && r.role == c.role && c.state == Connecting && r.state == Handshaking && r.stateEnteredNs == now
    && r.consecutiveMissed == c.consecutiveMissed && |r.io.accepted| >= |c.io.accepted|
  }

  lemma TrafficOutcome(c: Conn, s: Step)
    requires Going(c) && IsTraffic(s.event)
    ensures
      var r := Apply(c, s);
      Untouched(c, r) || Refreshed(c, r, At(s)) || Broke(c, r) || Connected(c, r, At(s))
  {
    hide QueueWrite;
    hide Flush;
    hide OnReadable;
    hide Encode;
    hide Sealed;
    hide Message;
    var k := WithKernel(c, s.clock, s.sends, s.verdicts);
    if s.event.Readable? {
      ReadOutcome(k, s.cfg.heartbeatTimeoutNs, s.event.now, s.event.recvs);
    }
  }

  // ---- kFailed is absorbing ----

  lemma FailedDrain(c: Conn, timeoutNs: int, now: Time)
    requires c.state == Failed
    ensures Drain(c, timeoutNs, now).state == Failed
  {
    hide Decode;
    hide QueueWrite;
    hide Remember;
    if |c.readAccum| >= MESSAGE_SIZE && Decode(c.readAccum[..MESSAGE_SIZE]).Some? {
      DecodedKnown(c.readAccum[..MESSAGE_SIZE]);
    }
  }

  /** On every run, a connection leaves kFailed only by `rebind`. */
  lemma FailedAbsorbing(c: Conn, s: Step)
    requires c.state == Failed && !s.event.Reconnect?
    ensures Apply(c, s).state == Failed && Apply(c, s).role == c.role
  {
    hide Drain;
    hide QueueWrite;
    hide Flush;
    hide Receive;
    if s.event.Readable? {
      var k := WithKernel(c, s.clock, s.sends, s.verdicts);
      var k1 := k.(readAccum := Receive(k.readAccum, s.event.recvs).0);
      FailedDrain(k1, s.cfg.heartbeatTimeoutNs, s.event.now);
      DrainRole(k1, s.cfg.heartbeatTimeoutNs, s.event.now);
    }
  }

  lemma {:induction false} DrainRole(c: Conn, timeoutNs: int, now: Time)
    ensures Drain(c, timeoutNs, now).role == c.role
    decreases |c.readAccum|
  {
    hide Decode;
    hide HandleMessage;
    if |c.readAccum| >= MESSAGE_SIZE && Decode(c.readAccum[..MESSAGE_SIZE]).Some? {
      var m := Decode(c.readAccum[..MESSAGE_SIZE]).value;
      HandlersLeaveInput(TakeFrame(c, m), timeoutNs, m, now);
      var c1 := HandleMessage(TakeFrame(c, m), timeoutNs, m, now);
      if c1.state != Failed {
        DrainRole(c1, timeoutNs, now);
      }
    }
  }

  /** Inside one call it is not: a responder completing the handshake masks a failed write of its
      CONNECT_ACK, and ends the call Healthy with the failure logged. */
  lemma ResponderRevives(feedId: uint32)
    ensures
      var c := WithKernel(NewConn(7, Responder, feedId, 0), 0, [SendError], []);
      var r := HandleConnectHello(c, Message(CONNECT_HELLO, feedId, 0, 0), 0);
      r.state == Healthy && r.io.log == [SocketError] && r.io.sent == []
  {
    hide Encode;
    hide Sealed;
    var c := WithKernel(NewConn(7, Responder, feedId, 0), 0, [SendError], []);
    var m := Message(CONNECT_ACK, feedId, 0, 0);
    var c1 := Enqueue(c, m);
    assert |c1.writePending| == MESSAGE_SIZE;
    assert c1.writePending != [] && c1.io.sends[0] == SendError;
    assert Flush(c1).io.log == [SocketError];
  }

  /** Exactly when that happens: a matching HELLO ends Healthy whatever the write does, and leaves the failure in the
      log if and only if the write was refused. */
  lemma MaskedExactly(c: Conn, m: HeartbeatMessage, now: Time)
    requires c.role == Responder && c.state == Handshaking && m.feedId == c.feedId
    ensures
      var r := HandleConnectHello(c, m, now);
      && r.state == Healthy && r.lastLivenessNs == now
      && (Refused(c.writePending, c.io.sends) <==> r.io.log != c.io.log)
      && (Refused(c.writePending, c.io.sends) <==> SocketError in r.io.log[|c.io.log|..] || WriteOverflow in r.io.log[|c.io.log|..])
  {
    hide QueueWrite;
    hide Refused;
    hide Encode;
    hide Sealed;
    QueueWriteFails(c, Message(CONNECT_ACK, c.feedId, 0, now));
  }

  // ---- Pacing ----

  /** The time of the last tick in `steps`, or `start` when there is none. */
  function LastTick(steps: seq<Step>, start: int): (r: int)
    decreases |steps|
  {
    if steps == [] then start
    else if steps[|steps| - 1].event.Tick? then steps[|steps| - 1].event.now
    else LastTick(steps[..|steps| - 1], start)
  }

  /** Only the ticks are paced. Other steps carry whatever time their wakeup captured, which in one batch of
      events can be older than the tick before them. */
  predicate TicksPaced(steps: seq<Step>, start: int, delta: int) {
    forall i :: 0 <= i < |steps| && steps[i].event.Tick? ==>
      LastTick(steps[..i], start) <= At(steps[i]) <= LastTick(steps[..i], start) + delta
  }

  lemma TicksPacedPrefix(steps: seq<Step>, start: int, delta: int)
    requires steps != [] && TicksPaced(steps, start, delta)
    ensures TicksPaced(steps[..|steps| - 1], start, delta)
    ensures
      var front, last := steps[..|steps| - 1], steps[|steps| - 1];
      last.event.Tick? ==> LastTick(front, start) <= At(last) <= LastTick(front, start) + delta
  {
    var front := steps[..|steps| - 1];
    forall i | 0 <= i < |front| && front[i].event.Tick?
      ensures LastTick(front[..i], start) <= At(front[i]) <= LastTick(front[..i], start) + delta
    {
      assert front[..i] == steps[..i];
    }
  }

  // ---- Exact detection time ----

  /** No evidence is accepted and nothing but ticks may fail the connection. */
  predicate QuietStep(c: Conn, s: Step, timeoutNs: int, maxMissed: int) {
    && s.cfg.heartbeatTimeoutNs == timeoutNs && s.cfg.maxMissedHeartbeats == maxMissed
    && (s.event.Tick? || (IsTraffic(s.event)
                          && |Apply(c, s).io.accepted| == |c.io.accepted|
                          && (Apply(c, s).state == Failed ==> c.state == Failed)))
  }

  predicate Quiet(c: Conn, steps: seq<Step>, timeoutNs: int, maxMissed: int) {
    forall i :: 0 <= i < |steps| ==> QuietStep(Run(c, steps[..i]), steps[i], timeoutNs, maxMissed)
  }

  lemma QuietPrefix(c: Conn, steps: seq<Step>, timeoutNs: int, maxMissed: int)
    requires steps != [] && Quiet(c, steps, timeoutNs, maxMissed)
    ensures Quiet(c, steps[..|steps| - 1], timeoutNs, maxMissed)
    ensures QuietStep(Run(c, steps[..|steps| - 1]), steps[|steps| - 1], timeoutNs, maxMissed)
  {
    hide QuietStep;
    hide Run;
    var front := steps[..|steps| - 1];
    forall i | 0 <= i < |front|
      ensures QuietStep(Run(c, front[..i]), front[i], timeoutNs, maxMissed)
    {
      assert front[..i] == steps[..i];
    }
  }

  /** After the last tick at `t`, the count is the number of whole timeouts since `base`. */
  predicate CountsMisses(c: Conn, base: int, t: int, timeoutNs: int) {
    && Going(c) && Live(c)
    && c.lastLivenessNs == base + c.consecutiveMissed * timeoutNs
    && c.lastLivenessNs <= t < c.lastLivenessNs + timeoutNs
  }

  lemma CountTick(c: Conn, cfg: Config, base: int, t: int, now: Time)
    requires cfg.heartbeatTimeoutNs > 0
    requires CountsMisses(c, base, t, cfg.heartbeatTimeoutNs) && c.consecutiveMissed < cfg.maxMissedHeartbeats
    requires t <= now <= t + cfg.heartbeatTimeoutNs
    ensures
      var r := CheckTimeout(c, cfg, now);
      var limit := base + cfg.maxMissedHeartbeats * cfg.heartbeatTimeoutNs;
      && r.0.role == Initiator
      && (now >= limit <==> r.1) && (r.1 <==> r.0.state == Failed)
      && (!r.1 ==> CountsMisses(r.0, base, now, cfg.heartbeatTimeoutNs)
                   && r.0.consecutiveMissed < cfg.maxMissedHeartbeats)
  {
    OneMoreMiss(c.consecutiveMissed, cfg.maxMissedHeartbeats, cfg.heartbeatTimeoutNs);
  }

  /** With k misses counted, the limit is one timeout away exactly when k + 1 = n. */
  lemma OneMoreMiss(k: nat, n: int, t: int)
    requires t > 0 && k < n
    ensures (k + 1) * t == k * t + t
    ensures if k + 1 >= n then n * t == k * t + t else n * t >= k * t + 2 * t
  {
    if k + 1 < n {
      Multiples(k + 2, n, t);
    }
  }

  lemma Multiples(a: int, b: int, t: int)
    requires a <= b && t > 0
    ensures a * t <= b * t
  {}

  /** The state of a quiet, paced run is decided by its last tick alone. Ticks are counted from `t0`, the tick before
      the run; the evidence may be a little older than that tick. */
  lemma {:induction false} QuietRun(c: Conn, steps: seq<Step>, timeoutNs: int, maxMissed: int, delta: int, t0: int)
    requires c.role == Initiator && c.state == Healthy && c.consecutiveMissed == 0
    requires timeoutNs > 0 && maxMissed >= 1 && 0 <= delta <= timeoutNs
    requires c.lastLivenessNs <= t0 < c.lastLivenessNs + timeoutNs
    requires Quiet(c, steps, timeoutNs, maxMissed) && TicksPaced(steps, t0, delta)
    ensures
      var base := c.lastLivenessNs;
      var r := Run(c, steps);
      var t := LastTick(steps, t0);
      && r.role == Initiator
      && (if t >= base + maxMissed * timeoutNs then r.state == Failed
          else CountsMisses(r, base, t, timeoutNs) && r.consecutiveMissed < maxMissed)
    decreases |steps|
  {
    hide Apply;
    var base := c.lastLivenessNs;
    if steps == [] {
      Multiples(1, maxMissed, timeoutNs);
    } else {
      var front, last := steps[..|steps| - 1], steps[|steps| - 1];
      TicksPacedPrefix(steps, t0, delta);
      QuietPrefix(c, steps, timeoutNs, maxMissed);
      QuietRun(c, front, timeoutNs, maxMissed, delta, t0);
      var p := Run(c, front);
      QuietLast(p, last, base, LastTick(front, t0), timeoutNs, maxMissed);
    }
  }

  lemma QuietLast(p: Conn, s: Step, base: int, t: int, timeoutNs: int, maxMissed: int)
    requires timeoutNs > 0 && QuietStep(p, s, timeoutNs, maxMissed) && p.role == Initiator
    requires s.event.Tick? ==> t <= At(s) <= t + timeoutNs
    requires if t >= base + maxMissed * timeoutNs then p.state == Failed
             else CountsMisses(p, base, t, timeoutNs) && p.consecutiveMissed < maxMissed
    ensures
      var r := Apply(p, s);
      var t' := if s.event.Tick? then At(s) else t;
      && r.role == Initiator
      && (if t' >= base + maxMissed * timeoutNs then r.state == Failed
          else CountsMisses(r, base, t', timeoutNs) && r.consecutiveMissed < maxMissed)
  {
    if p.state == Failed {
      hide Apply;
      FailedAbsorbing(p, s);
    } else if s.event.Tick? {
      CountTick(WithKernel(p, s.clock, s.sends, s.verdicts), s.cfg, base, t, s.event.now);
    } else {
      hide Apply;
      TrafficOutcome(p, s);
    }
  }

  /** Exact detection time. From evidence at R, with ticks at most delta <= T apart and no further
      evidence, the tick that fails the connection is the first one at or after R + M*T; it therefore
      comes no earlier than R + M*T and strictly before R + M*T + delta. The evidence may have been taken in
      the same batch as the tick t0 before it, and be older than that tick. */
  lemma ExactDetection(c: Conn, steps: seq<Step>, timeoutNs: int, maxMissed: int, delta: int, t0: int)
    requires c.role == Initiator && c.state == Healthy && c.consecutiveMissed == 0
    requires timeoutNs > 0 && maxMissed >= 1 && 0 <= delta <= timeoutNs
    requires c.lastLivenessNs <= t0 < c.lastLivenessNs + timeoutNs
    requires Quiet(c, steps, timeoutNs, maxMissed) && TicksPaced(steps, t0, delta)
    ensures Run(c, steps).state == Failed <==>
            LastTick(steps, t0) >= c.lastLivenessNs + maxMissed * timeoutNs
    ensures
      var limit := c.lastLivenessNs + maxMissed * timeoutNs;
      steps != [] && Run(c, steps).state == Failed && Run(c, steps[..|steps| - 1]).state != Failed ==>
        && steps[|steps| - 1].event.Tick?
        && limit <= At(steps[|steps| - 1]) < limit + delta
  {
    hide Apply;
    hide Run;
    QuietRun(c, steps, timeoutNs, maxMissed, delta, t0);
    if steps != [] && Run(c, steps).state == Failed {
      TicksPacedPrefix(steps, t0, delta);
      QuietPrefix(c, steps, timeoutNs, maxMissed);
      QuietRun(c, steps[..|steps| - 1], timeoutNs, maxMissed, delta, t0);
    }
  }

  // ---- The time limit on an attempt ----

  predicate Attempting(c: Conn) {
    c.state == Connecting || c.state == Handshaking
  }

  predicate AttemptStep(s: Step, timeoutNs: int) {
    s.cfg.heartbeatTimeoutNs == timeoutNs && !s.event.Reconnect?
  }

  /** The clock of every wakeup is at most `delta` past the last tick; it may be older than that tick. */
  predicate Prompt(steps: seq<Step>, start: int, delta: int) {
    forall i :: 0 <= i < |steps| ==> At(steps[i]) <= LastTick(steps[..i], start) + delta
  }

  lemma PromptPrefix(steps: seq<Step>, start: int, delta: int)
    requires steps != [] && Prompt(steps, start, delta)
    ensures Prompt(steps[..|steps| - 1], start, delta)
    ensures At(steps[|steps| - 1]) <= LastTick(steps[..|steps| - 1], start) + delta
  {
    var front := steps[..|steps| - 1];
    forall i | 0 <= i < |front|
      ensures At(front[i]) <= LastTick(front[..i], start) + delta
    {
      assert front[..i] == steps[..i];
    }
  }

  predicate WithinAttempt(c: Conn, start: int, t: int, timeoutNs: int, delta: int) {
    && c.role == Initiator
    && (c.state != Failed ==> Going(c))
    && (c.state == Connecting ==> c.stateEnteredNs == start && t < start + timeoutNs)
    && (c.state == Handshaking ==>
          c.stateEnteredNs < start + timeoutNs + delta && t < start + 2 * timeoutNs + delta)
  }

  lemma AttemptLast(p: Conn, s: Step, start: int, t: int, timeoutNs: int, delta: int)
    requires timeoutNs > 0 && delta >= 0 && AttemptStep(s, timeoutNs)
    requires WithinAttempt(p, start, t, timeoutNs, delta)
    requires At(s) <= t + delta && (s.event.Tick? ==> t <= At(s))
    ensures WithinAttempt(Apply(p, s), start, if s.event.Tick? then At(s) else t, timeoutNs, delta)
  {
    if p.state == Failed {
      hide Apply;
      FailedAbsorbing(p, s);
    } else if IsTraffic(s.event) {
      hide Apply;
      TrafficOutcome(p, s);
    }
  }

  /** An attempt of an initiator begins at `start`: with its construction, or with the step that reconnects it. */
  ghost predicate Begins(c: Conn, start: int) {
    || (exists fd: int, feedId: uint32, clock: Time ::
          clock == start && c == NewConn(fd, Initiator, feedId, clock))
    || (exists p: Conn, s: Step ::
          p.role == Initiator && s.event.Reconnect? && s.event.now == start && c == Apply(p, s))
  }

  lemma BeginsFresh(c: Conn, start: int)
    requires Begins(c, start)
    ensures c.role == Initiator && c.state == Connecting && c.consecutiveMissed == 0 && c.stateEnteredNs == start
    ensures c.io.handled == []
  {}

  lemma {:induction false} AttemptRun(c: Conn, steps: seq<Step>, timeoutNs: int, delta: int, start: int)
    requires Begins(c, start)
    requires timeoutNs > 0 && 0 <= delta
    requires forall i :: 0 <= i < |steps| ==> AttemptStep(steps[i], timeoutNs)
    requires Prompt(steps, start, delta) && TicksPaced(steps, start, delta)
    ensures WithinAttempt(Run(c, steps), start, LastTick(steps, start), timeoutNs, delta)
    decreases |steps|
  {
    hide Apply;
    hide Begins;
    BeginsFresh(c, start);
    if steps != [] {
      var front, last := steps[..|steps| - 1], steps[|steps| - 1];
      PromptPrefix(steps, start, delta);
      TicksPacedPrefix(steps, start, delta);
      AttemptRun(c, front, timeoutNs, delta, start);
      AttemptLast(Run(c, front), last, start, LastTick(front, start), timeoutNs, delta);
    }
  }

  /** An attempt begun at s, by construction or by a reconnect at s, is out of kConnecting and kHandshaking by
      s + 2(T + delta): no step at or after that time still finds it there. */
  lemma AttemptLimit(c: Conn, steps: seq<Step>, timeoutNs: int, delta: int, start: int)
    requires Begins(c, start)
    requires timeoutNs > 0 && 0 <= delta
    requires forall i :: 0 <= i < |steps| ==> AttemptStep(steps[i], timeoutNs)
    requires Prompt(steps, start, delta) && TicksPaced(steps, start, delta)
    ensures steps != [] && Attempting(Run(c, steps[..|steps| - 1])) ==>
              At(steps[|steps| - 1]) < start + 2 * (timeoutNs + delta)
  {
    hide Apply;
    hide Run;
    hide Begins;
    if steps != [] {
      PromptPrefix(steps, start, delta);
      TicksPacedPrefix(steps, start, delta);
      AttemptRun(c, steps[..|steps| - 1], timeoutNs, delta, start);
    }
  }

  // ---- No premature failure ----

  /** When the last evidence was accepted, and the timeout charged for each miss since. */
  datatype Ledger = Ledger(evidenceAt: int, charges: seq<int>)

  function Sum(s: seq<int>): (r: int)
    decreases |s|
  {
    if s == [] then 0 else Sum(s[..|s| - 1]) + s[|s| - 1]
  }

  lemma SumAppend(s: seq<int>, v: int)
    ensures Sum(s + [v]) == Sum(s) + v
  {
    assert (s + [v])[..|s|] == s;
  }

  predicate GotEvidence(c: Conn, r: Conn) {
    |r.io.accepted| > |c.io.accepted| || (c.state == Handshaking && r.state == Healthy)
  }

  function Account(l: Ledger, c: Conn, s: Step): (r: Ledger) {
    var c' := Apply(c, s);
    if s.event.Reconnect? then Ledger(At(s), [])
    else if s.event.Tick? && c'.consecutiveMissed == c.consecutiveMissed + 1 then
      l.(charges := l.charges + [s.cfg.heartbeatTimeoutNs])
    else if GotEvidence(c, c') then Ledger(At(s), [])
    else l
  }

  function LedgerOf(c: Conn, steps: seq<Step>, start: int): (r: Ledger)
    decreases |steps|
  {
    if steps == [] then Ledger(start, [])
    else
      var front := steps[..|steps| - 1];
      Account(LedgerOf(c, front, start), Run(c, front), steps[|steps| - 1])
  }

  /** The latest time that any step has carried, or `start`. */
  function Latest(steps: seq<Step>, start: int): (r: int)
    decreases |steps|
  {
    if steps == [] then start
    else
      var t, before := At(steps[|steps| - 1]), Latest(steps[..|steps| - 1], start);
      if t >= before then t else before
  }

  /** A new baseline is dated no earlier than anything before it: set_heartbeat_timeout reads a fresh clock. Other
      steps may come in any order of their times. */
  predicate FreshBaselines(steps: seq<Step>, start: int) {
    forall i :: 0 <= i < |steps| && steps[i].event.NewBaseline? ==> Latest(steps[..i], start) <= At(steps[i])
  }

  lemma FreshPrefix(steps: seq<Step>, start: int)
    requires steps != [] && FreshBaselines(steps, start)
    ensures FreshBaselines(steps[..|steps| - 1], start)
    ensures
      var front, last := steps[..|steps| - 1], steps[|steps| - 1];
      && (last.event.NewBaseline? ==> Latest(front, start) <= At(last))
      && Latest(steps, start) >= Latest(front, start) && Latest(steps, start) >= At(last)
  {
    var front := steps[..|steps| - 1];
    forall i | 0 <= i < |front| && front[i].event.NewBaseline?
      ensures Latest(front[..i], start) <= At(front[i])
    {
      assert front[..i] == steps[..i];
    }
  }

  predicate PositiveTimeouts(steps: seq<Step>) {
    forall i :: 0 <= i < |steps| ==> steps[i].cfg.heartbeatTimeoutNs > 0
  }

  predicate Balanced(c: Conn, l: Ledger, latest: int) {
    && c.role == Initiator
    && (c.state != Failed ==> Going(c) && |l.charges| == c.consecutiveMissed)
    && (Live(c) ==> l.evidenceAt + Sum(l.charges) <= c.lastLivenessNs <= latest)
    && (Attempting(c) ==> l.charges == [])
  }

  /** The times of step `s`, dated after `before` where it matters, are covered by `latest`. */
  predicate Covers(s: Step, before: int, latest: int) {
    && before <= latest && At(s) <= latest
    && (s.event.NewBaseline? ==> before <= At(s))
  }

  lemma BalancedTick(p: Conn, l: Ledger, s: Step, before: int, latest: int)
    requires Balanced(p, l, before) && Covers(s, before, latest) && s.cfg.heartbeatTimeoutNs > 0 && s.event.Tick?
    ensures Balanced(Apply(p, s), Account(l, p, s), latest)
  {
    SumAppend(l.charges, s.cfg.heartbeatTimeoutNs);
    hide Sum;
  }

  lemma BalancedReset(p: Conn, l: Ledger, s: Step, before: int, latest: int)
    requires Balanced(p, l, before) && Covers(s, before, latest) && (s.event.Reconnect? || s.event.NewBaseline?)
    ensures Balanced(Apply(p, s), Account(l, p, s), latest)
  {}

  lemma BalancedStep(p: Conn, l: Ledger, s: Step, before: int, latest: int)
    requires Balanced(p, l, before) && Covers(s, before, latest) && s.cfg.heartbeatTimeoutNs > 0
    ensures Balanced(Apply(p, s), Account(l, p, s), latest)
  {
    hide Apply;
    if s.event.Tick? {
      BalancedTick(p, l, s, before, latest);
    } else if s.event.Reconnect? || s.event.NewBaseline? {
      BalancedReset(p, l, s, before, latest);
    } else if p.state == Failed {
      FailedAbsorbing(p, s);
    } else {
      TrafficOutcome(p, s);
    }
  }

  lemma {:induction false} BalancedRun(fd: int, feedId: uint32, clock: Time, steps: seq<Step>)
    requires FreshBaselines(steps, clock) && PositiveTimeouts(steps)
    ensures
      var c := NewConn(fd, Initiator, feedId, clock);
      Balanced(Run(c, steps), LedgerOf(c, steps, clock), Latest(steps, clock))
    decreases |steps|
  {
    hide Apply;
    hide Account;
    hide Balanced;
    var c := NewConn(fd, Initiator, feedId, clock);
    if steps == [] {
      NewBalanced(fd, feedId, clock);
    } else {
      var front, last := steps[..|steps| - 1], steps[|steps| - 1];
      FreshPrefix(steps, clock);
      BalancedRun(fd, feedId, clock, front);
      BalancedStep(Run(c, front), LedgerOf(c, front, clock), last, Latest(front, clock), Latest(steps, clock));
    }
  }

  lemma NewBalanced(fd: int, feedId: uint32, clock: Time)
    ensures Balanced(NewConn(fd, Initiator, feedId, clock), Ledger(clock, []), clock)
  {}

  /** The tick that fails a live initiator charges its own timeout, and only then. */
  lemma FailingTick(p: Conn, l: Ledger, s: Step, before: int)
    requires Balanced(p, l, before) && Live(p) && s.event.Tick? && Apply(p, s).state == Failed
    ensures Account(l, p, s) == l.(charges := l.charges + [s.cfg.heartbeatTimeoutNs])
    ensures p.consecutiveMissed + 1 >= s.cfg.maxMissedHeartbeats
    ensures At(s) - l.evidenceAt >= Sum(l.charges) + s.cfg.heartbeatTimeoutNs
  {}

  /** No premature failure. With positive timeouts, and new baselines dated no earlier than what came before, when
      a tick fails a live initiator it has gone without accepted evidence for at least the sum of the timeouts
      charged for its misses, one per miss, however often the timeout was changed on the way and in whatever
      order ticks and socket events carry their times. */
  lemma NoPrematureFailure(fd: int, feedId: uint32, clock: Time, steps: seq<Step>)
    requires steps != [] && FreshBaselines(steps, clock) && PositiveTimeouts(steps)
    ensures
      var c := NewConn(fd, Initiator, feedId, clock);
      var before := Run(c, steps[..|steps| - 1]);
      var last := steps[|steps| - 1];
      var l := LedgerOf(c, steps, clock);
      Live(before) && last.event.Tick? && Run(c, steps).state == Failed ==>
        && At(last) - l.evidenceAt >= Sum(l.charges)
        && |l.charges| == before.consecutiveMissed + 1 && |l.charges| >= last.cfg.maxMissedHeartbeats
  {
    hide Apply;
    hide Account;
    hide NewConn;
    var front, last := steps[..|steps| - 1], steps[|steps| - 1];
    var c := NewConn(fd, Initiator, feedId, clock);
    FreshPrefix(steps, clock);
    BalancedRun(fd, feedId, clock, front);
    RunStep(c, steps);
    LedgerStep(c, steps, clock);
    hide Run;
    hide LedgerOf;
    var p, l := Run(c, front), LedgerOf(c, front, clock);
    if Live(p) && last.event.Tick? && Run(c, steps).state == Failed {
      FailingTick(p, l, last, Latest(front, clock));
      SumAppend(l.charges, last.cfg.heartbeatTimeoutNs);
    }
  }

  lemma LedgerStep(c: Conn, steps: seq<Step>, start: int)
    requires steps != []
    ensures
      var front := steps[..|steps| - 1];
      LedgerOf(c, steps, start) == Account(LedgerOf(c, front, start), Run(c, front), steps[|steps| - 1])
  {
    hide Account;
    hide Run;
  }

  lemma RunStep(c: Conn, steps: seq<Step>)
    requires steps != []
    ensures Run(c, steps) == Apply(Run(c, steps[..|steps| - 1]), steps[|steps| - 1])
  {
    hide Apply;
  }
}
