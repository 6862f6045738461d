/** What is stored for each feed. The slot that the vector holds for a feed is a run of that slot alone, and its
    connection a run of connection steps; so everything proved of every run of a slot or of a connection holds of
    every feed, along every guarded run of the monitor. */
module StoredFeeds {
  import opened Heartbeat
  import opened ConnectionModel
  import CR = ConnectionRuns
  import opened Detection
  import opened Reassembly
  import opened Slots
  import opened SlotStore
  import opened PlainMonitor
  import opened SlotHistory
  import Integration
  import FeedMonitorClass
  import Stats
  import MR = MonitorRuns

  // ---- Soundness, budget and pacing of every feed ----

  /** The configured timeouts stay positive and under the ceiling. */
  predicate TimeoutsIn(ops: seq<Op>, lim: CR.Limits) {
    forall i :: 0 <= i < |ops| && ops[i].NewTimeout? ==> 0 < ops[i].timeoutNs <= lim.timeoutNs
  }

  predicate TurnsIn(turns: seq<Turn>, lim: CR.Limits) {
    forall i :: 0 <= i < |turns| ==> CR.ConfigOk(turns[i].cfg, lim)
  }

  lemma OpConfig(p: Plain, life: Option<Biography>, f: uint32, op: Op, lim: CR.Limits)
    requires ConfigOk(p.cfg) && CR.ConfigOk(p.cfg, lim) && (op.NewTimeout? ==> 0 < op.timeoutNs <= lim.timeoutNs)
    requires life.Some? ==> TurnsIn(life.value.turns, lim)
    ensures CR.ConfigOk(PlainDo(p, op).cfg, lim)
    ensures LifeAfter(p, life, f, op).Some? ==> TurnsIn(LifeAfter(p, life, f, op).value.turns, lim)
  {
    hide SlotStep;
    hide Addressee;
    hide PingFails;
  }

  lemma {:induction false} LifeConfigs(cfg: Config, ops: seq<Op>, f: uint32, lim: CR.Limits)
    requires ConfigOk(cfg) && CR.ConfigOk(cfg, lim) && TimeoutsIn(ops, lim)
    ensures CR.ConfigOk(PlainRun(Empty(cfg), ops).cfg, lim)
    ensures
      var life := Life(Empty(cfg), ops, f);
      life.Some? ==> TurnsIn(life.value.turns, lim)
    decreases |ops|
  {
    hide PlainDo;
    hide LifeAfter;
    hide CR.ConfigOk;
    if ops != [] {
      var front, op := ops[..|ops| - 1], ops[|ops| - 1];
      LifeConfigs(cfg, front, f, lim);
      OpConfig(PlainRun(Empty(cfg), front), Life(Empty(cfg), front, f), f, op, lim);
    }
  }

  lemma EveryFeedSound(cfg: Config, ops: seq<Op>, f: uint32, lim: CR.Limits)
    requires ConfigOk(cfg) && CR.ConfigOk(cfg, lim) && TimeoutsIn(ops, lim) && lim.timeoutNs <= Stats.MAX_INT64
    ensures f in PlainRun(Empty(cfg), ops).feeds ==> CR.Sound(PlainRun(Empty(cfg), ops).feeds[f].conn, lim)
  {
    hide CR.Sound;
    hide CR.ConfigOk;
    hide PlainRun;
    hide Life;
    hide SlotRun;
    hide NewSlot;
    hide Turns;
    LifeIsSlotRun(cfg, ops, f);
    LifeConfigs(cfg, ops, f, lim);
    if f in PlainRun(Empty(cfg), ops).feeds {
      var b := Life(Empty(cfg), ops, f).value;
      Integration.SlotRunSound(b.fd, f, b.clock, cfg.maxReconnectAttempts, b.turns, lim);
    }
  }

  /** Along every guarded run of the vector with its indexes, the slot stored for each feed has a sound connection,
      has kept its retry budget, and has pinged on schedule; its biography is the part of the run that concerned it. */
  lemma EveryStoredFeedSound(states: seq<MR.Monitor>, ops: seq<Op>, n: nat, f: uint32, lim: CR.Limits)
    requires MR.IsGuardedRun(states, ops) && n < |states|
    requires states[0].st == MR.EMPTY_STORE && ConfigOk(states[0].cfg)
    requires CR.ConfigOk(states[0].cfg, lim) && TimeoutsIn(ops, lim) && lim.timeoutNs <= Stats.MAX_INT64
    ensures IdsOk(states[n].st.slots, states[n].st.byFeed)
    ensures f in Feeds(states[n].st) ==>
              var s := Feeds(states[n].st)[f];
              var life := Life(Empty(states[0].cfg), ops[..n], f);
              && CR.Sound(s.conn, lim)
              && life.Some? && Turns(life.value.turns, states[0].cfg.maxReconnectAttempts)
              && WellPaced(s, f, life.value, states[0].cfg.maxReconnectAttempts)
  {
    hide CR.Sound;
    hide CR.ConfigOk;
    hide PlainRun;
    hide Life;
    hide WellPaced;
    hide Turns;
    hide Feeds;
    hide IdsOk;
    MR.RunRefines(states, ops, n);
    hide MR.IsGuardedRun;
    EveryFeedSound(states[0].cfg, ops[..n], f, lim);
    if f in Feeds(states[n].st) {
      EveryFeedPaced(states[0].cfg, ops[..n], f);
    }
  }

  // ---- The slot stored for a feed ----

  /** A guarded run from an empty monitor. */
  predicate FromEmpty(states: seq<MR.Monitor>, ops: seq<Op>) {
    MR.IsGuardedRun(states, ops) && states[0].st == MR.EMPTY_STORE && ConfigOk(states[0].cfg)
  }

  /** After `n` operations, the vector holds `s` for `f`, whose biography is `b`. */
  ghost predicate Stores(states: seq<MR.Monitor>, ops: seq<Op>, n: nat, f: uint32, s: Slot, b: Biography)
    requires FromEmpty(states, ops) && n < |states|
  {
    && IdsOk(states[n].st.slots, states[n].st.byFeed)
    && f in Feeds(states[n].st) && Feeds(states[n].st)[f] == s
    && Life(Empty(states[0].cfg), ops[..n], f) == Some(b)
  }

  /** The slot stored is what its biography made of it, and its accounting is right. */
  lemma StoredIsRun(states: seq<MR.Monitor>, ops: seq<Op>, n: nat, f: uint32, s: Slot, b: Biography)
    requires FromEmpty(states, ops) && n < |states| && Stores(states, ops, n, f, s, b)
    ensures Turns(b.turns, states[0].cfg.maxReconnectAttempts)
    ensures s == SlotRun(NewSlot(b.fd, f, b.clock), states[0].cfg.maxReconnectAttempts, b.turns)
    ensures SlotOk(s, f in states[n].st.stuck, states[n].cfg)
  {
    hide MR.Do;
    hide MR.Guarded;
    hide MR.Possible;
    hide PlainRun;
    hide Life;
    hide SlotRun;
    hide NewSlot;
    hide Turns;
    hide SlotOk;
    hide Feeds;
    MR.RunRefines(states, ops, n);
    LifeIsSlotRun(states[0].cfg, ops[..n], f);
    StoredSlotOk(states[n], f);
  }

  lemma StoredSlotOk(m: MR.Monitor, f: uint32)
    requires Indexed(m.st, m.cfg) && IdsOk(m.st.slots, m.st.byFeed) && f in Feeds(m.st)
    ensures SlotOk(Feeds(m.st)[f], f in m.st.stuck, m.cfg)
  {
    hide Indexed;
    hide SlotOk;
    hide Feeds;
    FeedMonitorClass.FeedKeys(m.st);
    FeedMonitorClass.FeedIndex(m.st, m.cfg, f);
    FeedMonitorClass.SlotAt(m.st, m.cfg, m.st.byFeed[f]);
  }

  // ---- Detection, with one alert ----

  /** Silence of a stored feed. It was Healthy after `j` operations and has lived `more` since, with no evidence and
      with ticks at most delta <= T apart: then by `n` its connection has failed exactly if a tick at or after R + M*T
      has come, and that one failure has been alerted exactly once. */
  lemma EveryStoredFeedDetected(states: seq<MR.Monitor>, ops: seq<Op>, j: nat, n: nat, f: uint32,
                                before: Slot, after: Slot, b: Biography, more: seq<Turn>,
                                timeoutNs: int, maxMissed: int, delta: int, t0: int)
    requires FromEmpty(states, ops) && j <= n < |states| && Turns(more, states[0].cfg.maxReconnectAttempts)
    requires Stores(states, ops, j, f, before, b) && Stores(states, ops, n, f, after, b.(turns := b.turns + more))
    requires before.conn.state == Healthy && before.conn.consecutiveMissed == 0
    requires timeoutNs > 0 && maxMissed >= 1 && 0 <= delta <= timeoutNs
    requires before.conn.lastLivenessNs <= t0 < before.conn.lastLivenessNs + timeoutNs
    requires Quiet(before.conn, History(before, states[0].cfg.maxReconnectAttempts, more), timeoutNs, maxMissed)
    requires TicksPaced(History(before, states[0].cfg.maxReconnectAttempts, more), t0, delta)
    ensures
      var steps := History(before, states[0].cfg.maxReconnectAttempts, more);
      && (after.conn.state == Failed <==>
            LastTick(steps, t0) >= before.conn.lastLivenessNs + maxMissed * timeoutNs)
      && after.alerts == before.alerts + (if after.conn.state == Failed then 1 else 0)
      && f !in states[n].st.stuck
  {
    hide FromEmpty;
    hide Stores;
    hide SlotRun;
    hide NewSlot;
    hide History;
    hide Quiet;
    hide TicksPaced;
    hide LastTick;
    hide WithinBudget;
    var m := states[0].cfg.maxReconnectAttempts;
    StoredIsRun(states, ops, j, f, before, b);
    StoredIsRun(states, ops, n, f, after, b.(turns := b.turns + more));
    RunSplit(NewSlot(b.fd, f, b.clock), m, b.turns, more);
    SlotDetects(before, m, more, timeoutNs, maxMissed, delta, t0);
  }

  // ---- No premature failure, and stream reassembly ----

  /** A stored feed that is up has handled exactly the frames of the bytes received in its current attempt. */
  lemma EveryStoredFeedReassembles(states: seq<MR.Monitor>, ops: seq<Op>, n: nat, f: uint32, s: Slot, b: Biography)
    requires FromEmpty(states, ops) && n < |states| && Stores(states, ops, n, f, s, b)
    ensures Turns(b.turns, states[0].cfg.maxReconnectAttempts)
    ensures s.conn.state != Failed ==>
              InStep(s.conn, StreamOf(History(NewSlot(b.fd, f, b.clock), states[0].cfg.maxReconnectAttempts, b.turns)))
  {
    hide FromEmpty;
    hide Stores;
    hide SlotRun;
    hide NewSlot;
    hide History;
    hide InStep;
    hide Turns;
    StoredIsRun(states, ops, n, f, s, b);
    SlotReassembles(b.fd, f, b.clock, states[0].cfg.maxReconnectAttempts, b.turns);
  }

  /** A stored feed that its latest turn, a tick, has failed by misses had been without evidence for at least the sum of
      the timeouts charged for them. */
  lemma EveryStoredFeedNotPremature(states: seq<MR.Monitor>, ops: seq<Op>, n: nat, f: uint32, s: Slot, b: Biography)
    requires FromEmpty(states, ops) && n < |states| && Stores(states, ops, n, f, s, b)
    requires b.turns != [] && b.turns[|b.turns| - 1].event.TimerTick?
    requires forall i :: 0 <= i < |b.turns| ==> b.turns[i].cfg.heartbeatTimeoutNs > 0
    requires Turns(b.turns, states[0].cfg.maxReconnectAttempts)
    requires FreshBaselines(History(NewSlot(b.fd, f, b.clock), states[0].cfg.maxReconnectAttempts, b.turns), b.clock)
    ensures
      var s0, m := NewSlot(b.fd, f, b.clock), states[0].cfg.maxReconnectAttempts;
      var before, last := SlotRun(s0, m, b.turns[..|b.turns| - 1]), b.turns[|b.turns| - 1];
      var l := LedgerOf(s0.conn, History(s0, m, b.turns), b.clock);
      IsLive(before.conn) && s.conn.state == Failed && !PingFails(before, last.cfg, last.event.now, last.event.a) ==>
        && last.event.now - l.evidenceAt >= Sum(l.charges)
        && |l.charges| == before.conn.consecutiveMissed + 1 && |l.charges| >= last.cfg.maxMissedHeartbeats
  {
    hide FromEmpty;
    hide Stores;
    hide SlotRun;
    hide NewSlot;
    hide History;
    hide LedgerOf;
    hide FreshBaselines;
    hide PingFails;
    StoredIsRun(states, ops, n, f, s, b);
    SlotNotPremature(b.fd, f, b.clock, states[0].cfg.maxReconnectAttempts, b.turns);
  }
}
