/** The monitor as it would be without a vector and without indexes: a map from feed id to slot. An event goes to
    the feed that owns the descriptor, a tick and a command to the feed they name, and no other feed changes. The
    store of MonitorRuns.dfy is proved to follow this machine step by step. Here: what one feed goes through in a
    run of it is a run of its slot. */
module PlainMonitor {
  import opened Heartbeat
  import opened ConnectionModel
  import opened Slots
  import opened SlotStore
  import Pacing

  datatype Op =
    | AddFeed(feedId: uint32, fd: nat, clock: Time)
    | RemoveFeed(feedId: uint32)
    | SocketEvent(on: int, ev: SockEvent, now: Time, a: Answer)
    | TickShare(feedId: uint32, now: Time, a: Answer, fd: nat)
    | Disconnect(feedId: uint32, a: Answer)
    | Reconnect(feedId: uint32)
    | NewTimeout(timeoutNs: int, now: Time)
    | NewInterval(intervalNs: int)

  /** `stuck` holds the feeds that failed by a tick's own PING and have not been served an event since. */
  datatype Plain = Plain(feeds: map<uint32, Slot>, stuck: set<uint32>, cfg: Config)

  predicate Owns(p: Plain, f: uint32, d: int) {
    f in p.feeds && Fd(p.feeds[f]) == d && Watched(p.feeds[f], p.stuck)
  }

  ghost function Owner(p: Plain, d: int): (r: Option<uint32>)
    ensures r.Some? ==> Owns(p, r.value, d)
    ensures r.None? ==> forall f: uint32 :: !Owns(p, f, d)
  {
    if f: uint32 :| Owns(p, f, d) then Some(f) else None
  }

  /** The feed whose slot an operation serves. */
  ghost function Addressee(p: Plain, op: Op): (r: Option<uint32>)
    ensures r.Some? ==> r.value in p.feeds
  {
    match op
    case SocketEvent(d, _, _, _) => Owner(p, d)
    case TickShare(f, _, _, _) => if f in p.feeds then Some(f) else None
    case Disconnect(f, _) => if f in p.feeds then Some(f) else None
    case Reconnect(f) => if f in p.feeds then Some(f) else None
    case _ => None
  }

  /** What the operation is to the slot it serves. */
  function AsEvent(op: Op): (r: SlotEvent) {
    match op
    case SocketEvent(_, ev, now, a) => Sock(ev, now, a)
    case TickShare(_, now, a, fd) => TimerTick(now, a, fd)
    case Disconnect(_, a) => ForceDisconnect(a)
    case NewTimeout(_, now) => Baseline(now)
    case _ => ForceReconnect
  }

  function StuckAfter(p: Plain, f: uint32, op: Op): (r: set<uint32>)
    requires f in p.feeds
  {
    match op
    case SocketEvent(_, _, _, _) => p.stuck - {f}
    case TickShare(_, now, a, _) => if PingFails(p.feeds[f], p.cfg, now, a) then p.stuck + {f} else p.stuck
    case _ => p.stuck
  }

  function Served(p: Plain, f: uint32, op: Op): (r: Plain)
    requires ConfigOk(p.cfg) && f in p.feeds
  {
    p.(feeds := p.feeds[f := SlotStep(p.feeds[f], p.cfg, AsEvent(op))], stuck := StuckAfter(p, f, op))
  }

  function AllBaselined(feeds: map<uint32, Slot>, now: Time): (r: map<uint32, Slot>) {
    map f | f in feeds :: BaselineSlot(feeds[f], now)
  }

  ghost function PlainDo(p: Plain, op: Op): (r: Plain)
    requires ConfigOk(p.cfg)
    ensures ConfigOk(r.cfg) && r.cfg.maxReconnectAttempts == p.cfg.maxReconnectAttempts
  {
    match op
    case AddFeed(f, fd, clock) => if f in p.feeds then p else p.(feeds := p.feeds[f := NewSlot(fd, f, clock)])
    case RemoveFeed(f) => p.(feeds := p.feeds - {f}, stuck := p.stuck - {f})
    case NewTimeout(t, now) =>
      p.(feeds := AllBaselined(p.feeds, now), cfg := p.cfg.(heartbeatTimeoutNs := t))
    case NewInterval(v) => p.(cfg := p.cfg.(heartbeatIntervalNs := v))
    case _ =>
      var f := Addressee(p, op);
      if f.None? then p else Served(p, f.value, op)
  }

  ghost function PlainRun(p: Plain, ops: seq<Op>): (r: Plain)
    requires ConfigOk(p.cfg)
    ensures ConfigOk(r.cfg) && r.cfg.maxReconnectAttempts == p.cfg.maxReconnectAttempts
    decreases |ops|
  {
    if ops == [] then p else PlainDo(PlainRun(p, ops[..|ops| - 1]), ops[|ops| - 1])
  }

  function Empty(cfg: Config): (r: Plain) {
    Plain(map[], {}, cfg)
  }

  // ---- The life of one feed ----

  /** How a feed was added, and what it went through since. */
  datatype Biography = Biography(fd: nat, clock: Time, turns: seq<Turn>)

  function Lived(b: Biography, cfg: Config, e: SlotEvent): (r: Biography) {
    b.(turns := b.turns + [Turn(cfg, e)])
  }

  /** The biography of `f` after one more operation. */
  ghost function LifeAfter(p: Plain, life: Option<Biography>, f: uint32, op: Op): (r: Option<Biography>)
    requires ConfigOk(p.cfg)
  {
    match op
    case AddFeed(g, fd, clock) => if g == f && f !in p.feeds then Some(Biography(fd, clock, [])) else life
    case RemoveFeed(g) => if g == f then None else life
    case NewInterval(_) => life
    case _ =>
      if life.Some? && (op.NewTimeout? || Addressee(p, op) == Some(f)) then Some(Lived(life.value, p.cfg, AsEvent(op)))
      else life
  }

  ghost function Life(p: Plain, ops: seq<Op>, f: uint32): (r: Option<Biography>)
    requires ConfigOk(p.cfg)
    decreases |ops|
  {
    if ops == [] then None
    else
      var front := ops[..|ops| - 1];
      LifeAfter(PlainRun(p, front), Life(p, front, f), f, ops[|ops| - 1])
  }

  /** The slot is what its biography made of it. */
  predicate Explains(life: Option<Biography>, feeds: map<uint32, Slot>, f: uint32, m: int) {
    && (f in feeds <==> life.Some?)
    && (life.Some? ==>
          && Turns(life.value.turns, m)
          && feeds[f] == SlotRun(NewSlot(life.value.fd, f, life.value.clock), m, life.value.turns))
  }

  lemma OneMoreTurn(s: Slot, m: int, turns: seq<Turn>, t: Turn)
    requires Turns(turns, m) && ConfigOk(t.cfg) && t.cfg.maxReconnectAttempts == m
    ensures Turns(turns + [t], m)
    ensures SlotRun(s, m, turns + [t]) == SlotStep(SlotRun(s, m, turns), t.cfg, t.event)
  {
    hide SlotStep;
    assert (turns + [t])[..|turns|] == turns;
  }

  lemma ExplainsStep(p: Plain, life: Option<Biography>, f: uint32, op: Op)
    requires ConfigOk(p.cfg) && Explains(life, p.feeds, f, p.cfg.maxReconnectAttempts)
    ensures Explains(LifeAfter(p, life, f, op), PlainDo(p, op).feeds, f, p.cfg.maxReconnectAttempts)
  {
    hide SlotRun;
    hide NewSlot;
    hide PingFails;
    hide BaselineSlot;
    hide ForceDisconnectSlot;
    hide ForceReconnectSlot;
    hide EventSlot;
    hide TickSlot;
    hide Turns;
    var m := p.cfg.maxReconnectAttempts;
    if op.AddFeed? {
      NewLife(op.fd, f, op.clock, m);
    }
    if life.Some? {
      var b := life.value;
      OneMoreTurn(NewSlot(b.fd, f, b.clock), m, b.turns, Turn(p.cfg, AsEvent(op)));
    }
  }

  lemma NewLife(fd: nat, f: uint32, clock: Time, m: int)
    ensures Turns([], m) && SlotRun(NewSlot(fd, f, clock), m, []) == NewSlot(fd, f, clock)
  {}

  /** What one feed goes through in a run of the monitor is a run of its slot: its own events, ticks and commands
      and the timeout changes, each under the configuration of its time, and nothing of any other feed. */
  lemma {:induction false} LifeIsSlotRun(cfg: Config, ops: seq<Op>, f: uint32)
    requires ConfigOk(cfg)
    ensures Explains(Life(Empty(cfg), ops, f), PlainRun(Empty(cfg), ops).feeds, f, cfg.maxReconnectAttempts)
    decreases |ops|
  {
    hide PlainDo;
    hide LifeAfter;
    if ops != [] {
      var front := ops[..|ops| - 1];
      LifeIsSlotRun(cfg, front, f);
      ExplainsStep(PlainRun(Empty(cfg), front), Life(Empty(cfg), front, f), f, ops[|ops| - 1]);
    }
  }

  /** An operation leaves the slots of all feeds but one alone. */
  lemma OthersUntouched(p: Plain, op: Op, g: uint32)
    requires ConfigOk(p.cfg) && g in p.feeds && !op.NewTimeout?
    requires !(op.RemoveFeed? && op.feedId == g) && Addressee(p, op) != Some(g)
    ensures g in PlainDo(p, op).feeds && PlainDo(p, op).feeds[g] == p.feeds[g]
    ensures g in PlainDo(p, op).stuck <==> g in p.stuck
  {
    hide SlotStep;
    hide PingFails;
  }

  // ---- The retry budget and the pacing of every feed ----

  /** `RetryBudget` and `PingsPaced` hold of every feed of every run. */
  ghost predicate WellPaced(s: Slot, f: uint32, b: Biography, m: int)
    requires Turns(b.turns, m)
  {
    var k := Effective(NewSlot(b.fd, f, b.clock), m, b.turns);
    && (m >= 0 ==> s.conn.stats.reconnects <= (k + 1) * m + k)
    && (Pending(s) || s.giveUp ==> s.conn.state == Failed)
    && s.conn.stats.heartbeatsSent == |Pacing.PingTicks(NewSlot(b.fd, f, b.clock), m, b.turns)|
    && Pacing.Spaced(Pacing.PingTicks(NewSlot(b.fd, f, b.clock), m, b.turns))
  }

  lemma EveryFeedPaced(cfg: Config, ops: seq<Op>, f: uint32)
    requires ConfigOk(cfg) && f in PlainRun(Empty(cfg), ops).feeds
    ensures
      var life := Life(Empty(cfg), ops, f);
      && life.Some? && Turns(life.value.turns, cfg.maxReconnectAttempts)
      && WellPaced(PlainRun(Empty(cfg), ops).feeds[f], f, life.value, cfg.maxReconnectAttempts)
  {
    hide PlainRun;
    hide Life;
    hide SlotRun;
    hide Effective;
    hide NewSlot;
    hide Pacing.PingTicks;
    hide Pacing.Spaced;
    hide Turns;
    LifeIsSlotRun(cfg, ops, f);
    var b := Life(Empty(cfg), ops, f).value;
    RetryBudget(b.fd, f, b.clock, cfg.maxReconnectAttempts, b.turns);
    Pacing.PingsPaced(b.fd, f, b.clock, cfg.maxReconnectAttempts, b.turns);
  }
}
