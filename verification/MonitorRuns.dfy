/** Every run of the monitor, as a system of steps on its storage: for any interleaving of socket events, operator
    commands, configuration changes and each feed's share of the timer ticks, the vector with its indexes follows
    the plain machine of PlainMonitor.dfy step by step. A step is guarded when it neither moves a feed with an
    unhandled failure into a hole nor reconnects one by hand; `RemoveExactly` and `ReconnectThenTick` say what
    other steps break. A run is clean when no PING sent by a tick fails its own connection. Then every step is
    guarded, and the fd index is as documented; `DocumentedIndex` and `PingCanFail` say exactly what a tick that is
    not clean breaks, and that such ticks exist. */
module MonitorRuns {
  import opened Heartbeat
  import opened ConnectionModel
  import opened Slots
  import opened SlotStore
  import opened FeedMonitorClass
  import opened PlainMonitor

  datatype Monitor = Monitor(st: Store, cfg: Config)

  /** The descriptors the kernel hands out are not open, and the caller keeps the reconnect cap in range. */
  predicate Possible(m: Monitor, op: Op) {
    && ConfigOk(m.cfg)
    && (op.AddFeed? || op.TickShare? ==> op.fd !in m.st.open)
  }

  /** The slot an operation addresses, when there is one. */
  function Target(m: Monitor, op: Op): (r: Option<nat>) {
    match op
    case SocketEvent(fd, _, _, _) => if fd in m.st.byFd then Some(m.st.byFd[fd]) else None
    case TickShare(f, _, _, _) => At(m, f)
    case RemoveFeed(f) => At(m, f)
    case Disconnect(f, _) => At(m, f)
    case Reconnect(f) => At(m, f)
    case _ => None
  }

  function At(m: Monitor, f: uint32): (r: Option<nat>) {
    if f in m.st.byFeed then Some(m.st.byFeed[f]) else None
  }

  /** The operation stays clear of unhandled failures where those do damage. */
  predicate Guarded(m: Monitor, op: Op) {
    && (op.RemoveFeed? && op.feedId in m.st.byFeed && m.st.byFeed[op.feedId] < |m.st.slots| ==>
          !MovesStuck(m.st, m.st.byFeed[op.feedId]))
    && (op.Reconnect? ==> op.feedId !in m.st.stuck)
  }

  /** The tick does not fail a connection by its own PING. */
  predicate Clean(m: Monitor, op: Op) {
    op.TickShare? && op.feedId in m.st.byFeed && m.st.byFeed[op.feedId] < |m.st.slots| ==>
      !PingFails(m.st.slots[m.st.byFeed[op.feedId]], m.cfg, op.now, op.a)
  }

  /** One slot's share of a tick. */
  function TickAt(st: Store, cfg: Config, i: nat, now: Time, a: Answer, fd: int): (r: Store)
    requires ConfigOk(cfg) && i < |st.slots|
  {
    var state := st.slots[i].conn.state;
    if IsLive(st.slots[i].conn) then TickLiveAt(st, cfg, i, now, a)
    else if state == Connecting || state == Handshaking then TickAttemptAt(st, cfg, i, now, a)
    else if ReconnectDue(st.slots[i], now) then ConnectAt(st, cfg, i, now, a, fd)
    else st
  }

  function Append(st: Store, s: Slot): (r: Store) {
    var n := |st.slots|;
    Store(st.slots + [s], st.byFd[Fd(s) := n], st.byFeed[Id(s) := n], st.open + {Fd(s)},
          st.interest[Fd(s) := WantsWrite(s.conn)], st.stuck)
  }

  function Baselined(slots: seq<Slot>, now: Time): (r: seq<Slot>)
    ensures |r| == |slots| && forall j :: 0 <= j < |slots| ==> r[j] == BaselineSlot(slots[j], now)
  {
    seq(|slots|, j requires 0 <= j < |slots| => BaselineSlot(slots[j], now))
  }

  function DoAt(m: Monitor, op: Op, i: nat): (r: Store)
    requires ConfigOk(m.cfg) && i < |m.st.slots|
  {
    match op
    case RemoveFeed(_) => Removed(m.st, i)
    case SocketEvent(_, ev, now, a) => EventAt(m.st, m.cfg, i, ev, now, a)
    case TickShare(_, now, a, fd) => TickAt(m.st, m.cfg, i, now, a, fd)
    case Disconnect(_, a) =>
      if m.st.slots[i].conn.state == Failed then m.st
      else FailAt(m.st, i, ForceDisconnectSlot(m.st.slots[i], m.cfg, a))
    case Reconnect(_) => m.st.(slots := m.st.slots[i := ForceReconnectSlot(m.st.slots[i])])
    case _ => m.st
  }

  function Do(m: Monitor, op: Op): (r: Monitor)
    requires ConfigOk(m.cfg)
  {
    match op
    case AddFeed(f, fd, clock) =>
      if f in m.st.byFeed then m else m.(st := Append(m.st, NewSlot(fd, f, clock)))
    case NewTimeout(t, now) =>
      Monitor(m.st.(slots := Baselined(m.st.slots, now)), m.cfg.(heartbeatTimeoutNs := t))
    case NewInterval(v) => m.(cfg := m.cfg.(heartbeatIntervalNs := v))
    case _ =>
      var i := Target(m, op);
      if i.None? || i.value >= |m.st.slots| then m else m.(st := DoAt(m, op, i.value))
  }

  /** The plain machine's state that a monitor stands for. */
  function Abs(m: Monitor): (r: Plain)
    requires IdsOk(m.st.slots, m.st.byFeed)
  {
    Plain(Feeds(m.st), m.st.stuck, m.cfg)
  }

  // ---- One slot's share of a tick ----

  lemma SameTick(s: Slot, cfg: Config, now: Time, a: Answer, fd: int)
    requires ConfigOk(cfg) && s.conn.state != Failed
    ensures TickSlot(s, cfg, now, a, fd) == TickSlot(s, cfg, now, a, Fd(s))
  {
    hide PingSlot;
    hide CheckSlot;
  }

  /** Served or not, a share of a tick updates one key of the plain map, and makes stuck exactly the feed that its
      own PING failed. */
  lemma TickStep(st: Store, cfg: Config, i: nat, now: Time, a: Answer, fd: nat)
    requires Indexed(st, cfg) && i < |st.slots| && fd !in st.open
    ensures ConfigOk(cfg) && IdsOk(st.slots, st.byFeed)
    ensures
      var r := TickAt(st, cfg, i, now, a, fd);
      var f := Id(st.slots[i]);
      && Indexed(r, cfg) && IdsOk(r.slots, r.byFeed)
      && Feeds(r) == Feeds(st)[f := TickSlot(st.slots[i], cfg, now, a, fd)]
      && r.stuck == (if PingFails(st.slots[i], cfg, now, a) then st.stuck + {f} else st.stuck)
  {
    hide Indexed;
    hide TickAt;
    hide IdsOk;
    hide Feeds;
    hide TickSlot;
    hide PingFails;
    hide Id;
    IdsKnown(st, cfg);
    TickShape(st, cfg, i, now, a, fd);
    var r := TickAt(st, cfg, i, now, a, fd);
    ReplaceIds(st, i, r.slots[i]);
    IdsKnown(r, cfg);
    FeedsSame(r, st.(slots := st.slots[i := r.slots[i]]));
  }

  lemma TickShape(st: Store, cfg: Config, i: nat, now: Time, a: Answer, fd: nat)
    requires Indexed(st, cfg) && i < |st.slots| && fd !in st.open
    ensures ConfigOk(cfg)
    ensures
      var r := TickAt(st, cfg, i, now, a, fd);
      && Indexed(r, cfg) && r.byFeed == st.byFeed
      && |r.slots| == |st.slots| && r.slots == st.slots[i := r.slots[i]]
      && r.slots[i] == TickSlot(st.slots[i], cfg, now, a, fd) && Id(r.slots[i]) == Id(st.slots[i])
      && r.stuck == (if PingFails(st.slots[i], cfg, now, a) then st.stuck + {Id(st.slots[i])} else st.stuck)
  {
    hide Indexed;
    hide TickSlot;
    hide PingFails;
    hide CheckSlot;
    hide ConnectSlot;
    hide SlotOk;
    IdsKnown(st, cfg);
    var s := st.slots[i];
    TickBranches(s, cfg, now, a, fd);
    if IsLive(s.conn) {
      TickLiveStep(st, cfg, i, now, a);
      SameTick(s, cfg, now, a, fd);
    } else if s.conn.state == Connecting || s.conn.state == Handshaking {
      TickAttemptStep(st, cfg, i, now, a);
    } else if ReconnectDue(s, now) {
      ConnectStep(st, cfg, i, now, a, fd);
    }
  }

  /** The branches of a tick other than a live slot's. */
  lemma TickBranches(s: Slot, cfg: Config, now: Time, a: Answer, fd: int)
    requires ConfigOk(cfg)
    ensures !IsLive(s.conn) ==>
              && !PingFails(s, cfg, now, a)
              && TickSlot(s, cfg, now, a, fd) ==
                 (if s.conn.state == Connecting || s.conn.state == Handshaking then CheckSlot(s, cfg, now, a)
                  else if ReconnectDue(s, now) then ConnectSlot(s, cfg, now, a, fd)
                  else s)
  {
    hide CheckSlot;
    hide ConnectSlot;
    hide PingSlot;
  }

  lemma AppendStep(st: Store, cfg: Config, f: uint32, fd: nat, clock: Time)
    requires Indexed(st, cfg) && f !in st.byFeed && fd !in st.open
    ensures
      var r := Append(st, NewSlot(fd, f, clock));
      && Indexed(r, cfg) && IdsOk(st.slots, st.byFeed) && IdsOk(r.slots, r.byFeed)
      && Feeds(r) == Feeds(st)[f := NewSlot(fd, f, clock)] && r.stuck == st.stuck
  {
    hide Indexed;
    IdsKnown(st, cfg);
    NewSlotOk(fd, f, clock, cfg);
    hide SlotOk;
    Pushed(st, cfg, NewSlot(fd, f, clock));
    IdsKnown(Append(st, NewSlot(fd, f, clock)), cfg);
  }

  // ---- Addressing ----

  /** The fd index finds exactly the feed that owns the descriptor. */
  lemma OwnerIndexed(m: Monitor, d: int)
    requires Indexed(m.st, m.cfg)
    ensures IdsOk(m.st.slots, m.st.byFeed)
    ensures
      if d in m.st.byFd then
        && m.st.byFd[d] < |m.st.slots| && Watched(m.st.slots[m.st.byFd[d]], m.st.stuck)
        && Owner(Abs(m), d) == Some(Id(m.st.slots[m.st.byFd[d]]))
      else Owner(Abs(m), d) == None
  {
    hide SlotOk;
    hide WantsWrite;
    hide Watched;
    var p := Abs(m);
    forall f: uint32 | Owns(p, f, d)
      ensures d in m.st.byFd && m.st.byFd[d] < |m.st.slots| && f == Id(m.st.slots[m.st.byFd[d]])
    {
      var j := m.st.byFeed[f];
      assert Watched(m.st.slots[j], m.st.stuck) && Fd(m.st.slots[j]) == d;
    }
    if d in m.st.byFd {
      var s := m.st.slots[m.st.byFd[d]];
      assert Owns(p, Id(s), d);
    }
  }

  /** Operations reach the slot of the feed they address. */
  lemma TargetIsAddressee(m: Monitor, op: Op)
    requires Indexed(m.st, m.cfg)
    ensures IdsOk(m.st.slots, m.st.byFeed)
    ensures
      match Target(m, op)
      case None => Addressee(Abs(m), op).None? && (op.RemoveFeed? ==> op.feedId !in Feeds(m.st))
      case Some(i) =>
        && i < |m.st.slots|
        && (op.RemoveFeed? ==> op.feedId == Id(m.st.slots[i]))
        && (!op.RemoveFeed? ==> Addressee(Abs(m), op) == Some(Id(m.st.slots[i])))
        && (op.SocketEvent? ==> Watched(m.st.slots[i], m.st.stuck))
  {
    hide Indexed;
    hide Owner;
    hide Watched;
    IdsKnown(m.st, m.cfg);
    if op.SocketEvent? {
      OwnerIndexed(m, op.on);
    } else if !op.AddFeed? && !op.NewTimeout? && !op.NewInterval? {
      if op.feedId in m.st.byFeed {
        FeedIndex(m.st, m.cfg, op.feedId);
      }
    }
  }

  // ---- Every guarded step refines a plain step ----

  /** What a refined step leaves behind. */
  predicate Follows(m: Monitor, p: Plain) {
    Indexed(m.st, m.cfg) && IdsOk(m.st.slots, m.st.byFeed) && Abs(m) == p
  }

  lemma MakeFollow(st: Store, cfg: Config, p: Plain)
    requires Indexed(st, cfg) && IdsOk(st.slots, st.byFeed)
    requires p.feeds == Feeds(st) && p.stuck == st.stuck && p.cfg == cfg
    ensures Follows(Monitor(st, cfg), p)
  {
    hide Indexed;
    hide IdsOk;
    hide Feeds;
  }

  lemma ServeRefines(m: Monitor, op: Op, i: nat)
    requires Indexed(m.st, m.cfg) && Possible(m, op) && Guarded(m, op) && Target(m, op) == Some(i) && !op.RemoveFeed?
    ensures i < |m.st.slots| && IdsOk(m.st.slots, m.st.byFeed) && Id(m.st.slots[i]) in Feeds(m.st)
    ensures Follows(m.(st := DoAt(m, op, i)), Served(Abs(m), Id(m.st.slots[i]), op))
  {
    hide Indexed;
    hide IdsOk;
    hide Feeds;
    hide Owner;
    hide Watched;
    hide TickAt;
    hide EventAt;
    hide EventSlot;
    hide TickSlot;
    hide PingFails;
    hide FailAt;
    hide Follows;
    hide ForceReconnectSlot;
    TargetIsAddressee(m, op);
    SlotAt(m.st, m.cfg, i);
    hide Id;
    hide SlotOk;
    var s, st, cfg := m.st.slots[i], m.st, m.cfg;
    var p := Served(Abs(m), Id(s), op);
    match op {
      case SocketEvent(_, ev, now, a) =>
        EventStep(st, cfg, i, ev, now, a);
        IdsKnown(EventAt(st, cfg, i, ev, now, a), cfg);
        MakeFollow(EventAt(st, cfg, i, ev, now, a), cfg, p);
      case TickShare(_, now, a, fd) =>
        TickStep(st, cfg, i, now, a, fd);
        MakeFollow(TickAt(st, cfg, i, now, a, fd), cfg, p);
      case Disconnect(_, a) =>
        if s.conn.state != Failed {
          DisconnectStep(st, cfg, i, a);
          var r := FailAt(st, i, ForceDisconnectSlot(s, cfg, a));
          IdsKnown(r, cfg);
          MakeFollow(r, cfg, p);
        } else {
          MakeFollow(st, cfg, p);
        }
      case Reconnect(f) =>
        ReconnectStep(st, cfg, i);
        MakeFollow(st.(slots := st.slots[i := ForceReconnectSlot(s)]), cfg, p);
      case _ =>
    }
  }

  lemma RemoveRefines(m: Monitor, op: Op)
    requires Indexed(m.st, m.cfg) && ConfigOk(m.cfg) && Guarded(m, op) && op.RemoveFeed?
    ensures IdsOk(m.st.slots, m.st.byFeed) && Follows(Do(m, op), PlainDo(Abs(m), op))
  {
    hide Indexed;
    hide IdsOk;
    hide Feeds;
    hide Removed;
    hide Follows;
    TargetIsAddressee(m, op);
    hide Id;
    var p := PlainDo(Abs(m), op);
    if Target(m, op).None? {
      NothingToRemove(m.st, op.feedId);
      NotStuck(m.st, m.cfg, op.feedId);
      MakeFollow(m.st, m.cfg, p);
    } else {
      var i := Target(m, op).value;
      RemoveExactly(m.st, m.cfg, i);
      RemovedParts(m.st, i);
      MakeFollow(Removed(m.st, i), m.cfg, p);
    }
  }

  lemma NotStuck(st: Store, cfg: Config, f: uint32)
    requires Indexed(st, cfg) && f !in st.byFeed
    ensures st.stuck - {f} == st.stuck
  {
    IdsKnown(st, cfg);
  }

  lemma BaselineRefines(m: Monitor, t: int, now: Time)
    requires Indexed(m.st, m.cfg) && ConfigOk(m.cfg)
    ensures IdsOk(m.st.slots, m.st.byFeed)
    ensures Follows(Do(m, NewTimeout(t, now)), PlainDo(Abs(m), NewTimeout(t, now)))
  {
    hide Indexed;
    hide BaselineSlot;
    var st := m.st.(slots := Baselined(m.st.slots, now));
    var cfg := m.cfg.(heartbeatTimeoutNs := t);
    IdsKnown(m.st, m.cfg);
    BaselineStep(m.st, m.cfg, st.slots, cfg, now);
    IdsKnown(st, cfg);
    BaselineFeeds(m.st, st.slots, now);
    hide IdsOk;
    hide Feeds;
    hide Follows;
    MakeFollow(st, cfg, PlainDo(Abs(m), NewTimeout(t, now)));
  }

  lemma BaselineFeeds(st: Store, slots: seq<Slot>, now: Time)
    requires IdsOk(st.slots, st.byFeed) && IdsOk(slots, st.byFeed) && |slots| == |st.slots|
    requires forall j :: 0 <= j < |slots| ==> slots[j] == BaselineSlot(st.slots[j], now)
    ensures Feeds(st.(slots := slots)) == AllBaselined(Feeds(st), now)
  {
    hide BaselineSlot;
    hide Id;
  }

  lemma AddRefines(m: Monitor, f: uint32, fd: nat, clock: Time)
    requires Indexed(m.st, m.cfg) && ConfigOk(m.cfg) && fd !in m.st.open
    ensures IdsOk(m.st.slots, m.st.byFeed)
    ensures Follows(Do(m, AddFeed(f, fd, clock)), PlainDo(Abs(m), AddFeed(f, fd, clock)))
  {
    hide Indexed;
    hide IdsOk;
    hide Feeds;
    hide Append;
    hide NewSlot;
    hide Follows;
    IdsKnown(m.st, m.cfg);
    FeedKeys(m.st);
    var p := PlainDo(Abs(m), AddFeed(f, fd, clock));
    if f in m.st.byFeed {
      MakeFollow(m.st, m.cfg, p);
    } else {
      AppendStep(m.st, m.cfg, f, fd, clock);
      MakeFollow(Append(m.st, NewSlot(fd, f, clock)), m.cfg, p);
    }
  }

  lemma IntervalRefines(m: Monitor, v: int)
    requires Indexed(m.st, m.cfg) && ConfigOk(m.cfg)
    ensures IdsOk(m.st.slots, m.st.byFeed)
    ensures Follows(Do(m, NewInterval(v)), PlainDo(Abs(m), NewInterval(v)))
  {
    hide FdsOk;
    hide MappedOk;
    hide InterestOk;
    hide IdsOk;
    hide Feeds;
    hide WithinBudget;
  }

  /** One guarded step of the store is one step of the plain machine, and keeps every index exact. */
  lemma DoRefines(m: Monitor, op: Op)
    requires Indexed(m.st, m.cfg) && Possible(m, op) && Guarded(m, op)
    ensures IdsOk(m.st.slots, m.st.byFeed)
    ensures Follows(Do(m, op), PlainDo(Abs(m), op))
  {
    hide Indexed;
    hide IdsOk;
    hide Feeds;
    hide Follows;
    hide DoAt;
    hide Owner;
    hide Served;
    hide Guarded;
    hide Watched;
    match op {
      case AddFeed(f, fd, clock) => AddRefines(m, f, fd, clock);
      case RemoveFeed(_) => RemoveRefines(m, op);
      case NewTimeout(t, now) => BaselineRefines(m, t, now);
      case NewInterval(v) => IntervalRefines(m, v);
      case _ =>
        TargetIsAddressee(m, op);
        hide Addressee;
        var i := Target(m, op);
        hide Target;
        if i.Some? {
          ServeRefines(m, op, i.value);
        } else {
          MakeFollow(m.st, m.cfg, Abs(m));
        }
    }
  }

  // ---- Runs ----

  predicate IsGuardedRun(states: seq<Monitor>, ops: seq<Op>) {
    && |states| == |ops| + 1
    && (forall i :: 0 <= i < |ops| ==> Possible(states[i], ops[i]) && Guarded(states[i], ops[i]))
    && (forall i :: 0 <= i < |ops| ==> states[i + 1] == Do(states[i], ops[i]))
  }

  const EMPTY_STORE := Store([], map[], map[], {}, map[], {})

  lemma EmptyFollows(cfg: Config)
    requires ConfigOk(cfg)
    ensures Follows(Monitor(EMPTY_STORE, cfg), Empty(cfg))
  {}

  /** Index refinement. On every guarded run from an empty monitor, clean or not, the indexes are exact and the store
      stands for exactly what the plain machine has computed from the same operations: the same slot for every feed,
      and stuck exactly the feeds that their own PING failed and that have not been served an event since. */
  lemma {:induction false} RunRefines(states: seq<Monitor>, ops: seq<Op>, n: nat)
    requires IsGuardedRun(states, ops) && n < |states|
    requires states[0].st == EMPTY_STORE && ConfigOk(states[0].cfg)
    ensures Follows(states[n], PlainRun(Empty(states[0].cfg), ops[..n]))
    decreases n
  {
    hide Do;
    hide PlainDo;
    hide Guarded;
    hide Possible;
    hide Indexed;
    hide IdsOk;
    hide Abs;
    if n == 0 {
      EmptyFollows(states[0].cfg);
    } else {
      RunRefines(states, ops, n - 1);
      DoRefines(states[n - 1], ops[n - 1]);
      assert ops[..n][..n - 1] == ops[..n - 1];
    }
  }

  // ---- Clean runs ----

  predicate Sane(m: Monitor) {
    Indexed(m.st, m.cfg) && m.st.stuck == {}
  }

  predicate IsCleanRun(states: seq<Monitor>, ops: seq<Op>) {
    && |states| == |ops| + 1
    && (forall i :: 0 <= i < |ops| ==> Possible(states[i], ops[i]))
    && (forall i :: 0 <= i < |ops| ==> Clean(states[i], ops[i]))
    && (forall i :: 0 <= i < |ops| ==> states[i + 1] == Do(states[i], ops[i]))
  }

  lemma PlainClean(m: Monitor, op: Op)
    requires Indexed(m.st, m.cfg) && m.st.stuck == {} && Clean(m, op) && ConfigOk(m.cfg)
    ensures IdsOk(m.st.slots, m.st.byFeed) && PlainDo(Abs(m), op).stuck == {}
  {
    hide Indexed;
    hide PingFails;
    hide SlotStep;
    hide Owner;
    IdsKnown(m.st, m.cfg);
    if op.TickShare? && op.feedId in m.st.byFeed {
      FeedIndex(m.st, m.cfg, op.feedId);
    }
  }

  /** A clean step leaves nothing unhandled, and is guarded. */
  lemma DoSane(m: Monitor, op: Op)
    requires Sane(m) && Possible(m, op) && Clean(m, op)
    ensures Guarded(m, op) && Sane(Do(m, op))
  {
    hide Indexed;
    hide PlainDo;
    hide Do;
    hide Clean;
    hide IdsOk;
    hide Feeds;
    DoRefines(m, op);
    PlainClean(m, op);
  }

  lemma {:induction false} CleanRunSane(states: seq<Monitor>, ops: seq<Op>, n: nat)
    requires IsCleanRun(states, ops) && n < |states|
    requires states[0].st == EMPTY_STORE && ConfigOk(states[0].cfg)
    ensures Sane(states[n]) && (n < |ops| ==> Guarded(states[n], ops[n]))
    decreases n
  {
    hide Do;
    hide Clean;
    hide Possible;
    hide Guarded;
    if n > 0 {
      CleanRunSane(states, ops, n - 1);
      hide Sane;
      DoSane(states[n - 1], ops[n - 1]);
    }
    if n < |ops| {
      hide Sane;
      DoSane(states[n], ops[n]);
    }
  }

  lemma {:induction false} CleanIsGuarded(states: seq<Monitor>, ops: seq<Op>)
    requires IsCleanRun(states, ops)
    requires states[0].st == EMPTY_STORE && ConfigOk(states[0].cfg)
    ensures IsGuardedRun(states, ops)
  {
    hide Do;
    hide Clean;
    hide Possible;
    hide Guarded;
    hide Sane;
    forall i | 0 <= i < |ops|
      ensures Guarded(states[i], ops[i])
    {
      CleanRunSane(states, ops, i);
    }
  }

  /** The fd index as the header documents it, and what a failure has cost so far: one alert each, every
      alert followed by a reconnect or by a wait that is still going on or was given up. */
  predicate Documented(st: Store) {
    && (forall i :: 0 <= i < |st.slots| ==>
          var s := st.slots[i];
          && (s.conn.state != Failed <==> Fd(s) in st.byFd && st.byFd[Fd(s)] == i)
          && s.alerts == s.conn.stats.reconnects + (if s.conn.state == Failed then 1 else 0)
          && (s.conn.state == Failed <==> Pending(s) || s.giveUp))
    && |st.byFd| + CountState(st.slots, Failed) == |st.slots|
    && CountPending(st.slots) <= CountState(st.slots, Failed)
  }

  lemma SlotDocumented(st: Store, cfg: Config, i: nat)
    requires Indexed(st, cfg) && st.stuck == {} && i < |st.slots|
    ensures
      var s := st.slots[i];
      && (s.conn.state != Failed <==> Fd(s) in st.byFd && st.byFd[Fd(s)] == i)
      && s.alerts == s.conn.stats.reconnects + (if s.conn.state == Failed then 1 else 0)
      && (s.conn.state == Failed <==> Pending(s) || s.giveUp)
  {
    var s := st.slots[i];
    assert SlotOk(s, Id(s) in st.stuck, cfg);
    hide WithinBudget;
    if Fd(s) in st.byFd && st.byFd[Fd(s)] == i {
      assert Watched(st.slots[st.byFd[Fd(s)]], st.stuck);
    }
  }

  /** Index refinement and failure accounting: on every clean run from an empty monitor the store stands for what the
      plain machine computes, the fd index is exactly as documented, descriptors are distinct and exactly the open
      ones, write interest is armed exactly for the registered connections that want it, and alerts and reconnects
      balance. */
  lemma CleanRuns(states: seq<Monitor>, ops: seq<Op>, n: nat)
    requires IsCleanRun(states, ops) && n < |states|
    requires states[0].st == EMPTY_STORE && ConfigOk(states[0].cfg)
    ensures Follows(states[n], PlainRun(Empty(states[0].cfg), ops[..n])) && states[n].st.stuck == {}
    ensures Documented(states[n].st)
    ensures InterestOk(states[n].st.slots, states[n].st.byFd, states[n].st.interest)
    ensures FdsOk(states[n].st.slots, states[n].st.open)
  {
    hide IsGuardedRun;
    hide Follows;
    hide PlainRun;
    CleanIsGuarded(states, ops);
    RunRefines(states, ops, n);
    CleanRunSane(states, ops, n);
    hide IsCleanRun;
    hide Guarded;
    AllDocumented(states[n].st, states[n].cfg);
    IndexParts(states[n].st, states[n].cfg);
  }

  lemma AllDocumented(st: Store, cfg: Config)
    requires Indexed(st, cfg) && st.stuck == {}
    ensures Documented(st)
  {
    hide Indexed;
    IndexCount(st, cfg);
    SnapshotFacts(st, cfg);
    forall i | 0 <= i < |st.slots|
      ensures
        var s := st.slots[i];
        && (s.conn.state != Failed <==> Fd(s) in st.byFd && st.byFd[Fd(s)] == i)
        && s.alerts == s.conn.stats.reconnects + (if s.conn.state == Failed then 1 else 0)
        && (s.conn.state == Failed <==> Pending(s) || s.giveUp)
    {
      SlotDocumented(st, cfg, i);
    }
  }

  // ---- What an unclean tick breaks ----

  /** The fd index is as documented exactly when no failure is unhandled. */
  lemma DocumentedIndex(st: Store, cfg: Config)
    requires Indexed(st, cfg)
    ensures st.stuck == {} <==>
            forall i :: 0 <= i < |st.slots| ==> (st.slots[i].conn.state == Failed ==> Fd(st.slots[i]) !in st.byFd)
  {
    if f :| f in st.stuck {
      FeedIndex(st, cfg, f);
      var i := st.byFeed[f];
      assert SlotOk(st.slots[i], true, cfg);
      assert Watched(st.slots[i], st.stuck);
    } else {
      hide SlotOk;
      hide WantsWrite;
      assert forall d :: d in st.byFd ==> Watched(st.slots[st.byFd[d]], st.stuck);
      forall i | 0 <= i < |st.slots| && st.slots[i].conn.state == Failed
        ensures Fd(st.slots[i]) !in st.byFd
      {
        UnwatchedAbsent(st, cfg, i);
        assert Fd(st.slots[i]) !in st.byFd - {Fd(st.slots[i])};
      }
    }
  }

  /** Exactly when a tick fails a live connection unnoticed, with neither an alert nor a schedule: a PING is due and its
      write is refused. Every other failure in a tick is alerted once. */
  lemma UnnoticedExactly(s: Slot, cfg: Config, now: Time, a: Answer, fd: int)
    requires ConfigOk(cfg) && SlotOk(s, false, cfg) && IsLive(s.conn)
    ensures
      var r := TickSlot(s, cfg, now, a, fd);
      && (PingFails(s, cfg, now, a) <==> r.conn.state == Failed && r.alerts == s.alerts)
      && (PingFails(s, cfg, now, a) ==> !Pending(r) && !r.giveUp)
      && (r.conn.state == Failed && !PingFails(s, cfg, now, a) ==> r.alerts == s.alerts + 1)
  {
    hide TickSlot;
    hide PingSlot;
    hide Refused;
    LiveTickKeeps(s, cfg, now, a, fd);
    PingIdentity(s, cfg, now, a);
    PingFailsExactly(s, cfg, now, a);
  }

  /** Such ticks exist: a healthy connection with nothing pending, a PING due, and a send that fails. */
  lemma PingCanFail(s: Slot, cfg: Config, now: Time, clock: Time, fd: int)
    requires ConfigOk(cfg) && SlotOk(s, false, cfg) && s.conn.state == Healthy && s.conn.writePending == []
    requires now >= s.nextPingDueNs
    ensures
      var r := TickSlot(s, cfg, now, Answer(None, clock, 0.0, [SendError]), fd);
      r.conn.state == Failed && r.alerts == s.alerts && !Pending(r) && !r.giveUp
  {
    hide TickSlot;
    hide SlotOk;
    UnnoticedExactly(s, cfg, now, Answer(None, clock, 0.0, [SendError]), fd);
  }
}
