/** The `FeedMonitor` reactor of src/feed_monitor.h and src/feed_monitor.cpp, updating its slot vector,
    its two indexes and the epoll interest set in place. Every operation is proved against the plain map
    from feed id to slot: it changes the addressed feed as Slots.dfy says, and no other. */
module FeedMonitorClass {
  import opened Heartbeat
  import opened ConnectionModel
  import opened Slots
  import opened SlotStore

  // ---- Counting slots ----

  function CountState(slots: seq<Slot>, state: State): (r: nat)
    decreases |slots|
  {
    if slots == [] then 0
    else CountState(slots[..|slots| - 1], state) + if slots[|slots| - 1].conn.state == state then 1 else 0
  }

  function CountPending(slots: seq<Slot>): (r: nat)
    decreases |slots|
  {
    if slots == [] then 0
    else CountPending(slots[..|slots| - 1]) + if Pending(slots[|slots| - 1]) then 1 else 0
  }

  lemma {:induction false} PendingAmongFailed(slots: seq<Slot>, stuck: set<uint32>, cfg: Config)
    requires SlotsOk(slots, stuck, cfg)
    ensures CountPending(slots) <= CountState(slots, Failed)
    decreases |slots|
  {
    if slots != [] {
      var n := |slots| - 1;
      assert SlotOk(slots[n], Id(slots[n]) in stuck, cfg);
      assert SlotsOk(slots[..n], stuck, cfg);
      PendingAmongFailed(slots[..n], stuck, cfg);
    }
  }

  function WatchedFds(slots: seq<Slot>, stuck: set<uint32>): (r: set<int>)
    decreases |slots|
  {
    if slots == [] then {}
    else
      WatchedFds(slots[..|slots| - 1], stuck)
      + if Watched(slots[|slots| - 1], stuck) then {Fd(slots[|slots| - 1])} else {}
  }

  lemma {:induction false} WatchedFdsExact(slots: seq<Slot>, stuck: set<uint32>)
    ensures forall d :: d in WatchedFds(slots, stuck) <==>
                        exists i :: 0 <= i < |slots| && Watched(slots[i], stuck) && Fd(slots[i]) == d
    decreases |slots|
  {
    hide Watched;
    hide Fd;
    if slots != [] {
      var n := |slots| - 1;
      WatchedFdsExact(slots[..n], stuck);
      forall d
        ensures d in WatchedFds(slots, stuck) <==>
                exists i :: 0 <= i < |slots| && Watched(slots[i], stuck) && Fd(slots[i]) == d
      {
        if d in WatchedFds(slots[..n], stuck) {
          var i :| 0 <= i < n && Watched(slots[..n][i], stuck) && Fd(slots[..n][i]) == d;
          assert Watched(slots[i], stuck) && Fd(slots[i]) == d;
        }
        if i :| 0 <= i < |slots| && Watched(slots[i], stuck) && Fd(slots[i]) == d {
          if i < n {
            assert Watched(slots[..n][i], stuck) && Fd(slots[..n][i]) == d;
          }
        }
      }
    }
  }

  /** With nothing stuck, the watched slots are those that have not failed. */
  lemma {:induction false} WatchedCount(slots: seq<Slot>, stuck: set<uint32>)
    requires forall i, j :: 0 <= i < j < |slots| ==> Fd(slots[i]) != Fd(slots[j])
    requires forall i :: 0 <= i < |slots| ==> Id(slots[i]) !in stuck
    ensures |WatchedFds(slots, stuck)| + CountState(slots, Failed) == |slots|
    decreases |slots|
  {
    if slots != [] {
      var n := |slots| - 1;
      WatchedCount(slots[..n], stuck);
      WatchedFdsExact(slots[..n], stuck);
      assert Fd(slots[n]) !in WatchedFds(slots[..n], stuck);
    }
  }

  /** The documented size of the fd index: one entry per slot that has not failed. */
  lemma IndexCount(st: Store, cfg: Config)
    requires Indexed(st, cfg) && st.stuck == {}
    ensures |st.byFd| + CountState(st.slots, Failed) == |st.slots|
  {
    hide Watched;
    hide SlotsOk;
    WatchedCount(st.slots, {});
    WatchedFdsExact(st.slots, {});
    forall d
      ensures d in st.byFd.Keys <==> d in WatchedFds(st.slots, {})
    {
      if d in st.byFd {
        assert Watched(st.slots[st.byFd[d]], {}) && Fd(st.slots[st.byFd[d]]) == d;
      }
    }
    assert st.byFd.Keys == WatchedFds(st.slots, {});
    assert |st.byFd| == |st.byFd.Keys|;
  }

  // ---- Changes that no index can see ----

  /** The same slots as far as the indexes are concerned. */
  predicate SameShape(a: seq<Slot>, b: seq<Slot>) {
    |a| == |b| && forall i :: 0 <= i < |a| ==>
      && Id(b[i]) == Id(a[i]) && Fd(b[i]) == Fd(a[i])
      && b[i].conn.state == a[i].conn.state && b[i].conn.writePending == a[i].conn.writePending
  }

  lemma ReshapedIds(st: Store, slots: seq<Slot>)
    requires IdsOk(st.slots, st.byFeed) && FdsOk(st.slots, st.open) && SameShape(st.slots, slots)
    ensures IdsOk(slots, st.byFeed) && FdsOk(slots, st.open)
  {
    hide Id;
    hide Fd;
    forall d | d in st.open
      ensures exists j :: 0 <= j < |slots| && Fd(slots[j]) == d
    {
      var j :| 0 <= j < |st.slots| && Fd(st.slots[j]) == d;
      assert Fd(slots[j]) == d;
    }
  }

  lemma ReshapedMapped(st: Store, slots: seq<Slot>)
    requires MappedOk(st.slots, st.byFd, st.stuck) && InterestOk(st.slots, st.byFd, st.interest)
    requires SameShape(st.slots, slots)
    ensures MappedOk(slots, st.byFd, st.stuck) && InterestOk(slots, st.byFd, st.interest)
  {
    hide Id;
    hide Fd;
    assert forall i :: 0 <= i < |slots| ==> (Watched(slots[i], st.stuck) <==> Watched(st.slots[i], st.stuck));
    assert forall i :: 0 <= i < |slots| ==> (WantsWrite(slots[i].conn) <==> WantsWrite(st.slots[i].conn));
    hide Watched;
    hide WantsWrite;
  }

  lemma Reshaped(st: Store, cfg: Config, slots: seq<Slot>, cfg': Config)
    requires Indexed(st, cfg) && SameShape(st.slots, slots) && ConfigOk(cfg') && SlotsOk(slots, st.stuck, cfg')
    ensures Indexed(st.(slots := slots), cfg')
  {
    hide IdsOk;
    hide FdsOk;
    hide MappedOk;
    hide InterestOk;
    hide SlotsOk;
    hide SameShape;
    hide ConfigOk;
    ReshapedIds(st, slots);
    ReshapedMapped(st, slots);
  }

  // ---- What each operation does to the store ----

  /** Slot `i` becomes `s`, a handled failure: out of the fd index, the epoll set and `stuck`. */
  function FailAt(st: Store, i: nat, s: Slot): (r: Store)
    requires i < |st.slots|
  {
    st.(slots := st.slots[i := s], byFd := st.byFd - {Fd(s)}, interest := st.interest - {Fd(s)},
        stuck := st.stuck - {Id(s)})
  }

  /** Slot `i` becomes `s` and stays watched, its write interest synchronised. */
  function KeepAt(st: Store, i: nat, s: Slot, stuck: set<uint32>): (r: Store)
    requires i < |st.slots|
  {
    st.(slots := st.slots[i := s], interest := st.interest[Fd(s) := WantsWrite(s.conn)], stuck := stuck)
  }

  /** `a` and `b` stand for the same map when they agree on the vector and the feed index. */
  lemma FeedsSame(a: Store, b: Store)
    requires IdsOk(a.slots, a.byFeed) && a.slots == b.slots && a.byFeed == b.byFeed
    ensures IdsOk(b.slots, b.byFeed) && Feeds(a) == Feeds(b)
  {
    hide Id;
  }

  lemma FailStep(st: Store, cfg: Config, i: nat, s: Slot)
    requires Indexed(st, cfg) && i < |st.slots|
    requires Id(s) == Id(st.slots[i]) && Fd(s) == Fd(st.slots[i])
    requires s.conn.state == Failed && SlotOk(s, false, cfg)
    ensures Indexed(FailAt(st, i, s), cfg) && Feeds(FailAt(st, i, s)) == Feeds(st)[Id(s) := s]
  {
    ReplaceFailed(st, cfg, i, s);
    hide SlotOk;
    hide WantsWrite;
    hide IdsOk;
    hide FdsOk;
    hide MappedOk;
    hide InterestOk;
    hide SlotsOk;
    hide Feeds;
    IdsKnown(FailAt(st, i, s), cfg);
    FeedsSame(FailAt(st, i, s), st.(slots := st.slots[i := s]));
  }

  lemma KeepStep(st: Store, cfg: Config, i: nat, s: Slot, stuck: set<uint32>)
    requires Indexed(st, cfg) && i < |st.slots| && Watched(st.slots[i], st.stuck)
    requires Id(s) == Id(st.slots[i]) && Fd(s) == Fd(st.slots[i])
    requires stuck - {Id(s)} == st.stuck - {Id(s)} && Watched(s, stuck) && SlotOk(s, Id(s) in stuck, cfg)
    ensures Indexed(KeepAt(st, i, s, stuck), cfg) && Feeds(KeepAt(st, i, s, stuck)) == Feeds(st)[Id(s) := s]
  {
    ReplaceWatched(st, cfg, i, s, stuck);
    hide SlotOk;
    hide WantsWrite;
    hide IdsOk;
    hide FdsOk;
    hide MappedOk;
    hide InterestOk;
    hide SlotsOk;
    hide Feeds;
    IdsKnown(KeepAt(st, i, s, stuck), cfg);
    FeedsSame(KeepAt(st, i, s, stuck), st.(slots := st.slots[i := s]));
  }

  /** What is known of the slot at a position. */
  lemma SlotAt(st: Store, cfg: Config, i: nat)
    requires Indexed(st, cfg) && i < |st.slots|
    ensures ConfigOk(cfg) && IdsOk(st.slots, st.byFeed)
    ensures SlotOk(st.slots[i], Id(st.slots[i]) in st.stuck, cfg)
    ensures Id(st.slots[i]) in st.byFeed && st.byFeed[Id(st.slots[i])] == i
    ensures Id(st.slots[i]) in Feeds(st) && Feeds(st)[Id(st.slots[i])] == st.slots[i]
  {
    hide SlotOk;
    hide Id;
  }

  function EventAt(st: Store, cfg: Config, i: nat, ev: SockEvent, now: Time, a: Answer): (r: Store)
    requires i < |st.slots| && ConfigOk(cfg)
  {
    var s := EventSlot(st.slots[i], cfg, ev, now, a);
    if EventConn(st.slots[i].conn, cfg, ev, now, a).state == Failed then FailAt(st, i, s)
    else KeepAt(st, i, s, st.stuck - {Id(s)})
  }

  lemma EventStep(st: Store, cfg: Config, i: nat, ev: SockEvent, now: Time, a: Answer)
    requires Indexed(st, cfg) && i < |st.slots| && Watched(st.slots[i], st.stuck)
    ensures ConfigOk(cfg)
    ensures
      var r := EventAt(st, cfg, i, ev, now, a);
      && Indexed(r, cfg) && IdsOk(st.slots, st.byFeed) && Id(st.slots[i]) in Feeds(st)
      && Feeds(st)[Id(st.slots[i])] == st.slots[i]
      && Feeds(r) == Feeds(st)[Id(st.slots[i]) := EventSlot(st.slots[i], cfg, ev, now, a)]
      && r.open == st.open && r.stuck == st.stuck - {Id(st.slots[i])}
  {
    hide Indexed;
    hide EventConn;
    hide FailSlot;
    SlotAt(st, cfg, i);
    var s0 := st.slots[i];
    EventKeeps(s0, Id(s0) in st.stuck, cfg, ev, now, a);
    hide SlotOk;
    var s := EventSlot(s0, cfg, ev, now, a);
    if EventConn(s0.conn, cfg, ev, now, a).state == Failed {
      FailKept(s0.(conn := EventConn(s0.conn, cfg, ev, now, a)), cfg, a);
      FailStep(st, cfg, i, s);
    } else {
      KeepStep(st, cfg, i, s, st.stuck - {Id(s)});
    }
  }

  lemma DisconnectStep(st: Store, cfg: Config, i: nat, a: Answer)
    requires Indexed(st, cfg) && i < |st.slots| && st.slots[i].conn.state != Failed
    ensures ConfigOk(cfg)
    ensures
      var s := ForceDisconnectSlot(st.slots[i], cfg, a);
      && Indexed(FailAt(st, i, s), cfg) && IdsOk(st.slots, st.byFeed)
      && Feeds(FailAt(st, i, s)) == Feeds(st)[Id(st.slots[i]) := s]
      && FailAt(st, i, s).stuck == st.stuck
  {
    hide Indexed;
    hide FailSlot;
    SlotAt(st, cfg, i);
    var s0 := st.slots[i];
    CommandsKeep(s0, Id(s0) in st.stuck, cfg, 0, a);
    LiveNotStuck(st, cfg, i);
    hide SlotOk;
    FailKept(s0.(conn := OnHangupOrError(s0.conn, a.clock)), cfg, a);
    FailStep(st, cfg, i, ForceDisconnectSlot(s0, cfg, a));
  }

  /** The share of a tick of a live slot. */
  function TickLiveAt(st: Store, cfg: Config, i: nat, now: Time, a: Answer): (r: Store)
    requires i < |st.slots| && ConfigOk(cfg)
  {
    var s0 := st.slots[i];
    var s := TickSlot(s0, cfg, now, a, Fd(s0));
    if PingFails(s0, cfg, now, a) then KeepAt(st, i, s, st.stuck + {Id(s0)})
    else if s.conn.state == Failed then FailAt(st, i, s)
    else KeepAt(st, i, s, st.stuck)
  }

  lemma TickLiveStep(st: Store, cfg: Config, i: nat, now: Time, a: Answer)
    requires Indexed(st, cfg) && i < |st.slots| && IsLive(st.slots[i].conn)
    ensures ConfigOk(cfg) && Indexed(TickLiveAt(st, cfg, i, now, a), cfg)
    ensures Id(st.slots[i]) !in st.stuck && SameIdentity(st.slots[i].conn, TickSlot(st.slots[i], cfg, now, a, Fd(st.slots[i])).conn)
  {
    hide Indexed;
    hide TickSlot;
    hide PingFails;
    LiveNotStuck(st, cfg, i);
    var s0 := st.slots[i];
    LiveTickKeeps(s0, cfg, now, a, Fd(s0));
    var s := TickSlot(s0, cfg, now, a, Fd(s0));
    if PingFails(s0, cfg, now, a) {
      StuckFails(s, cfg);
      hide SlotOk;
      KeepStep(st, cfg, i, s, st.stuck + {Id(s0)});
    } else if s.conn.state == Failed {
      hide SlotOk;
      FailStep(st, cfg, i, s);
    } else {
      hide SlotOk;
      KeepStep(st, cfg, i, s, st.stuck);
    }
  }

  lemma StuckFails(s: Slot, cfg: Config)
    requires SlotOk(s, true, cfg)
    ensures s.conn.state == Failed
  {}

  /** The share of a tick of a slot still connecting or handshaking; write interest is left as it is. */
  function TickAttemptAt(st: Store, cfg: Config, i: nat, now: Time, a: Answer): (r: Store)
    requires i < |st.slots| && ConfigOk(cfg)
  {
    var s := CheckSlot(st.slots[i], cfg, now, a);
    if s.conn.state == Failed then FailAt(st, i, s) else st.(slots := st.slots[i := s])
  }

  lemma TickAttemptStep(st: Store, cfg: Config, i: nat, now: Time, a: Answer)
    requires Indexed(st, cfg) && i < |st.slots| && st.slots[i].conn.state != Failed
    ensures ConfigOk(cfg) && Indexed(TickAttemptAt(st, cfg, i, now, a), cfg)
    ensures Id(st.slots[i]) !in st.stuck && SameIdentity(st.slots[i].conn, CheckSlot(st.slots[i], cfg, now, a).conn)
  {
    LiveNotStuck(st, cfg, i);
    hide Indexed;
    hide CheckSlot;
    var s0 := st.slots[i];
    CheckKeeps(s0, cfg, now, a);
    hide SlotOk;
    var s := CheckSlot(s0, cfg, now, a);
    if s.conn.state == Failed {
      FailStep(st, cfg, i, s);
    } else {
      KeepStep(st, cfg, i, s, st.stuck);
      SameInterest(st, cfg, i, WantsWrite(s.conn));
    }
  }

  /** A reconnect that is due: onto descriptor `fd`, or no socket and another wait. */
  function ConnectAt(st: Store, cfg: Config, i: nat, now: Time, a: Answer, fd: int): (r: Store)
    requires i < |st.slots| && ConfigOk(cfg)
  {
    var s := ConnectSlot(st.slots[i], cfg, now, a, fd);
    if a.socket.None? then st.(slots := st.slots[i := s])
    else st.(slots := st.slots[i := s], byFd := st.byFd[Fd(s) := i],
             interest := st.interest[Fd(s) := WantsWrite(s.conn)],
             open := st.open - {Fd(st.slots[i])} + {Fd(s)})
  }

  lemma ConnectStep(st: Store, cfg: Config, i: nat, now: Time, a: Answer, fd: nat)
    requires Indexed(st, cfg) && i < |st.slots| && ReconnectDue(st.slots[i], now)
    requires fd !in st.open
    ensures ConfigOk(cfg) && Indexed(ConnectAt(st, cfg, i, now, a, fd), cfg)
    ensures
      var s := ConnectSlot(st.slots[i], cfg, now, a, fd);
      Id(s) == Id(st.slots[i]) && (a.socket.Some? ==> Fd(s) == fd)
  {
    DueNotWatched(st, cfg, i);
    SlotAt(st, cfg, i);
    hide Indexed;
    hide ConnectSlot;
    ConnectKeeps(st.slots[i], cfg, now, a, fd);
    hide SlotOk;
    var s := ConnectSlot(st.slots[i], cfg, now, a, fd);
    if a.socket.None? {
      FailStep(st, cfg, i, s);
      UnwatchedAbsent(st, cfg, i);
    } else {
      ReplaceRebound(st, cfg, i, s);
    }
  }

  lemma ForcedUnseen(slots: seq<Slot>, i: nat)
    requires i < |slots|
    ensures SameShape(slots, slots[i := ForceReconnectSlot(slots[i])])
  {}

  /** A manual reconnect is invisible to all the indexes. The store's invariant survives unless the feed is stuck:
      then a failure that was never counted is scheduled all the same. */
  lemma ReconnectStep(st: Store, cfg: Config, i: nat)
    requires Indexed(st, cfg) && i < |st.slots|
    ensures
      var s := ForceReconnectSlot(st.slots[i]);
      var r := st.(slots := st.slots[i := s]);
      && IdsOk(r.slots, r.byFeed) && FdsOk(r.slots, r.open)
      && MappedOk(r.slots, r.byFd, r.stuck) && InterestOk(r.slots, r.byFd, r.interest)
      && (Indexed(r, cfg) <==> Id(st.slots[i]) !in st.stuck)
      && IdsOk(st.slots, st.byFeed) && Feeds(r) == Feeds(st)[Id(st.slots[i]) := s]
  {
    hide IdsOk;
    hide FdsOk;
    hide MappedOk;
    hide InterestOk;
    hide Feeds;
    hide SlotsOk;
    SlotAt(st, cfg, i);
    var s0 := st.slots[i];
    var s := ForceReconnectSlot(s0);
    var r := st.(slots := st.slots[i := s]);
    ReplaceIds(st, i, s);
    ForcedUnseen(st.slots, i);
    ReshapedIds(st, r.slots);
    ReshapedMapped(st, r.slots);
    CommandsKeep(s0, Id(s0) in st.stuck, cfg, 0, Answer(None, 0, 0.0, []));
    if Id(s0) in st.stuck {
      StuckNotScheduled(r, cfg, i);
    } else {
      hide Indexed;
      ForcedShape(st, cfg, i, s);
    }
  }

  lemma StuckNotScheduled(st: Store, cfg: Config, i: nat)
    requires i < |st.slots| && Id(st.slots[i]) in st.stuck && Pending(st.slots[i])
    ensures !Indexed(st, cfg)
  {
    hide WithinBudget;
    hide MappedOk;
    hide InterestOk;
    hide FdsOk;
    hide IdsOk;
  }

  /** What a manual reconnect of a failed feed leads to at the next tick, which finds it due: it moves to the new
      socket, and the fd index and the accounting of alerts are right afterwards if and only if the failure had
      been handled. If it had not, the index still maps a descriptor that has been closed, and a reconnect has
      happened for which no alert was ever given. */
  lemma ReconnectThenTick(st: Store, cfg: Config, i: nat, now: Time, a: Answer, fd: nat)
    requires Indexed(st, cfg) && i < |st.slots| && st.slots[i].conn.state == Failed
    requires a.socket.Some? && fd !in st.open
    ensures ConfigOk(cfg)
    ensures
      var r := st.(slots := st.slots[i := ForceReconnectSlot(st.slots[i])]);
      var t := ConnectAt(r, cfg, i, now, a, fd);
      var handled := Id(st.slots[i]) !in st.stuck;
      && ReconnectDue(r.slots[i], now)
      && t.slots[i].conn.state == Connecting && Fd(t.slots[i]) == fd
      && (MappedOk(t.slots, t.byFd, t.stuck) <==> handled)
      && (t.slots[i].alerts == t.slots[i].conn.stats.reconnects <==> handled)
      && (handled ==> Indexed(t, cfg))
      && (!handled ==>
            && Fd(st.slots[i]) in t.byFd && t.byFd[Fd(st.slots[i])] == i && Fd(st.slots[i]) !in t.open
            && t.slots[i].alerts + 1 == t.slots[i].conn.stats.reconnects)
  {
    hide Indexed;
    hide FdsOk;
    hide InterestOk;
    hide SlotsOk;
    hide IdsOk;
    hide Feeds;
    IdsKnown(st, cfg);
    ReconnectStep(st, cfg, i);
    var r := st.(slots := st.slots[i := ForceReconnectSlot(st.slots[i])]);
    var t := ConnectAt(r, cfg, i, now, a, fd);
    SlotAt(st, cfg, i);
    if Id(st.slots[i]) in st.stuck {
      hide MappedOk;
      StuckIsMapped(st, cfg, i);
      StrayDescriptor(t, i, Fd(st.slots[i]));
    } else {
      hide MappedOk;
      ConnectStep(r, cfg, i, now, a, fd);
      MappedPart(t, cfg);
    }
  }

  lemma IndexParts(st: Store, cfg: Config)
    requires Indexed(st, cfg)
    ensures FdsOk(st.slots, st.open) && MappedOk(st.slots, st.byFd, st.stuck)
    ensures InterestOk(st.slots, st.byFd, st.interest)
  {}

  lemma MappedPart(st: Store, cfg: Config)
    requires Indexed(st, cfg)
    ensures MappedOk(st.slots, st.byFd, st.stuck)
  {}

  /** A stuck slot is still in the fd index, and its descriptor still open. */
  lemma StuckIsMapped(st: Store, cfg: Config, i: nat)
    requires Indexed(st, cfg) && i < |st.slots| && Id(st.slots[i]) in st.stuck
    ensures Fd(st.slots[i]) in st.byFd && st.byFd[Fd(st.slots[i])] == i && Fd(st.slots[i]) in st.open
  {
    hide SlotsOk;
  }

  lemma StrayDescriptor(st: Store, i: nat, d: int)
    requires i < |st.slots| && d in st.byFd && st.byFd[d] == i && Fd(st.slots[i]) != d
    ensures !MappedOk(st.slots, st.byFd, st.stuck)
  {}

  class FeedMonitor {
    var cfg: Config
    var slots: seq<Slot>
    var indexOfFd: map<int, nat>
    var indexOfFeedId: map<uint32, nat>
    // The kernel's side: open connection descriptors, and the epoll set with its EPOLLOUT bits.
    var open: set<int>
    var interest: map<int, bool>
    // Feeds that failed inside a tick's own PING and have not been handled since.
    ghost var stuck: set<uint32>

    ghost function View(): (r: Store)
      reads this
    {
      Store(slots, indexOfFd, indexOfFeedId, open, interest, stuck)
    }

    ghost predicate Valid()
      reads this
    {
      Indexed(View(), cfg)
    }

    /** The plain map this monitor stands for. */
    ghost function Map(): (r: map<uint32, Slot>)
      requires IdsOk(slots, indexOfFeedId)
      reads this
    {
      Feeds(View())
    }

    constructor (cfg: Config)
      requires ConfigOk(cfg)
      ensures Valid() && Map() == map[] && stuck == {} && this.cfg == cfg
    {
      this.cfg := cfg;
      slots, indexOfFd, indexOfFeedId, open, interest, stuck := [], map[], map[], {}, map[], {};
    }

    /** The kernel's answer to `socket()`: some descriptor that is not open, any one of them. */
    method Socket(pick: nat) returns (fd: nat)
      ensures fd !in open
      ensures pick !in open ==> fd == pick
    {
      fd := pick;
      while fd in open
        invariant pick !in open ==> fd == pick
        decreases set d | d in open && d >= fd
      {
        ghost var before := set d | d in open && d >= fd;
        assert fd as int in before;
        fd := fd + 1;
      }
    }

    // ---- Commands ----

    method AddFeed(feedId: uint32, a: Answer) returns (added: bool)
      requires Valid()
      modifies this
      ensures Valid() && cfg == old(cfg) && stuck == old(stuck)
      ensures added <==> feedId !in old(Map()) && a.socket.Some?
      ensures !added ==> View() == old(View())
      ensures added ==>
                && feedId in Map() && Fd(Map()[feedId]) !in old(open)
                && Map() == old(Map())[feedId := NewSlot(Fd(Map()[feedId]), feedId, a.clock)]
                && open == old(open) + {Fd(Map()[feedId])}
    {
      hide Indexed;
      hide SlotOk;
      if feedId in indexOfFeedId || a.socket.None? {
        return false;
      }
      var fd := Socket(a.socket.value);
      var slot := NewSlot(fd, feedId, a.clock);
      NewSlotOk(fd, feedId, a.clock, cfg);
      Pushed(View(), cfg, slot);
      var index := |slots|;
      slots := slots + [slot];
      indexOfFd := indexOfFd[fd := index];
      indexOfFeedId := indexOfFeedId[feedId := index];
      open := open + {fd};
      interest := interest[fd := WantsWrite(slot.conn)];
      return true;
    }

    /** Removes exactly the addressed feed and closes its descriptor. The indexes stay exact unless the
        slot moved into the hole has an unhandled failure, and only then. */
    method RemoveFeed(feedId: uint32)
      requires Valid()
      modifies this
      ensures cfg == old(cfg)
      ensures feedId !in old(Map()) ==> View() == old(View())
      ensures feedId in old(Map()) ==>
                && open == old(open) - {Fd(old(Map())[feedId])} && stuck == old(stuck) - {feedId}
                && (Valid() <==> !MovesStuck(old(View()), old(indexOfFeedId)[feedId]))
      ensures IdsOk(slots, indexOfFeedId) && Map() == old(Map()) - {feedId}
    {
      hide Indexed;
      hide IdsOk;
      hide Feeds;
      hide Id;
      hide Fd;
      hide SlotOk;
      hide MovesStuck;
      hide Removed;
      IdsKnown(View(), cfg);
      if feedId !in indexOfFeedId {
        NothingToRemove(View(), feedId);
        return;
      }
      FeedIndex(View(), cfg, feedId);
      RemovedParts(View(), indexOfFeedId[feedId]);
      RemoveSlotAt(indexOfFeedId[feedId]);
    }

    method RemoveSlotAt(index: nat)
      requires Valid() && index < |slots|
      modifies this
      ensures View() == Removed(old(View()), index) && cfg == old(cfg)
      ensures Valid() <==> !MovesStuck(old(View()), index)
      ensures IdsOk(slots, indexOfFeedId) && Map() == old(Map()) - {Id(old(slots)[index])}
    {
      hide Indexed;
      hide IdsOk;
      hide Feeds;
      hide MovesStuck;
      RemoveExactly(View(), cfg, index);
      var gone := slots[index];
      var fd := gone.conn.fd;
      interest := interest - {fd};
      indexOfFd := indexOfFd - {fd};
      indexOfFeedId := indexOfFeedId - {gone.conn.feedId};
      stuck := stuck - {gone.conn.feedId};
      var last := |slots| - 1;
      if index != last {
        slots := slots[index := slots[last]];
        var moved := slots[index];
        if moved.conn.state != Failed {
          indexOfFd := indexOfFd[moved.conn.fd := index];
        }
        indexOfFeedId := indexOfFeedId[moved.conn.feedId := index];
      }
      slots := slots[..last];
      open := open - {fd};  // the removed Connection's UniqueFd closes it
      assert slots == SwapPop(old(slots), index);
    }

    method ForceDisconnect(feedId: uint32, a: Answer)
      requires Valid()
      modifies this
      ensures Valid() && cfg == old(cfg) && open == old(open) && stuck == old(stuck)
      ensures feedId !in old(Map()) ==> View() == old(View())
      ensures feedId in old(Map()) ==>
                Map() == old(Map())[feedId := ForceDisconnectSlot(old(Map())[feedId], cfg, a)]
    {
      hide Indexed;
      hide IdsOk;
      hide Feeds;
      hide Id;
      hide Fd;
      hide SlotOk;
      hide ForceDisconnectSlot;
      hide FailSlot;
      hide OnHangupOrError;
      IdsKnown(View(), cfg);
      FeedKeys(View());
      if feedId !in indexOfFeedId {
        return;
      }
      var index := indexOfFeedId[feedId];
      ghost var st := View();
      FeedIndex(st, cfg, feedId);
      DisconnectParts(slots[index], cfg, a);
      if slots[index].conn.state == Failed {
        assert Map() == Map()[feedId := slots[index]];
        return;
      }
      DisconnectStep(st, cfg, index, a);
      slots := slots[index := slots[index].(conn := OnHangupOrError(slots[index].conn, a.clock))];
      OnConnectionFailed(index, a);
      assert View() == FailAt(st, index, ForceDisconnectSlot(st.slots[index], cfg, a));
    }

    /** A manual reconnect restores the full retry budget and is ready at once. No index is affected; but if the
        feed's failure is still unhandled, it is now scheduled without having been counted, and the next tick
        does the damage that `ReconnectThenTick` states. */
    method ForceReconnect(feedId: uint32)
      requires Valid()
      modifies this`slots
      ensures feedId !in old(Map()) ==> View() == old(View())
      ensures feedId in old(Map()) ==>
                && slots == old(slots)[old(indexOfFeedId)[feedId] := ForceReconnectSlot(old(Map())[feedId])]
                && IdsOk(slots, indexOfFeedId)
                && Map() == old(Map())[feedId := ForceReconnectSlot(old(Map())[feedId])]
      ensures FdsOk(slots, open) && MappedOk(slots, indexOfFd, stuck) && InterestOk(slots, indexOfFd, interest)
      ensures Valid() <==> feedId !in old(stuck)
    {
      hide Indexed;
      hide IdsOk;
      hide Feeds;
      hide Id;
      hide Fd;
      hide SlotOk;
      hide ForceReconnectSlot;
      IdsKnown(View(), cfg);
      FeedKeys(View());
      hide FdsOk;
      hide MappedOk;
      hide InterestOk;
      if feedId !in indexOfFeedId {
        IndexParts(View(), cfg);
        return;
      }
      var index := indexOfFeedId[feedId];
      ghost var st := View();
      FeedIndex(st, cfg, feedId);
      ReconnectStep(st, cfg, index);
      slots := slots[index := ForceReconnectSlot(slots[index])];
      assert View() == st.(slots := st.slots[index := ForceReconnectSlot(st.slots[index])]);
    }

    method SetHeartbeatInterval(intervalNs: int)
      requires Valid()
      modifies this`cfg
      ensures Valid() && cfg == old(cfg).(heartbeatIntervalNs := intervalNs) && View() == old(View())
    {
      cfg := cfg.(heartbeatIntervalNs := intervalNs);
      assert forall i :: 0 <= i < |slots| ==> SlotOk(slots[i], Id(slots[i]) in stuck, cfg);
    }

    /** Every connection gets a fresh liveness baseline under the new timeout; nothing else changes. */
    method SetHeartbeatTimeout(timeoutNs: int, now: Time)
      requires Valid()
      modifies this`cfg, this`slots
      ensures Valid() && cfg == old(cfg).(heartbeatTimeoutNs := timeoutNs)
      ensures Map().Keys == old(Map()).Keys
      ensures forall f :: f in Map() ==> Map()[f] == BaselineSlot(old(Map())[f], now)
    {
      hide Indexed;
      hide IdsOk;
      hide BaselineSlot;
      hide Feeds;
      ghost var st, cfg0 := View(), cfg;
      IdsKnown(st, cfg0);
      cfg := cfg.(heartbeatTimeoutNs := timeoutNs);
      for i := 0 to |slots|
        invariant cfg == cfg0.(heartbeatTimeoutNs := timeoutNs) && |slots| == |st.slots|
        invariant forall j :: 0 <= j < i ==> slots[j] == BaselineSlot(st.slots[j], now)
        invariant forall j :: i <= j < |slots| ==> slots[j] == st.slots[j]
      {
        slots := slots[i := BaselineSlot(slots[i], now)];
      }
      BaselineStep(st, cfg0, slots, cfg, now);
      IdsKnown(View(), cfg);
      FeedKeys(st);
      FeedKeys(View());
      forall f | f in Map()
        ensures Map()[f] == BaselineSlot(Feeds(st)[f], now)
      {
        FeedIndex(st, cfg0, f);
        FeedIndex(View(), cfg, f);
      }
    }

    // ---- Events ----

    /** Index bookkeeping, one alert and a scheduled reconnect for a connection that has just failed. */
    method OnConnectionFailed(index: nat, a: Answer)
      requires ConfigOk(cfg) && index < |slots|
      modifies this`slots, this`indexOfFd, this`interest
      ensures slots == old(slots)[index := FailSlot(old(slots)[index], cfg, a)]
      ensures indexOfFd == old(indexOfFd) - {Fd(old(slots)[index])}
      ensures interest == old(interest) - {Fd(old(slots)[index])}
    {
      var fd := slots[index].conn.fd;
      interest := interest - {fd};
      indexOfFd := indexOfFd - {fd};
      slots := slots[index := slots[index].(alerts := slots[index].alerts + 1)];
      ScheduleReconnectAt(index, a.clock, a.jitter);
    }

    method ScheduleReconnectAt(index: nat, now: Time, jitter: Jitter)
      requires ConfigOk(cfg) && index < |slots|
      modifies this`slots
      ensures slots == old(slots)[index := ScheduleReconnect(old(slots)[index], cfg, now, jitter)]
    {
      hide Backoff;
      var slot := slots[index];
      if cfg.maxReconnectAttempts >= 0 && slot.reconnectAttempts >= cfg.maxReconnectAttempts {
        slots := slots[index := slot.(giveUp := true)];
        return;
      }
      var delay := BackoffLoop(cfg.reconnectBaseDelayNs, cfg.reconnectMaxDelayNs, slot.reconnectAttempts);
      slots := slots[index := slot.(reconnectReadyAtNs := now + Jittered(delay, jitter),
                                    reconnectAttempts := slot.reconnectAttempts + 1)];
    }

    method SyncEpollInterest(index: nat)
      requires index < |slots|
      modifies this`interest
      ensures interest == old(interest)[Fd(slots[index]) := WantsWrite(slots[index].conn)]
    {
      interest := interest[slots[index].conn.fd := WantsWrite(slots[index].conn)];
    }

    /** One event of an epoll batch. An event for a descriptor removed earlier in the batch is skipped. */
    method Dispatch(fd: int, ev: SockEvent, now: Time, a: Answer)
      requires Valid()
      modifies this
      ensures Valid() && cfg == old(cfg) && open == old(open)
      ensures fd !in old(indexOfFd) ==> View() == old(View())
      ensures fd in old(indexOfFd) ==>
                var f := Id(old(slots)[old(indexOfFd)[fd]]);
                && f in old(Map()) && Fd(old(Map())[f]) == fd
                && stuck == old(stuck) - {f}
                && Map() == old(Map())[f := EventSlot(old(Map())[f], cfg, ev, now, a)]
    {
      if fd !in indexOfFd {
        return;
      }
      HandleConnectionEvent(indexOfFd[fd], ev, now, a);
    }

    method HandleConnectionEvent(index: nat, ev: SockEvent, now: Time, a: Answer)
      requires Valid() && index < |slots| && Watched(slots[index], stuck)
      modifies this
      ensures Valid() && cfg == old(cfg) && open == old(open)
      ensures
        var f := Id(old(slots)[index]);
        && f in old(Map()) && old(Map())[f] == old(slots)[index]
        && stuck == old(stuck) - {f}
        && Map() == old(Map())[f := EventSlot(old(slots)[index], cfg, ev, now, a)]
    {
      hide Indexed;
      hide IdsOk;
      hide Feeds;
      hide Id;
      hide Fd;
      hide SlotOk;
      hide EventConn;
      hide FailSlot;
      hide WantsWrite;
      ghost var st, s0 := View(), slots[index];
      EventStep(st, cfg, index, ev, now, a);
      EventParts(s0, cfg, ev, now, a);
      slots := slots[index := slots[index].(conn := EventConn(slots[index].conn, cfg, ev, now, a))];
      stuck := stuck - {Id(s0)};
      if slots[index].conn.state == Failed {
        OnConnectionFailed(index, a);
      } else {
        SyncEpollInterest(index);
      }
      assert View() == EventAt(st, cfg, index, ev, now, a);
    }

    // ---- The timer ----

    /** `initiate_connect`: a fresh socket and a rebind, or another wait. */
    method InitiateConnect(index: nat, now: Time, a: Answer)
      requires Valid() && index < |slots| && ReconnectDue(slots[index], now)
      modifies this
      ensures Valid() && TickedAt(index, now, a)
    {
      hide Indexed;
      hide IdsOk;
      hide Feeds;
      hide Id;
      hide Fd;
      hide SlotOk;
      hide TickSlot;
      hide PingFails;
      hide ScheduleReconnect;
      hide ReconnectDue;
      hide Rebind;
      hide WantsWrite;
      ghost var st, s0 := View(), slots[index];
      var fd := Socket(if a.socket.Some? then a.socket.value else 0);
      ConnectStep(st, cfg, index, now, a, fd);
      ConnectParts(s0, cfg, now, a, fd);
      slots := slots[index := slots[index].(reconnectReadyAtNs := -1)];
      if a.socket.None? {
        ScheduleReconnectAt(index, now, a.jitter);
      } else {
        var oldFd := slots[index].conn.fd;
        slots := slots[index := slots[index].(conn := Rebind(slots[index].conn, fd, now))];
        open := open - {oldFd} + {fd};  // UniqueFd::reset closes the old descriptor
        indexOfFd := indexOfFd[fd := index];
        interest := interest[fd := WantsWrite(slots[index].conn)];
      }
      assert View() == ConnectAt(st, cfg, index, now, a, fd);
    }

    /** What one slot's share of a tick does: that slot ticks, no other changes, and it becomes stuck
        exactly when its own PING failed it. */
    twostate predicate TickedAt(index: nat, now: Time, a: Answer)
      requires index < old(|slots|) && old(ConfigOk(cfg))
      reads this
    {
      && cfg == old(cfg) && indexOfFeedId == old(indexOfFeedId)
      && |slots| == old(|slots|) && slots == old(slots)[index := slots[index]]
      && slots[index] == TickSlot(old(slots[index]), cfg, now, a, Fd(slots[index]))
      && Id(slots[index]) == old(Id(slots[index]))
      && stuck == old(stuck) + if PingFails(old(slots[index]), cfg, now, a) then {Id(slots[index])} else {}
    }

    method TickLive(index: nat, now: Time, a: Answer)
      requires Valid() && index < |slots| && IsLive(slots[index].conn)
      modifies this
      ensures Valid() && TickedAt(index, now, a)
    {
      hide Indexed;
      hide IdsOk;
      hide Feeds;
      hide Id;
      hide Fd;
      hide SlotOk;
      hide PingSlot;
      hide CheckTimeout;
      hide FailSlot;
      hide TickSlot;
      hide PingFails;
      hide WantsWrite;
      ghost var st, s0 := View(), slots[index];
      TickLiveStep(st, cfg, index, now, a);
      LiveNotStuck(st, cfg, index);
      LiveParts(st, cfg, index, now, a);
      slots := slots[index := PingSlot(slots[index], cfg, now, a)];
      SyncEpollInterest(index);
      var (c, failedNow) := CheckTimeout(slots[index].conn, cfg, now);
      slots := slots[index := slots[index].(conn := c)];
      if failedNow {
        OnConnectionFailed(index, a);
      }
      if PingFails(s0, cfg, now, a) {
        stuck := stuck + {Id(s0)};
      }
      assert View() == TickLiveAt(st, cfg, index, now, a);
    }

    method TickAttempt(index: nat, now: Time, a: Answer)
      requires Valid() && index < |slots| && (slots[index].conn.state == Connecting || slots[index].conn.state == Handshaking)
      modifies this
      ensures Valid() && TickedAt(index, now, a)
    {
      hide Indexed;
      hide IdsOk;
      hide Feeds;
      hide Id;
      hide Fd;
      hide SlotOk;
      hide CheckTimeout;
      hide CheckSlot;
      hide FailSlot;
      hide TickSlot;
      hide PingFails;
      hide WantsWrite;
      ghost var st, s0 := View(), slots[index];
      TickAttemptStep(st, cfg, index, now, a);
      AttemptParts(s0, cfg, now, a);
      var (c, failedNow) := CheckTimeout(slots[index].conn, cfg, now);
      slots := slots[index := slots[index].(conn := c)];
      if failedNow {
        OnConnectionFailed(index, a);
        assert st.stuck - {Id(s0)} == st.stuck;
      }
      assert View() == TickAttemptAt(st, cfg, index, now, a);
    }

    method TickOne(index: nat, now: Time, a: Answer)
      requires Valid() && index < |slots|
      modifies this
      ensures Valid() && TickedAt(index, now, a)
    {
      var state := slots[index].conn.state;
      if state == Healthy || state == Degraded {
        TickLive(index, now, a);
      } else if state == Connecting || state == Handshaking {
        TickAttempt(index, now, a);
      } else if ReconnectDue(slots[index], now) {
        InitiateConnect(index, now, a);
      } else {
        IdsKnown(View(), cfg);
      }
    }

    /** A tick serves every slot once, in place, each with its own answers from the kernel. Every feed
        changes by its own tick and nothing else; the feeds newly stuck are exactly those whose PING failed
        them in this tick. */
    method OnTimerTick(now: Time, answers: uint32 -> Answer)
      requires Valid()
      modifies this
      ensures Valid() && cfg == old(cfg)
      ensures Map().Keys == old(Map()).Keys
      ensures forall f :: f in Map() ==>
                Map()[f] == TickSlot(old(Map())[f], cfg, now, answers(f), Fd(Map()[f]))
      ensures stuck == old(stuck) + set f | f in old(Map()) && PingFails(old(Map())[f], cfg, now, answers(f))
    {
      hide Indexed;
      hide IdsOk;
      hide Feeds;
      hide TickedUpTo;
      hide Failing;
      ghost var st, cfg0 := View(), cfg;
      IdsKnown(st, cfg0);
      TickedNone(slots, cfg, now, answers);
      for i := 0 to |slots|
        invariant Valid() && ConfigOk(cfg) && cfg == cfg0 && indexOfFeedId == st.byFeed && |slots| == |st.slots|
        invariant TickedUpTo(st.slots, slots, i, cfg, now, answers)
        invariant stuck == st.stuck + Failing(st.slots[..i], cfg, now, answers)
      {
        ghost var before := slots;
        var a := answers(slots[i].conn.feedId);
        TickOne(i, now, a);
        TickedOneMore(st.slots, before, slots, i, cfg, now, answers);
      }
      assert st.slots[..|slots|] == st.slots;
      TickedMap(st, View(), cfg, now, answers);
    }

    /** Counts slots by state. Reconnecting feeds are always among the failed ones. */
    method SnapshotStats() returns (healthy: nat, degraded: nat, failed: nat, reconnecting: nat)
      requires Valid()
      ensures healthy == CountState(slots, Healthy) && degraded == CountState(slots, Degraded)
      ensures failed == CountState(slots, Failed) && reconnecting == CountPending(slots)
      ensures reconnecting <= failed && healthy + degraded + failed <= |slots|
      ensures stuck == {} ==> |indexOfFd| + failed == |slots|
    {
      hide Indexed;
      healthy, degraded, failed, reconnecting := 0, 0, 0, 0;
      for i := 0 to |slots|
        invariant healthy == CountState(slots[..i], Healthy) && degraded == CountState(slots[..i], Degraded)
        invariant failed == CountState(slots[..i], Failed) && reconnecting == CountPending(slots[..i])
        invariant healthy + degraded + failed <= i
      {
        assert slots[..i + 1][..i] == slots[..i];
        match slots[i].conn.state {
          case Healthy => healthy := healthy + 1;
          case Degraded => degraded := degraded + 1;
          case Failed => failed := failed + 1;
          case _ =>
        }
        if slots[i].reconnectReadyAtNs >= 0 {
          reconnecting := reconnecting + 1;
        }
      }
      assert slots[..|slots|] == slots;
      SnapshotFacts(View(), cfg);
    }
  }

  lemma SnapshotFacts(st: Store, cfg: Config)
    requires Indexed(st, cfg)
    ensures CountPending(st.slots) <= CountState(st.slots, Failed)
    ensures st.stuck == {} ==> |st.byFd| + CountState(st.slots, Failed) == |st.slots|
  {
    PendingAmongFailed(st.slots, st.stuck, cfg);
    if st.stuck == {} {
      hide Indexed;
      IndexCount(st, cfg);
    }
  }

  // ---- Small facts the methods use ----

  /** The ids of the slots whose own PING fails them in this tick. */
  function Failing(slots: seq<Slot>, cfg: Config, now: Time, answers: uint32 -> Answer): (r: set<uint32>)
    decreases |slots|
  {
    if slots == [] then {}
    else
      var s := slots[|slots| - 1];
      Failing(slots[..|slots| - 1], cfg, now, answers) + if PingFails(s, cfg, now, answers(Id(s))) then {Id(s)} else {}
  }

  lemma {:induction false} FailingExact(slots: seq<Slot>, cfg: Config, now: Time, answers: uint32 -> Answer)
    ensures forall f :: f in Failing(slots, cfg, now, answers) <==>
              exists i :: 0 <= i < |slots| && Id(slots[i]) == f && PingFails(slots[i], cfg, now, answers(f))
    decreases |slots|
  {
    hide Id;
    hide PingFails;
    if slots != [] {
      var n := |slots| - 1;
      FailingExact(slots[..n], cfg, now, answers);
      forall f
        ensures f in Failing(slots, cfg, now, answers) <==>
                exists i :: 0 <= i < |slots| && Id(slots[i]) == f && PingFails(slots[i], cfg, now, answers(f))
      {
        if f in Failing(slots[..n], cfg, now, answers) {
          var i :| 0 <= i < n && Id(slots[..n][i]) == f && PingFails(slots[..n][i], cfg, now, answers(f));
          assert Id(slots[i]) == f && PingFails(slots[i], cfg, now, answers(f));
        }
        if i :| 0 <= i < |slots| && Id(slots[i]) == f && PingFails(slots[i], cfg, now, answers(f)) {
          if i < n {
            assert Id(slots[..n][i]) == f && PingFails(slots[..n][i], cfg, now, answers(f));
          }
        }
      }
    }
  }

  /** The first `n` slots have had their share of the tick, the others not. */
  predicate TickedUpTo(before: seq<Slot>, slots: seq<Slot>, n: nat, cfg: Config, now: Time, answers: uint32 -> Answer)
    requires ConfigOk(cfg)
  {
    && |slots| == |before| && n <= |slots|
    && (forall j :: 0 <= j < n ==>
          slots[j] == TickSlot(before[j], cfg, now, answers(Id(before[j])), Fd(slots[j])))
    && (forall j :: n <= j < |slots| ==> slots[j] == before[j])
  }

  lemma TickedNone(slots: seq<Slot>, cfg: Config, now: Time, answers: uint32 -> Answer)
    requires ConfigOk(cfg)
    ensures TickedUpTo(slots, slots, 0, cfg, now, answers)
    ensures Failing(slots[..0], cfg, now, answers) == {}
  {
    hide TickSlot;
  }

  lemma TickedOneMore(before: seq<Slot>, slots: seq<Slot>, slots': seq<Slot>, n: nat, cfg: Config, now: Time,
                      answers: uint32 -> Answer)
    requires ConfigOk(cfg) && n < |slots| && TickedUpTo(before, slots, n, cfg, now, answers)
    requires |slots'| == |slots| && slots' == slots[n := slots'[n]]
    requires slots'[n] == TickSlot(slots[n], cfg, now, answers(Id(slots[n])), Fd(slots'[n]))
    ensures TickedUpTo(before, slots', n + 1, cfg, now, answers)
    ensures slots[n] == before[n]
    ensures Failing(before[..n + 1], cfg, now, answers) ==
            Failing(before[..n], cfg, now, answers)
            + if PingFails(slots[n], cfg, now, answers(Id(slots[n]))) then {Id(slots[n])} else {}
  {
    hide TickSlot;
    hide PingFails;
    hide Id;
    hide Fd;
    assert before[..n + 1][..n] == before[..n];
  }

  /** From a slot-by-slot tick to a feed-by-feed one. */
  lemma TickedMap(st: Store, st': Store, cfg: Config, now: Time, answers: uint32 -> Answer)
    requires Indexed(st, cfg) && Indexed(st', cfg) && st'.byFeed == st.byFeed && |st'.slots| == |st.slots|
    requires ConfigOk(cfg) && IdsOk(st.slots, st.byFeed)
    requires TickedUpTo(st.slots, st'.slots, |st.slots|, cfg, now, answers)
    ensures IdsOk(st'.slots, st'.byFeed) && Feeds(st').Keys == Feeds(st).Keys
    ensures forall f :: f in Feeds(st') ==>
              Feeds(st')[f] == TickSlot(Feeds(st)[f], cfg, now, answers(f), Fd(Feeds(st')[f]))
    ensures Failing(st.slots, cfg, now, answers) ==
            set f | f in Feeds(st) && PingFails(Feeds(st)[f], cfg, now, answers(f))
  {
    hide Indexed;
    hide TickSlot;
    hide PingFails;
    hide Id;
    hide Fd;
    IdsKnown(st', cfg);
    FailingExact(st.slots, cfg, now, answers);
    hide Failing;
    forall f
      ensures f in Failing(st.slots, cfg, now, answers) <==> f in Feeds(st) && PingFails(Feeds(st)[f], cfg, now, answers(f))
    {
      if f in Feeds(st) {
        assert Id(st.slots[st.byFeed[f]]) == f;
      }
    }
  }

  lemma FeedKeys(st: Store)
    requires IdsOk(st.slots, st.byFeed)
    ensures Feeds(st).Keys == st.byFeed.Keys
  {}

  lemma FeedIndex(st: Store, cfg: Config, f: uint32)
    requires Indexed(st, cfg) && f in st.byFeed
    ensures IdsOk(st.slots, st.byFeed) && st.byFeed[f] < |st.slots| && Id(st.slots[st.byFeed[f]]) == f
    ensures f in Feeds(st) && Feeds(st)[f] == st.slots[st.byFeed[f]]
  {
    hide SlotOk;
    hide Id;
  }

  lemma NothingToRemove(st: Store, f: uint32)
    requires IdsOk(st.slots, st.byFeed) && f !in st.byFeed
    ensures f !in Feeds(st) && Feeds(st) - {f} == Feeds(st)
  {}

  lemma RemovedParts(st: Store, i: nat)
    requires i < |st.slots|
    ensures Removed(st, i).open == st.open - {Fd(st.slots[i])}
    ensures Removed(st, i).stuck == st.stuck - {Id(st.slots[i])}
  {}

  lemma DisconnectParts(s: Slot, cfg: Config, a: Answer)
    requires ConfigOk(cfg)
    ensures s.conn.state == Failed ==> ForceDisconnectSlot(s, cfg, a) == s
    ensures
      var s1 := s.(conn := OnHangupOrError(s.conn, a.clock));
      && Fd(s1) == Fd(s) && Id(s1) == Id(s) && Fd(FailSlot(s1, cfg, a)) == Fd(s) && Id(FailSlot(s1, cfg, a)) == Id(s)
      && (s.conn.state != Failed ==> ForceDisconnectSlot(s, cfg, a) == FailSlot(s1, cfg, a))
  {
    FailKept(s.(conn := OnHangupOrError(s.conn, a.clock)), cfg, a);
    hide FailSlot;
  }

  lemma EventParts(s: Slot, cfg: Config, ev: SockEvent, now: Time, a: Answer)
    requires ConfigOk(cfg)
    ensures
      var s1 := s.(conn := EventConn(s.conn, cfg, ev, now, a));
      && Fd(s1) == Fd(s) && Id(s1) == Id(s) && Fd(FailSlot(s1, cfg, a)) == Fd(s) && Id(FailSlot(s1, cfg, a)) == Id(s)
  {
    EventIdentity(s.conn, cfg, ev, now, a);
    hide EventConn;
    FailKept(s.(conn := EventConn(s.conn, cfg, ev, now, a)), cfg, a);
    hide FailSlot;
  }

  lemma AttemptParts(s: Slot, cfg: Config, now: Time, a: Answer)
    requires ConfigOk(cfg) && (s.conn.state == Connecting || s.conn.state == Handshaking)
    ensures
      var (c, failedNow) := CheckTimeout(s.conn, cfg, now);
      var s1 := s.(conn := c);
      && Fd(s1) == Fd(s) && Id(s1) == Id(s) && Fd(FailSlot(s1, cfg, a)) == Fd(s) && Id(FailSlot(s1, cfg, a)) == Id(s)
      && CheckSlot(s, cfg, now, a) == (if failedNow then FailSlot(s1, cfg, a) else s1)
      && (failedNow <==> CheckSlot(s, cfg, now, a).conn.state == Failed)
      && (forall fd {:trigger TickSlot(s, cfg, now, a, fd)} ::
            TickSlot(s, cfg, now, a, fd) == CheckSlot(s, cfg, now, a))
      && !PingFails(s, cfg, now, a)
  {
    CheckIdentity(s.conn, cfg, now);
    var (c, failedNow) := CheckTimeout(s.conn, cfg, now);
    FailKept(s.(conn := c), cfg, a);
    hide FailSlot;
    hide CheckTimeout;
  }

  lemma ConnectParts(s: Slot, cfg: Config, now: Time, a: Answer, fd: int)
    requires ConfigOk(cfg) && ReconnectDue(s, now)
    ensures
      var s1 := s.(reconnectReadyAtNs := -1);
      var r := ConnectSlot(s, cfg, now, a, fd);
      && Fd(s1) == Fd(s) && Id(s1) == Id(s)
      && s1.conn.fd == Fd(s)
      && r == TickSlot(s, cfg, now, a, Fd(r))
      && !PingFails(s, cfg, now, a)
  {
    hide ScheduleReconnect;
    hide CheckSlot;
    hide PingSlot;
  }

  lemma IdsKnown(st: Store, cfg: Config)
    requires Indexed(st, cfg)
    ensures IdsOk(st.slots, st.byFeed) && ConfigOk(cfg)
    ensures st.stuck <= st.byFeed.Keys
  {}

  /** A slot that has not failed is not stuck. */
  lemma LiveNotStuck(st: Store, cfg: Config, i: nat)
    requires Indexed(st, cfg) && i < |st.slots| && st.slots[i].conn.state != Failed
    ensures Id(st.slots[i]) !in st.stuck && SlotOk(st.slots[i], false, cfg) && ConfigOk(cfg)
  {
    assert SlotOk(st.slots[i], Id(st.slots[i]) in st.stuck, cfg);
  }

  lemma DueNotWatched(st: Store, cfg: Config, i: nat)
    requires Indexed(st, cfg) && i < |st.slots| && Pending(st.slots[i])
    ensures !Watched(st.slots[i], st.stuck)
  {
    assert SlotOk(st.slots[i], Id(st.slots[i]) in st.stuck, cfg);
  }

  /** An unwatched slot's descriptor is in neither the fd index nor the interest set. */
  lemma UnwatchedAbsent(st: Store, cfg: Config, i: nat)
    requires Indexed(st, cfg) && i < |st.slots| && !Watched(st.slots[i], st.stuck)
    ensures st.byFd - {Fd(st.slots[i])} == st.byFd && st.interest - {Fd(st.slots[i])} == st.interest
    ensures st.stuck - {Id(st.slots[i])} == st.stuck
  {
    hide SlotOk;
    hide WantsWrite;
  }

  lemma SameInterest(st: Store, cfg: Config, i: nat, w: bool)
    requires Indexed(st, cfg) && i < |st.slots| && Watched(st.slots[i], st.stuck) && w == WantsWrite(st.slots[i].conn)
    ensures st.interest[Fd(st.slots[i]) := w] == st.interest
  {
    hide SlotOk;
    hide WantsWrite;
  }

  lemma DropAgain(m: map<int, bool>, d: int, w: bool)
    ensures m[d := w] - {d} == m - {d}
  {}

  lemma FailKept(s: Slot, cfg: Config, a: Answer)
    requires ConfigOk(cfg)
    ensures FailSlot(s, cfg, a).conn == s.conn
  {
    hide Backoff;
    hide Jittered;
  }

  /** The two halves of a live slot's tick, as the code performs them. */
  lemma LiveParts(st: Store, cfg: Config, i: nat, now: Time, a: Answer)
    requires i < |st.slots| && ConfigOk(cfg) && IsLive(st.slots[i].conn)
    requires Id(st.slots[i]) !in st.stuck && SlotOk(st.slots[i], false, cfg)
    ensures
      var s0 := st.slots[i];
      var p := PingSlot(s0, cfg, now, a);
      var s := TickSlot(s0, cfg, now, a, Fd(s0));
      var (c, failedNow) := CheckTimeout(p.conn, cfg, now);
      && Fd(p) == Fd(s0) && Id(p) == Id(s0) && Fd(s) == Fd(s0) && Id(s) == Id(s0)
      && s == (if failedNow then FailSlot(p.(conn := c), cfg, a) else p.(conn := c))
      && (failedNow <==> !PingFails(s0, cfg, now, a) && s.conn.state == Failed)
      && st.interest[Fd(s0) := WantsWrite(p.conn)] - {Fd(s0)} == st.interest - {Fd(s0)}
      && (!failedNow ==> WantsWrite(s.conn) == WantsWrite(p.conn))
      && st.stuck - {Id(s0)} == st.stuck
      && Fd(FailSlot(p.(conn := c), cfg, a)) == Fd(s0) && Id(FailSlot(p.(conn := c), cfg, a)) == Id(s0)
      && Fd(p.(conn := c)) == Fd(s0) && Id(p.(conn := c)) == Id(s0)
  {
    var s0 := st.slots[i];
    var p := PingSlot(s0, cfg, now, a);
    LiveTickKeeps(s0, cfg, now, a, Fd(s0));
    PingIdentity(s0, cfg, now, a);
    hide SlotOk;
    hide PingSlot;
    CheckIdentity(p.conn, cfg, now);
    var (c, failedNow) := CheckTimeout(p.conn, cfg, now);
    hide CheckTimeout;
    hide FailSlot;
    FailKept(p.(conn := c), cfg, a);
    DropAgain(st.interest, Fd(s0), WantsWrite(p.conn));
  }

  lemma BaselineStep(st: Store, cfg: Config, slots: seq<Slot>, cfg': Config, now: Time)
    requires Indexed(st, cfg) && |slots| == |st.slots|
    requires cfg' == cfg.(heartbeatTimeoutNs := cfg'.heartbeatTimeoutNs)
    requires forall j :: 0 <= j < |slots| ==> slots[j] == BaselineSlot(st.slots[j], now)
    ensures Indexed(st.(slots := slots), cfg')
  {
    forall i | 0 <= i < |slots|
      ensures SlotOk(slots[i], Id(slots[i]) in st.stuck, cfg')
    {
      assert SlotOk(st.slots[i], Id(st.slots[i]) in st.stuck, cfg);
    }
    hide SlotOk;
    Reshaped(st, cfg, slots, cfg');
  }

  /** Arming an immediate reconnect is invisible to the indexes. */
  lemma ForcedShape(st: Store, cfg: Config, i: nat, s: Slot)
    requires Indexed(st, cfg) && i < |st.slots| && Id(st.slots[i]) !in st.stuck
    requires s == ForceReconnectSlot(st.slots[i]) && SlotOk(s, false, cfg)
    ensures Indexed(st.(slots := st.slots[i := s]), cfg)
  {
    hide SlotOk;
    Reshaped(st, cfg, st.slots[i := s], cfg);
  }
}
