/** The monitor's storage: a flat vector of slots, two hash indexes into it, the set of open connection
    descriptors and the epoll interest set. `Indexed` says when they agree with a plain map from feed id
    to slot; the lemmas say what each kind of change to the vector does to that agreement. */
module SlotStore {
  import opened Heartbeat
  import opened ConnectionModel
  import opened Slots

  /** `stuck` holds the feeds whose connection failed inside a tick's own PING and whose failure has
      not been handled: failed, yet still watched. It is empty exactly when the fd index is as documented. */
  datatype Store = Store(
    slots: seq<Slot>,
    byFd: map<int, nat>,
    byFeed: map<uint32, nat>,
    open: set<int>,
    interest: map<int, bool>,
    stuck: set<uint32>)

  function Id(s: Slot): (r: uint32) { s.conn.feedId }

  function Fd(s: Slot): (r: int) { s.conn.fd }

  predicate Watched(s: Slot, stuck: set<uint32>) {
    s.conn.state != Failed || Id(s) in stuck
  }

  /** The feed-id index is a bijection onto the slot positions. */
  predicate IdsOk(slots: seq<Slot>, byFeed: map<uint32, nat>) {
    && (forall i :: 0 <= i < |slots| ==> Id(slots[i]) in byFeed && byFeed[Id(slots[i])] == i)
    && (forall f :: f in byFeed ==> byFeed[f] < |slots| && Id(slots[byFeed[f]]) == f)
  }

  /** Slots own distinct descriptors, and those are exactly the open ones. */
  predicate FdsOk(slots: seq<Slot>, open: set<int>) {
    && (forall i :: 0 <= i < |slots| ==> Fd(slots[i]) in open)
    && (forall i, j :: 0 <= i < j < |slots| ==> Fd(slots[i]) != Fd(slots[j]))
    && (forall d :: d in open ==> exists i :: 0 <= i < |slots| && Fd(slots[i]) == d)
  }

  /** The fd index maps exactly the watched slots' descriptors to their current positions. */
  predicate MappedOk(slots: seq<Slot>, byFd: map<int, nat>, stuck: set<uint32>) {
    && (forall i :: 0 <= i < |slots| && Watched(slots[i], stuck) ==> Fd(slots[i]) in byFd && byFd[Fd(slots[i])] == i)
    && (forall d :: d in byFd ==> byFd[d] < |slots| && Fd(slots[byFd[d]]) == d && Watched(slots[byFd[d]], stuck))
  }

  /** EPOLLOUT is armed exactly for the registered connections that want to write. */
  predicate InterestOk(slots: seq<Slot>, byFd: map<int, nat>, interest: map<int, bool>) {
    && interest.Keys == byFd.Keys
    && (forall d :: d in byFd ==> byFd[d] < |slots| && interest[d] == WantsWrite(slots[byFd[d]].conn))
  }

  predicate SlotsOk(slots: seq<Slot>, stuck: set<uint32>, cfg: Config) {
    forall i :: 0 <= i < |slots| ==> SlotOk(slots[i], Id(slots[i]) in stuck, cfg)
  }

  predicate Indexed(st: Store, cfg: Config) {
    && ConfigOk(cfg)
    && IdsOk(st.slots, st.byFeed)
    && FdsOk(st.slots, st.open)
    && MappedOk(st.slots, st.byFd, st.stuck)
    && InterestOk(st.slots, st.byFd, st.interest)
    && SlotsOk(st.slots, st.stuck, cfg)
    && st.stuck <= st.byFeed.Keys
  }

  /** The plain map the store stands for. */
  function Feeds(st: Store): (r: map<uint32, Slot>)
    requires IdsOk(st.slots, st.byFeed)
  {
    map f | f in st.byFeed :: st.slots[st.byFeed[f]]
  }

  // ---- Replacing one slot ----

  lemma ReplaceIds(st: Store, i: nat, s: Slot)
    requires IdsOk(st.slots, st.byFeed) && i < |st.slots| && Id(s) == Id(st.slots[i])
    ensures IdsOk(st.slots[i := s], st.byFeed)
    ensures Feeds(st.(slots := st.slots[i := s])) == Feeds(st)[Id(s) := s]
  {
    hide Id;
  }

  /** Positions other than `i` see no difference between two stuck sets. */
  predicate SameElsewhere(slots: seq<Slot>, i: nat, stuck: set<uint32>, stuck': set<uint32>) {
    forall j :: 0 <= j < |slots| && j != i ==> (Id(slots[j]) in stuck' <==> Id(slots[j]) in stuck)
  }

  lemma ElsewhereById(st: Store, i: nat, stuck: set<uint32>)
    requires IdsOk(st.slots, st.byFeed) && i < |st.slots|
    requires stuck - {Id(st.slots[i])} == st.stuck - {Id(st.slots[i])}
    ensures SameElsewhere(st.slots, i, st.stuck, stuck)
  {
    hide Id;
    forall j | 0 <= j < |st.slots| && j != i
      ensures Id(st.slots[j]) in stuck <==> Id(st.slots[j]) in st.stuck
    {
      var f, g := Id(st.slots[j]), Id(st.slots[i]);
      assert st.byFeed[f] != st.byFeed[g];
      assert f in stuck <==> f in stuck - {g};
      assert f in st.stuck <==> f in st.stuck - {g};
    }
  }

  lemma ReplaceSlots(slots: seq<Slot>, stuck: set<uint32>, cfg: Config, i: nat, s: Slot, stuck': set<uint32>)
    requires SlotsOk(slots, stuck, cfg) && i < |slots| && SameElsewhere(slots, i, stuck, stuck')
    requires SlotOk(s, Id(s) in stuck', cfg)
    ensures SlotsOk(slots[i := s], stuck', cfg)
  {
    hide SlotOk;
    hide Id;
  }

  lemma SameFds(slots: seq<Slot>, open: set<int>, i: nat, s: Slot)
    requires FdsOk(slots, open) && i < |slots| && Fd(s) == Fd(slots[i])
    ensures FdsOk(slots[i := s], open)
  {
    hide Fd;
    var slots' := slots[i := s];
    assert forall j :: 0 <= j < |slots| ==> Fd(slots'[j]) == Fd(slots[j]);
    forall d | d in open
      ensures exists j :: 0 <= j < |slots'| && Fd(slots'[j]) == d
    {
      var j :| 0 <= j < |slots| && Fd(slots[j]) == d;
      assert Fd(slots'[j]) == d;
    }
  }

  /** What `Watched` reads of a slot elsewhere is unchanged. */
  lemma WatchedElsewhere(slots: seq<Slot>, i: nat, stuck: set<uint32>, stuck': set<uint32>)
    requires SameElsewhere(slots, i, stuck, stuck')
    ensures forall j :: 0 <= j < |slots| && j != i ==> (Watched(slots[j], stuck') <==> Watched(slots[j], stuck))
  {
    hide Id;
  }

  lemma StillMapped(slots: seq<Slot>, byFd: map<int, nat>, stuck: set<uint32>, i: nat, s: Slot, stuck': set<uint32>)
    requires MappedOk(slots, byFd, stuck) && i < |slots| && SameElsewhere(slots, i, stuck, stuck')
    requires Watched(slots[i], stuck) && Watched(s, stuck') && Fd(s) == Fd(slots[i])
    ensures MappedOk(slots[i := s], byFd, stuck')
  {
    WatchedElsewhere(slots, i, stuck, stuck');
    hide Watched;
    hide Fd;
  }

  lemma NewInterest(slots: seq<Slot>, byFd: map<int, nat>, stuck: set<uint32>, interest: map<int, bool>, i: nat, s: Slot)
    requires MappedOk(slots, byFd, stuck) && InterestOk(slots, byFd, interest) && i < |slots|
    requires Watched(slots[i], stuck) && Fd(s) == Fd(slots[i])
    ensures InterestOk(slots[i := s], byFd, interest[Fd(s) := WantsWrite(s.conn)])
  {
    hide Watched;
    hide WantsWrite;
    hide Fd;
    var interest' := interest[Fd(s) := WantsWrite(s.conn)];
    assert interest'.Keys == interest.Keys;
    forall d | d in byFd
      ensures interest'[d] == WantsWrite(slots[i := s][byFd[d]].conn)
    {
      assert byFd[d] == i <==> d == Fd(s);
    }
  }

  /** The slot keeps its descriptor and stays watched. */
  lemma ReplaceWatched(st: Store, cfg: Config, i: nat, s: Slot, stuck: set<uint32>)
    requires Indexed(st, cfg) && i < |st.slots| && Watched(st.slots[i], st.stuck)
    requires Id(s) == Id(st.slots[i]) && Fd(s) == Fd(st.slots[i])
    requires stuck - {Id(s)} == st.stuck - {Id(s)} && Watched(s, stuck) && SlotOk(s, Id(s) in stuck, cfg)
    ensures Indexed(st.(slots := st.slots[i := s], interest := st.interest[Fd(s) := WantsWrite(s.conn)],
                        stuck := stuck), cfg)
    ensures Feeds(st.(slots := st.slots[i := s])) == Feeds(st)[Id(s) := s]
  {
    hide IdsOk;
    hide FdsOk;
    hide MappedOk;
    hide InterestOk;
    hide SlotsOk;
    hide SlotOk;
    hide ConfigOk;
    hide Watched;
    hide WantsWrite;
    hide Id;
    hide Fd;
    ReplaceIds(st, i, s);
    ElsewhereById(st, i, stuck);
    SameFds(st.slots, st.open, i, s);
    StillMapped(st.slots, st.byFd, st.stuck, i, s, stuck);
    NewInterest(st.slots, st.byFd, st.stuck, st.interest, i, s);
    ReplaceSlots(st.slots, st.stuck, cfg, i, s, stuck);
    IdKnown(st, i);
    forall f | f in stuck
      ensures f in st.byFeed
    {
      if f != Id(s) {
        assert f in stuck - {Id(s)};
      }
    }
  }

  lemma IdKnown(st: Store, i: nat)
    requires IdsOk(st.slots, st.byFeed) && i < |st.slots|
    ensures Id(st.slots[i]) in st.byFeed
  {
    hide Id;
  }

  lemma Unmapped(slots: seq<Slot>, open: set<int>, byFd: map<int, nat>, stuck: set<uint32>, i: nat, s: Slot, stuck': set<uint32>)
    requires FdsOk(slots, open) && MappedOk(slots, byFd, stuck) && i < |slots| && SameElsewhere(slots, i, stuck, stuck')
    requires !Watched(s, stuck') && Fd(s) == Fd(slots[i])
    ensures MappedOk(slots[i := s], byFd - {Fd(s)}, stuck')
  {
    WatchedElsewhere(slots, i, stuck, stuck');
    hide Watched;
    hide Fd;
    var slots', byFd' := slots[i := s], byFd - {Fd(s)};
    forall j | 0 <= j < |slots'| && Watched(slots'[j], stuck')
      ensures Fd(slots'[j]) in byFd' && byFd'[Fd(slots'[j])] == j
    {
      assert j != i;
      assert Fd(slots[j]) != Fd(slots[i]);
    }
    forall d | d in byFd'
      ensures byFd'[d] < |slots'| && Fd(slots'[byFd'[d]]) == d && Watched(slots'[byFd'[d]], stuck')
    {
      assert byFd[d] != i;
    }
  }

  lemma DropInterest(slots: seq<Slot>, byFd: map<int, nat>, stuck: set<uint32>, interest: map<int, bool>, i: nat, s: Slot)
    requires MappedOk(slots, byFd, stuck) && InterestOk(slots, byFd, interest) && i < |slots| && Fd(s) == Fd(slots[i])
    ensures InterestOk(slots[i := s], byFd - {Fd(s)}, interest - {Fd(s)})
  {
    hide Watched;
    hide WantsWrite;
    hide Fd;
    var byFd' := byFd - {Fd(s)};
    assert (interest - {Fd(s)}).Keys == byFd'.Keys;
    forall d | d in byFd'
      ensures byFd[d] != i
    {
      assert Fd(slots[byFd[d]]) == d;
    }
  }

  /** The slot keeps its descriptor but is a handled failure from now on: unwatched. */
  lemma ReplaceFailed(st: Store, cfg: Config, i: nat, s: Slot)
    requires Indexed(st, cfg) && i < |st.slots|
    requires Id(s) == Id(st.slots[i]) && Fd(s) == Fd(st.slots[i])
    requires s.conn.state == Failed && SlotOk(s, false, cfg)
    ensures Indexed(st.(slots := st.slots[i := s], byFd := st.byFd - {Fd(s)}, interest := st.interest - {Fd(s)},
                        stuck := st.stuck - {Id(s)}), cfg)
    ensures Feeds(st.(slots := st.slots[i := s])) == Feeds(st)[Id(s) := s]
  {
    var stuck := st.stuck - {Id(s)};
    assert !Watched(s, stuck);
    hide IdsOk;
    hide FdsOk;
    hide MappedOk;
    hide InterestOk;
    hide SlotsOk;
    hide SlotOk;
    hide ConfigOk;
    hide Watched;
    hide WantsWrite;
    hide Id;
    hide Fd;
    ReplaceIds(st, i, s);
    ElsewhereById(st, i, stuck);
    SameFds(st.slots, st.open, i, s);
    Unmapped(st.slots, st.open, st.byFd, st.stuck, i, s, stuck);
    DropInterest(st.slots, st.byFd, st.stuck, st.interest, i, s);
    ReplaceSlots(st.slots, st.stuck, cfg, i, s, stuck);
  }

  lemma ReboundFds(slots: seq<Slot>, open: set<int>, i: nat, s: Slot)
    requires FdsOk(slots, open) && i < |slots| && Fd(s) !in open
    ensures FdsOk(slots[i := s], open - {Fd(slots[i])} + {Fd(s)})
  {
    hide Fd;
    var slots', open' := slots[i := s], open - {Fd(slots[i])} + {Fd(s)};
    assert forall j :: 0 <= j < |slots| && j != i ==> slots'[j] == slots[j];
    forall d | d in open'
      ensures exists j :: 0 <= j < |slots'| && Fd(slots'[j]) == d
    {
      if d == Fd(s) {
        assert Fd(slots'[i]) == d;
      } else {
        var j :| 0 <= j < |slots| && Fd(slots[j]) == d;
        assert Fd(slots'[j]) == d;
      }
    }
  }

  /** A closed descriptor is not in the fd index. */
  lemma ClosedUnmapped(slots: seq<Slot>, open: set<int>, byFd: map<int, nat>, stuck: set<uint32>, d: int)
    requires FdsOk(slots, open) && MappedOk(slots, byFd, stuck) && d !in open
    ensures d !in byFd
  {
    hide Watched;
    hide Fd;
  }

  lemma Remapped(slots: seq<Slot>, byFd: map<int, nat>, stuck: set<uint32>, interest: map<int, bool>, i: nat, s: Slot)
    requires MappedOk(slots, byFd, stuck) && InterestOk(slots, byFd, interest) && i < |slots|
    requires !Watched(slots[i], stuck) && Watched(s, stuck) && Fd(s) !in byFd
    requires forall j :: 0 <= j < |slots| ==> Fd(slots[j]) != Fd(s)
    ensures MappedOk(slots[i := s], byFd[Fd(s) := i], stuck)
    ensures InterestOk(slots[i := s], byFd[Fd(s) := i], interest[Fd(s) := WantsWrite(s.conn)])
  {
    hide Watched;
    hide WantsWrite;
    hide Fd;
    var slots', byFd' := slots[i := s], byFd[Fd(s) := i];
    forall d | d in byFd
      ensures byFd[d] != i && d != Fd(s)
    {
      assert Watched(slots[byFd[d]], stuck);
    }
    assert byFd'.Keys == byFd.Keys + {Fd(s)};
  }

  lemma FreshFd(slots: seq<Slot>, open: set<int>, d: int)
    requires FdsOk(slots, open) && d !in open
    ensures forall j :: 0 <= j < |slots| ==> Fd(slots[j]) != d
  {
    hide Fd;
  }

  /** A handled failure moves to a fresh descriptor and is watched again. */
  lemma ReplaceRebound(st: Store, cfg: Config, i: nat, s: Slot)
    requires Indexed(st, cfg) && i < |st.slots| && !Watched(st.slots[i], st.stuck)
    requires Id(s) == Id(st.slots[i]) && Fd(s) !in st.open
    requires s.conn.state != Failed && SlotOk(s, false, cfg)
    ensures Indexed(st.(slots := st.slots[i := s], byFd := st.byFd[Fd(s) := i],
                        interest := st.interest[Fd(s) := WantsWrite(s.conn)],
                        open := st.open - {Fd(st.slots[i])} + {Fd(s)}), cfg)
    ensures Feeds(st.(slots := st.slots[i := s])) == Feeds(st)[Id(s) := s]
  {
    assert Watched(s, st.stuck) && Id(s) !in st.stuck;
    hide IdsOk;
    hide FdsOk;
    hide MappedOk;
    hide InterestOk;
    hide SlotsOk;
    hide SlotOk;
    hide ConfigOk;
    hide Watched;
    hide WantsWrite;
    hide Id;
    hide Fd;
    ReplaceIds(st, i, s);
    ElsewhereById(st, i, st.stuck);
    ReboundFds(st.slots, st.open, i, s);
    FreshFd(st.slots, st.open, Fd(s));
    ClosedUnmapped(st.slots, st.open, st.byFd, st.stuck, Fd(s));
    Remapped(st.slots, st.byFd, st.stuck, st.interest, i, s);
    ReplaceSlots(st.slots, st.stuck, cfg, i, s, st.stuck);
  }

  // ---- Adding and removing ----

  lemma PushedIds(st: Store, s: Slot)
    requires IdsOk(st.slots, st.byFeed) && Id(s) !in st.byFeed
    ensures
      var st' := st.(slots := st.slots + [s], byFeed := st.byFeed[Id(s) := |st.slots|]);
      IdsOk(st'.slots, st'.byFeed) && Feeds(st') == Feeds(st)[Id(s) := s]
  {
    hide Id;
  }

  lemma PushedFds(slots: seq<Slot>, open: set<int>, s: Slot)
    requires FdsOk(slots, open) && Fd(s) !in open
    ensures FdsOk(slots + [s], open + {Fd(s)})
  {
    hide Fd;
    var slots' := slots + [s];
    forall d | d in open + {Fd(s)}
      ensures exists j :: 0 <= j < |slots'| && Fd(slots'[j]) == d
    {
      if d == Fd(s) {
        assert Fd(slots'[|slots|]) == d;
      } else {
        var j :| 0 <= j < |slots| && Fd(slots[j]) == d;
        assert Fd(slots'[j]) == d;
      }
    }
  }

  lemma PushedMapped(slots: seq<Slot>, byFd: map<int, nat>, stuck: set<uint32>, interest: map<int, bool>, s: Slot)
    requires MappedOk(slots, byFd, stuck) && InterestOk(slots, byFd, interest)
    requires Watched(s, stuck) && Fd(s) !in byFd
    requires forall j :: 0 <= j < |slots| ==> Fd(slots[j]) != Fd(s)
    ensures MappedOk(slots + [s], byFd[Fd(s) := |slots|], stuck)
    ensures InterestOk(slots + [s], byFd[Fd(s) := |slots|], interest[Fd(s) := WantsWrite(s.conn)])
  {
    hide Watched;
    hide WantsWrite;
    hide Fd;
    assert byFd[Fd(s) := |slots|].Keys == byFd.Keys + {Fd(s)};
  }

  lemma Pushed(st: Store, cfg: Config, s: Slot)
    requires Indexed(st, cfg) && Id(s) !in st.byFeed && Fd(s) !in st.open
    requires s.conn.state != Failed && SlotOk(s, false, cfg)
    ensures
      var n := |st.slots|;
      var st' := Store(st.slots + [s], st.byFd[Fd(s) := n], st.byFeed[Id(s) := n], st.open + {Fd(s)},
                       st.interest[Fd(s) := WantsWrite(s.conn)], st.stuck);
      Indexed(st', cfg) && Feeds(st') == Feeds(st)[Id(s) := s]
  {
    assert Watched(s, st.stuck) && Id(s) !in st.stuck;
    hide IdsOk;
    hide FdsOk;
    hide MappedOk;
    hide InterestOk;
    hide SlotOk;
    hide ConfigOk;
    hide Watched;
    hide WantsWrite;
    hide Id;
    hide Fd;
    PushedIds(st, s);
    PushedFds(st.slots, st.open, s);
    FreshFd(st.slots, st.open, Fd(s));
    ClosedUnmapped(st.slots, st.open, st.byFd, st.stuck, Fd(s));
    PushedMapped(st.slots, st.byFd, st.stuck, st.interest, s);
  }

  /** The vector after swap-and-pop at `i`. */
  function SwapPop(slots: seq<Slot>, i: nat): (r: seq<Slot>)
    requires i < |slots|
  {
    var last := |slots| - 1;
    if i == last then slots[..last] else slots[..last][i := slots[last]]
  }

  /** The indexes as `remove_slot_at` leaves them: the moved slot's fd entry is rewritten only when its
      connection has not failed. */
  function Removed(st: Store, i: nat): (r: Store)
    requires i < |st.slots|
  {
    var gone, last := st.slots[i], |st.slots| - 1;
    var byFd, byFeed := st.byFd - {Fd(gone)}, st.byFeed - {Id(gone)};
    var moved := st.slots[last];
    Store(
      SwapPop(st.slots, i),
      if i != last && moved.conn.state != Failed then byFd[Fd(moved) := i] else byFd,
      if i != last then byFeed[Id(moved) := i] else byFeed,
      st.open - {Fd(gone)},
      st.interest - {Fd(gone)},
      st.stuck - {Id(gone)})
  }

  /** The removal moves a slot whose failure is unhandled. */
  predicate MovesStuck(st: Store, i: nat)
    requires i < |st.slots|
  {
    i != |st.slots| - 1 && Id(st.slots[|st.slots| - 1]) in st.stuck
  }

  /** Where each surviving slot was before. */
  function Origin(n: nat, i: nat, j: nat): (r: nat)
    requires j < n - 1
  {
    if j == i then n - 1 else j
  }

  lemma SwapPopAt(slots: seq<Slot>, i: nat)
    requires i < |slots|
    ensures |SwapPop(slots, i)| == |slots| - 1
    ensures forall j :: 0 <= j < |slots| - 1 ==> SwapPop(slots, i)[j] == slots[Origin(|slots|, i, j)]
  {}

  lemma RemovedIds(st: Store, i: nat)
    requires IdsOk(st.slots, st.byFeed) && i < |st.slots|
    ensures IdsOk(Removed(st, i).slots, Removed(st, i).byFeed)
    ensures Feeds(Removed(st, i)) == Feeds(st) - {Id(st.slots[i])}
    ensures Removed(st, i).byFeed.Keys == st.byFeed.Keys - {Id(st.slots[i])}
  {
    hide Id;
    var last := |st.slots| - 1;
    var r := Removed(st, i);
    SwapPopAt(st.slots, i);
    hide SwapPop;
    assert r.byFeed.Keys == st.byFeed.Keys - {Id(st.slots[i])};
    forall f | f in r.byFeed
      ensures r.byFeed[f] < |r.slots| && Id(r.slots[r.byFeed[f]]) == f
      ensures r.slots[r.byFeed[f]] == st.slots[st.byFeed[f]]
    {
      assert st.byFeed[f] != i;
      if st.byFeed[f] == last {
        assert f == Id(st.slots[last]) && r.byFeed[f] == i;
      } else {
        assert f != Id(st.slots[last]);
      }
    }
    forall j | 0 <= j < |r.slots|
      ensures Id(r.slots[j]) in r.byFeed && r.byFeed[Id(r.slots[j])] == j
    {
      var k := Origin(|st.slots|, i, j);
      assert st.byFeed[Id(st.slots[k])] == k;
    }
  }

  lemma RemovedFds(st: Store, i: nat)
    requires FdsOk(st.slots, st.open) && i < |st.slots|
    ensures FdsOk(Removed(st, i).slots, Removed(st, i).open)
  {
    hide Fd;
    var last := |st.slots| - 1;
    var r := Removed(st, i);
    SwapPopAt(st.slots, i);
    hide SwapPop;
    forall d | d in r.open
      ensures exists j :: 0 <= j < |r.slots| && Fd(r.slots[j]) == d
    {
      var j :| 0 <= j < |st.slots| && Fd(st.slots[j]) == d;
      assert j != i;
      if j == last {
        assert Fd(r.slots[i]) == d;
      } else {
        assert Fd(r.slots[j]) == d;
      }
    }
  }

  /** Where the fd index sends a surviving descriptor after the removal. */
  lemma RemovedEntry(st: Store, i: nat, d: int)
    requires FdsOk(st.slots, st.open) && MappedOk(st.slots, st.byFd, st.stuck)
    requires i < |st.slots| && !MovesStuck(st, i) && d in Removed(st, i).byFd
    ensures
      var r := Removed(st, i);
      && d in st.byFd && d != Fd(st.slots[i])
      && r.byFd[d] < |st.slots| - 1 && Origin(|st.slots|, i, r.byFd[d]) == st.byFd[d]
  {
    hide Fd;
    hide Id;
    var last := |st.slots| - 1;
    var moved := st.slots[last];
    if i != last && moved.conn.state != Failed && d == Fd(moved) {
      assert Watched(moved, st.stuck);
    } else {
      assert d in st.byFd && Fd(st.slots[st.byFd[d]]) == d;
      assert Watched(st.slots[st.byFd[d]], st.stuck);
    }
  }

  lemma RemovedMapped(st: Store, i: nat)
    requires IdsOk(st.slots, st.byFeed) && FdsOk(st.slots, st.open) && MappedOk(st.slots, st.byFd, st.stuck)
    requires InterestOk(st.slots, st.byFd, st.interest)
    requires i < |st.slots| && !MovesStuck(st, i)
    ensures
      var r := Removed(st, i);
      MappedOk(r.slots, r.byFd, r.stuck) && InterestOk(r.slots, r.byFd, r.interest)
  {
    hide WantsWrite;
    hide IdsOk;
    hide Id;
    hide Fd;
    var n := |st.slots|;
    var r := Removed(st, i);
    SwapPopAt(st.slots, i);
    OtherIds(st, i);
    hide SwapPop;
    forall j | 0 <= j < |r.slots| && Watched(r.slots[j], r.stuck)
      ensures Fd(r.slots[j]) in r.byFd && r.byFd[Fd(r.slots[j])] == j
    {
      var k := Origin(n, i, j);
      assert k != i && Watched(st.slots[k], st.stuck);
      assert Fd(st.slots[k]) != Fd(st.slots[i]);
    }
    forall d | d in r.byFd
      ensures r.byFd[d] < |r.slots| && Fd(r.slots[r.byFd[d]]) == d && Watched(r.slots[r.byFd[d]], r.stuck)
      ensures d in r.interest && r.interest[d] == WantsWrite(r.slots[r.byFd[d]].conn)
    {
      RemovedEntry(st, i, d);
    }
    RemovedKeys(st, i);
  }

  lemma RemovedKeys(st: Store, i: nat)
    requires FdsOk(st.slots, st.open) && MappedOk(st.slots, st.byFd, st.stuck) && st.interest.Keys == st.byFd.Keys
    requires i < |st.slots|
    ensures Removed(st, i).interest.Keys == Removed(st, i).byFd.Keys
  {
    hide Fd;
    var last := |st.slots| - 1;
    if i != last && st.slots[last].conn.state != Failed {
      assert Watched(st.slots[last], st.stuck);
      assert Fd(st.slots[last]) != Fd(st.slots[i]);
    }
    assert Removed(st, i).byFd.Keys == st.byFd.Keys - {Fd(st.slots[i])};
  }

  lemma OtherIds(st: Store, i: nat)
    requires IdsOk(st.slots, st.byFeed) && i < |st.slots|
    ensures forall j :: 0 <= j < |st.slots| && j != i ==>
              (Id(st.slots[j]) in Removed(st, i).stuck <==> Id(st.slots[j]) in st.stuck)
  {
    forall j | 0 <= j < |st.slots| && j != i
      ensures Id(st.slots[j]) != Id(st.slots[i])
    {
      assert st.byFeed[Id(st.slots[j])] == j;
    }
  }

  lemma RemovedSlots(st: Store, cfg: Config, i: nat)
    requires IdsOk(st.slots, st.byFeed) && SlotsOk(st.slots, st.stuck, cfg) && i < |st.slots|
    ensures SlotsOk(Removed(st, i).slots, Removed(st, i).stuck, cfg)
  {
    hide SlotOk;
    hide Id;
    OtherIds(st, i);
    SwapPopAt(st.slots, i);
    var r := Removed(st, i);
    forall j | 0 <= j < |r.slots|
      ensures SlotOk(r.slots[j], Id(r.slots[j]) in r.stuck, cfg)
    {
      assert Origin(|st.slots|, i, j) != i;
    }
  }

  /** Swap-and-pop keeps the indexes exact, and removes exactly the addressed feed, unless it moves a slot
      whose failure is unhandled; then the fd index is left pointing past the end of the vector. */
  lemma RemoveExactly(st: Store, cfg: Config, i: nat)
    requires Indexed(st, cfg) && i < |st.slots|
    ensures Indexed(Removed(st, i), cfg) <==> !MovesStuck(st, i)
    ensures IdsOk(Removed(st, i).slots, Removed(st, i).byFeed)
    ensures Feeds(Removed(st, i)) == Feeds(st) - {Id(st.slots[i])}
    ensures MovesStuck(st, i) ==>
              exists d :: d in Removed(st, i).byFd && Removed(st, i).byFd[d] == |Removed(st, i).slots|
  {
    hide SlotOk;
    hide WantsWrite;
    hide ConfigOk;
    hide Id;
    hide Fd;
    hide IdsOk;
    hide FdsOk;
    hide InterestOk;
    hide SlotsOk;
    hide Watched;
    hide SwapPop;
    RemovedIds(st, i);
    RemovedFds(st, i);
    RemovedSlots(st, cfg, i);
    if MovesStuck(st, i) {
      StaleEntry(st, cfg, i);
    } else {
      hide MappedOk;
      RemovedMapped(st, i);
    }
  }

  lemma StaleEntry(st: Store, cfg: Config, i: nat)
    requires Indexed(st, cfg) && i < |st.slots| && MovesStuck(st, i)
    ensures
      var d := Fd(st.slots[|st.slots| - 1]);
      d in Removed(st, i).byFd && Removed(st, i).byFd[d] == |Removed(st, i).slots|
  {
    var last := |st.slots| - 1;
    assert SlotOk(st.slots[last], true, cfg);
    assert Fd(st.slots[last]) != Fd(st.slots[i]);
    assert Watched(st.slots[last], st.stuck);
  }
}
