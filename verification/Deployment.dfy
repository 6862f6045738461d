/** The whole system: a monitor with all its feeds, and for each feed id a simulator with whatever clients it has. The
    current attempt of a feed, and every attempt it has left behind, is joined to at most one of those clients; the
    other clients are strangers that may send anything. The safety of the two-party system holds of every such pair
    in every reachable state, whatever the kernel, the fault injection, the operators and the timers do. */
module Deployment {
  import opened Heartbeat
  import opened ConnectionModel
  import opened Slots
  import opened SlotStore
  import opened PlainMonitor
  import Protocol
  import PR = ProtocolRuns
  import FS = FeedSimulatorClass
  import PingHistory
  import Integration
  import SP = SimProjection
  import opened Pairs
  import Pacing
  import MR = MonitorRuns

  // ---- The client at the other end ----

  /** Not accepted yet, a client of the simulator, or gone from it with what it had written. */
  datatype Link = Unaccepted | Served(fd: int) | Left(conn: Conn)

  predicate LinkOk(sim: FS.Sim, link: Link) {
    link.Served? ==> link.fd in sim.clients
  }

  function PeerOf(sim: FS.Sim, link: Link): (r: PR.Peer)
    requires LinkOk(sim, link)
  {
    match link
    case Unaccepted => PR.Absent
    case Served(fd) => Integration.Seen(sim, fd)
    case Left(c) => PR.Gone(c)
  }

  /** The link after an operation of the simulator; `accepted` says that this is the connection it accepted. */
  function LinkNext(sim: FS.Sim, cfg: Config, op: FS.SimOp, link: Link, accepted: bool): (r: Link) {
    match link
    case Unaccepted => if accepted && op.Accept? then Served(op.fd) else link
    case Served(fd) =>
      if fd in sim.clients && fd !in FS.SimStep(sim, cfg, op).clients then
        var p := SP.AfterMoves(Integration.Seen(sim, fd), SP.LinkMoves(sim, cfg, op, fd));
        if p.Absent? then Unaccepted else Left(p.conn)
      else link
    case Left(_) => link
  }

  /** What an operation of the simulator needs of one pair: the bytes its client reads are the initiator's, and the
      connection it accepts is one that was still waiting. */
  predicate LinkFed(sim: FS.Sim, op: FS.SimOp, link: Link, accepted: bool, ini: Conn)
    requires LinkOk(sim, link)
  {
    && (link.Served? ==> SP.Fed(sim, op, link.fd, ini))
    && (accepted && op.Accept? ==> link.Unaccepted? && op.feedId == ini.feedId)
  }

  lemma AcceptedSeen(sim: FS.Sim, cfg: Config, op: FS.SimOp)
    requires FS.SimOk(sim) && op.Accept? && op.fd !in sim.clients
    ensures
      var r := FS.SimStep(sim, cfg, op);
      op.fd in r.clients && Integration.Seen(r, op.fd) == PR.Alive(NewConn(op.fd, Responder, op.feedId, op.clock), [])
  {
    hide FS.SimOk;
    FS.NoneFor(sim, op.fd);
    NothingDeferred(sim.pending, op.fd);
  }

  lemma {:induction false} NothingDeferred(pending: seq<FS.PendingReply>, fd: int)
    requires forall p :: p in pending ==> p.fd != fd
    ensures Integration.DeferredFor(pending, fd) == []
    decreases |pending|
  {
    if pending != [] {
      NothingDeferred(pending[..|pending| - 1], fd);
    }
  }

  /** A simulator keeps the invariant of every pair it is part of. */
  lemma LinkNextOk(sim: FS.Sim, cfg: Config, op: FS.SimOp, link: Link, accepted: bool, ini: Conn)
    requires FS.SimOk(sim) && SP.SimOpOk(sim, op) && LinkOk(sim, link) && LinkFed(sim, op, link, accepted, ini)
    requires PR.Inv(PR.System(ini, PeerOf(sim, link)))
    ensures
      var sim', link' := FS.SimStep(sim, cfg, op), LinkNext(sim, cfg, op, link, accepted);
      LinkOk(sim', link') && PR.Inv(PR.System(ini, PeerOf(sim', link')))
  {
    hide FS.SimOk;
    hide FS.SimStep;
    hide PR.Inv;
    hide SP.AfterMoves;
    hide SP.LinkMoves;
    hide SP.AllEnabled;
    hide Integration.Seen;
    match link {
      case Unaccepted =>
        if accepted && op.Accept? {
          AcceptedSeen(sim, cfg, op);
          PR.AcceptInv(PR.System(ini, PR.Absent), op.fd, op.clock);
        }
      case Served(fd) =>
        SP.SimStepProjects(sim, cfg, op, fd, ini);
        SP.MovesInv(ini, Integration.Seen(sim, fd), SP.LinkMoves(sim, cfg, op, fd));
      case Left(_) =>
    }
  }

  // ---- The world ----

  /** An attempt that its feed has left behind: the initiator's connection as it was then, and its client. */
  datatype Attempt = Attempt(feedId: uint32, ini: Conn, link: Link)

  /** `sims` holds the simulator of each feed id, `links` the client of each feed's current attempt, and `pings` the
      times of the ticks that pinged in it. */
  datatype World = World(
    plain: Plain,
    sims: map<uint32, FS.Sim>,
    links: map<uint32, Link>,
    pings: map<uint32, seq<Time>>,
    former: seq<Attempt>)

  /** Whose connection a simulator accepts. */
  datatype Whom = Current | Former(i: nat) | Stranger

  datatype Act = Does(op: Op) | SimDoes(feedId: uint32, cfg: Config, simOp: FS.SimOp, whom: Whom)

  function SimOf(w: World, f: uint32): (r: FS.Sim) {
    if f in w.sims then w.sims[f] else FS.Sim(map[], [], map[], 0)
  }

  /** The pair of feed `f`'s current attempt. */
  predicate CurrentOk(w: World, f: uint32)
    requires f in w.plain.feeds
  {
    && f in w.links && f in w.pings && LinkOk(SimOf(w, f), w.links[f])
    && w.plain.feeds[f].conn.feedId == f
    && PairOk(w.plain.feeds[f].conn, PeerOf(SimOf(w, f), w.links[f]), w.pings[f])
  }

  predicate FormerOk(w: World, t: Attempt) {
    && LinkOk(SimOf(w, t.feedId), t.link) && t.ini.feedId == t.feedId
    && PR.Inv(PR.System(t.ini, PeerOf(SimOf(w, t.feedId), t.link)))
  }

  predicate WorldOk(w: World) {
    && ConfigOk(w.plain.cfg)
    && (forall f :: f in w.sims ==> FS.SimOk(w.sims[f]))
    && (forall f :: f in w.plain.feeds ==> CurrentOk(w, f))
    && (forall i :: 0 <= i < |w.former| ==> FormerOk(w, w.former[i]))
  }

  /** What the two reactors and the kernel can do next: the bytes a pair's two sides read are each other's, and the
      connection a simulator accepts has not been accepted before. Strangers are not constrained. */
  ghost predicate Can(w: World, act: Act) {
    match act
    case Does(op) =>
      var f := Addressee(w.plain, op);
      f.Some? ==>
        && f.value in w.links && LinkOk(SimOf(w, f.value), w.links[f.value])
        && Arriving(w.plain.feeds[f.value], AsEvent(op), PeerOf(SimOf(w, f.value), w.links[f.value]))
    case SimDoes(f, cfg, op, whom) =>
      && SP.SimOpOk(SimOf(w, f), op)
      && (f in w.plain.feeds ==>
            f in w.links && LinkOk(SimOf(w, f), w.links[f])
            && LinkFed(SimOf(w, f), op, w.links[f], whom == Current, w.plain.feeds[f].conn))
      && (forall i :: 0 <= i < |w.former| && w.former[i].feedId == f ==>
            LinkOk(SimOf(w, f), w.former[i].link)
            && LinkFed(SimOf(w, f), op, w.former[i].link, whom == Former(i), w.former[i].ini))
  }

  /** The monitor acts: an attempt that a reconnect or a removal ends joins the former ones. */
  ghost function MonitorActs(w: World, op: Op): (r: World)
    requires ConfigOk(w.plain.cfg)
    ensures r.plain == PlainDo(w.plain, op) && r.sims == w.sims
  {
    var plain := PlainDo(w.plain, op);
    var f := Addressee(w.plain, op);
    if op.AddFeed? && op.feedId !in w.plain.feeds then
      w.(plain := plain, links := w.links[op.feedId := Unaccepted], pings := w.pings[op.feedId := []])
    else if op.RemoveFeed? && op.feedId in w.plain.feeds && op.feedId in w.links then
      w.(plain := plain, former := w.former + [Attempt(op.feedId, w.plain.feeds[op.feedId].conn, w.links[op.feedId])])
    else if f.Some? && f.value in w.links && f.value in w.pings then
      var s, e, g := w.plain.feeds[f.value], AsEvent(op), f.value;
      var w1 := w.(plain := plain, pings := w.pings[g := PingsAfter(s, e, w.pings[g])]);
      if Rebinds(s, e) then
        w1.(links := w.links[g := Unaccepted], former := w.former + [Attempt(g, s.conn, w.links[g])])
      else w1
    else w.(plain := plain)
  }

  function AttemptNext(sim: FS.Sim, cfg: Config, op: FS.SimOp, f: uint32, t: Attempt, accepted: bool): (r: Attempt) {
    if t.feedId == f then t.(link := LinkNext(sim, cfg, op, t.link, accepted)) else t
  }

  function SimActs(w: World, f: uint32, cfg: Config, op: FS.SimOp, whom: Whom): (r: World) {
    var sim := SimOf(w, f);
    w.(sims := w.sims[f := FS.SimStep(sim, cfg, op)],
       links := if f in w.links then w.links[f := LinkNext(sim, cfg, op, w.links[f], whom == Current)] else w.links,
       former := seq(|w.former|, i requires 0 <= i < |w.former| =>
                   AttemptNext(sim, cfg, op, f, w.former[i], whom == Former(i))))
  }

  ghost function After(w: World, act: Act): (r: World)
    requires ConfigOk(w.plain.cfg)
    ensures r.plain == if act.Does? then PlainDo(w.plain, act.op) else w.plain
  {
    match act
    case Does(op) => MonitorActs(w, op)
    case SimDoes(f, cfg, op, whom) => SimActs(w, f, cfg, op, whom)
  }

  // ---- Every act keeps every pair ----

  lemma PairParts(c: Conn, peer: PR.Peer, pings: seq<Time>)
    requires PairOk(c, peer, pings)
    ensures PR.Inv(PR.System(c, peer)) && c.role == Initiator
  {
    hide PR.Inv;
  }

  /** Adding to the former attempts, with the simulators untouched. */
  lemma SameFormer(w: World, r: World, t: Attempt)
    requires WorldOk(w) && r.sims == w.sims
    requires r.former == w.former || (r.former == w.former + [t] && FormerOk(w, t))
    ensures forall i :: 0 <= i < |r.former| ==> FormerOk(r, r.former[i])
  {
    hide PR.Inv;
    hide CurrentOk;
    hide FS.SimOk;
  }

  /** A pair that nothing has happened to. */
  lemma SameCurrent(w: World, r: World, g: uint32)
    requires g in w.plain.feeds && CurrentOk(w, g) && r.sims == w.sims
    requires g in r.plain.feeds && r.plain.feeds[g] == w.plain.feeds[g]
    requires g in r.links && r.links[g] == w.links[g] && g in r.pings && r.pings[g] == w.pings[g]
    ensures CurrentOk(r, g)
  {
    hide PairOk;
  }

  /** What an operation of the monitor leaves alone. */
  lemma ServedOthers(w: World, op: Op, f: uint32, g: uint32)
    requires ConfigOk(w.plain.cfg) && Addressee(w.plain, op) == Some(f) && f in w.links && f in w.pings
    requires g in w.plain.feeds && g in w.links && g in w.pings && g != f
    ensures
      var r := MonitorActs(w, op);
      && g in r.plain.feeds && r.plain.feeds[g] == w.plain.feeds[g]
      && g in r.links && r.links[g] == w.links[g] && g in r.pings && r.pings[g] == w.pings[g]
  {
    hide SlotStep;
    hide Owner;
    hide PingsAfter;
    hide PingFails;
    hide Rebinds;
  }

  /** What it does to the feed it serves. */
  lemma ServedParts(w: World, op: Op, f: uint32)
    requires ConfigOk(w.plain.cfg) && Addressee(w.plain, op) == Some(f) && f in w.links && f in w.pings
    ensures
      var s, e := w.plain.feeds[f], AsEvent(op);
      var r := MonitorActs(w, op);
      && r.plain.feeds.Keys == w.plain.feeds.Keys && r.plain.feeds[f] == SlotStep(s, w.plain.cfg, e)
      && f in r.links && r.links[f] == (if Rebinds(s, e) then Unaccepted else w.links[f])
      && f in r.pings && r.pings[f] == PingsAfter(s, e, w.pings[f])
      && (r.former == w.former || r.former == w.former + [Attempt(f, s.conn, w.links[f])])
      && r.plain.cfg == w.plain.cfg
  {
    hide SlotStep;
    hide Owner;
    hide PingsAfter;
    hide PingFails;
    hide Rebinds;
  }

  /** The pair of a feed, put together. */
  lemma MakeCurrent(w: World, f: uint32, link: Link, peer: PR.Peer, pings: seq<Time>)
    requires f in w.plain.feeds && f in w.links && w.links[f] == link && f in w.pings && w.pings[f] == pings
    requires LinkOk(SimOf(w, f), link) && PeerOf(SimOf(w, f), link) == peer
    requires w.plain.feeds[f].conn.feedId == f && PairOk(w.plain.feeds[f].conn, peer, pings)
    ensures CurrentOk(w, f)
  {
    hide PairOk;
  }

  lemma CurrentParts(w: World, f: uint32)
    requires f in w.plain.feeds && CurrentOk(w, f)
    ensures f in w.links && f in w.pings && LinkOk(SimOf(w, f), w.links[f])
    ensures PairOk(w.plain.feeds[f].conn, PeerOf(SimOf(w, f), w.links[f]), w.pings[f])
    ensures w.plain.feeds[f].conn.feedId == f && w.plain.feeds[f].conn.role == Initiator
  {
    hide PairOk;
    PairParts(w.plain.feeds[f].conn, PeerOf(SimOf(w, f), w.links[f]), w.pings[f]);
  }

  /** After a reconnect the feed's new attempt has no client yet; otherwise it has the one it had. */
  lemma PeerNext(s: Slot, e: SlotEvent, sim: FS.Sim, link: Link)
    requires LinkOk(sim, link)
    ensures
      var next := if Rebinds(s, e) then Unaccepted else link;
      LinkOk(sim, next) && PeerOf(sim, next) == PeerAfter(s, e, PeerOf(sim, link))
  {
    hide Rebinds;
  }

  lemma ServedCurrent(w: World, op: Op, f: uint32)
    requires ConfigOk(w.plain.cfg) && Addressee(w.plain, op) == Some(f) && CurrentOk(w, f) && Can(w, Does(op))
    ensures f in MonitorActs(w, op).plain.feeds && CurrentOk(MonitorActs(w, op), f)
    ensures FormerOk(w, Attempt(f, w.plain.feeds[f].conn, w.links[f]))
  {
    hide PairOk;
    hide CurrentOk;
    hide SlotStep;
    hide Addressee;
    hide Arriving;
    hide PingsAfter;
    hide PeerAfter;
    hide PeerOf;
    hide LinkOk;
    hide MonitorActs;
    hide FormerOk;
    hide Rebinds;
    CurrentParts(w, f);
    var s, e := w.plain.feeds[f], AsEvent(op);
    var sim := SimOf(w, f);
    var peer := PeerOf(sim, w.links[f]);
    ServedParts(w, op, f);
    SlotStepOk(s, w.plain.cfg, e, peer, w.pings[f]);
    Pacing.StepRole(s, w.plain.cfg, e);
    PeerNext(s, e, sim, w.links[f]);
    LeftBehind(w, Attempt(f, s.conn, w.links[f]), w.pings[f]);
    var r := MonitorActs(w, op);
    SameSims(w, r, f);
    MakeCurrent(r, f, r.links[f], PeerAfter(s, e, peer), r.pings[f]);
  }

  lemma SameSims(w: World, r: World, f: uint32)
    requires r.sims == w.sims
    ensures SimOf(r, f) == SimOf(w, f)
  {}

  lemma ServedOk(w: World, op: Op, f: uint32)
    requires WorldOk(w) && Can(w, Does(op)) && Addressee(w.plain, op) == Some(f)
    ensures WorldOk(MonitorActs(w, op))
  {
    hide PairOk;
    hide SlotStep;
    hide Addressee;
    hide Can;
    hide PingsAfter;
    hide MonitorActs;
    hide FormerOk;
    hide FS.SimOk;
    assert CurrentOk(w, f);
    ServedParts(w, op, f);
    ServedCurrent(w, op, f);
    var r := MonitorActs(w, op);
    forall g | g in r.plain.feeds
      ensures CurrentOk(r, g)
    {
      if g != f {
        assert CurrentOk(w, g);
        ServedOthers(w, op, f, g);
        SameCurrent(w, r, g);
      }
    }
    hide CurrentOk;
    SameFormer(w, r, Attempt(f, w.plain.feeds[f].conn, w.links[f]));
  }

  lemma LeftBehind(w: World, t: Attempt, pings: seq<Time>)
    requires LinkOk(SimOf(w, t.feedId), t.link) && t.ini.feedId == t.feedId
    requires PairOk(t.ini, PeerOf(SimOf(w, t.feedId), t.link), pings)
    ensures FormerOk(w, t)
  {
    hide PR.Inv;
  }

  lemma BaselinedOk(w: World, t: int, now: Time)
    requires WorldOk(w)
    ensures WorldOk(MonitorActs(w, NewTimeout(t, now)))
  {
    hide PairOk;
    hide FormerOk;
    hide FS.SimOk;
    hide Owner;
    var r := MonitorActs(w, NewTimeout(t, now));
    forall f | f in w.plain.feeds
      ensures CurrentOk(r, f)
    {
      var c := w.plain.feeds[f].conn;
      TimeoutOk(c, PeerOf(SimOf(w, f), w.links[f]), w.pings[f], w.plain.cfg, now);
    }
    SameFormer(w, r, Attempt(0, NewConn(0, Initiator, 0, 0), Unaccepted));
  }

  lemma OtherOpsOk(w: World, op: Op)
    requires WorldOk(w) && Addressee(w.plain, op).None? && !op.NewTimeout?
    ensures WorldOk(MonitorActs(w, op))
  {
    hide PairOk;
    hide FormerOk;
    hide FS.SimOk;
    hide Owner;
    var r := MonitorActs(w, op);
    var t := Attempt(0, NewConn(0, Initiator, 0, 0), Unaccepted);
    if op.AddFeed? {
      NewPairOk(op.fd, op.feedId, op.clock);
      SameFormer(w, r, t);
    } else if op.RemoveFeed? && op.feedId in w.plain.feeds {
      var f := op.feedId;
      t := Attempt(f, w.plain.feeds[f].conn, w.links[f]);
      LeftBehind(w, t, w.pings[f]);
      SameFormer(w, r, t);
    } else {
      SameFormer(w, r, t);
    }
  }

  lemma SimOfOk(w: World, f: uint32)
    requires WorldOk(w)
    ensures FS.SimOk(SimOf(w, f))
  {
    hide FormerOk;
    hide CurrentOk;
  }

  lemma SimCurrent(w: World, f: uint32, cfg: Config, op: FS.SimOp, whom: Whom, g: uint32)
    requires WorldOk(w) && Can(w, SimDoes(f, cfg, op, whom)) && g in w.plain.feeds
    ensures CurrentOk(SimActs(w, f, cfg, op, whom), g)
  {
    hide PR.Inv;
    hide PingHistory.Numbered;
    hide FormerOk;
    hide FS.SimOk;
    hide FS.SimStep;
    hide LinkNext;
    hide LinkFed;
    hide SP.SimOpOk;
    SimOfOk(w, f);
    if g == f {
      LinkNextOk(SimOf(w, f), cfg, op, w.links[f], whom == Current, w.plain.feeds[f].conn);
    }
  }

  lemma SimFormer(w: World, f: uint32, cfg: Config, op: FS.SimOp, whom: Whom, i: nat)
    requires WorldOk(w) && Can(w, SimDoes(f, cfg, op, whom)) && i < |w.former|
    ensures
      var r := SimActs(w, f, cfg, op, whom);
      FormerOk(r, r.former[i])
  {
    hide PR.Inv;
    hide CurrentOk;
    hide FS.SimOk;
    hide FS.SimStep;
    hide LinkNext;
    hide LinkFed;
    hide SP.SimOpOk;
    SimOfOk(w, f);
    var t := w.former[i];
    assert FormerOk(w, t);
    if t.feedId == f {
      LinkNextOk(SimOf(w, f), cfg, op, t.link, whom == Former(i), t.ini);
    }
  }

  lemma SimActsOk(w: World, f: uint32, cfg: Config, op: FS.SimOp, whom: Whom)
    requires WorldOk(w) && Can(w, SimDoes(f, cfg, op, whom))
    ensures WorldOk(SimActs(w, f, cfg, op, whom))
  {
    hide FormerOk;
    hide CurrentOk;
    hide Can;
    hide FS.SimOk;
    hide FS.SimStep;
    hide LinkNext;
    var r := SimActs(w, f, cfg, op, whom);
    SimOfOk(w, f);
    FS.StepKeeps(SimOf(w, f), cfg, op);
    forall g | g in r.plain.feeds
      ensures CurrentOk(r, g)
    {
      SimCurrent(w, f, cfg, op, whom, g);
    }
    forall i | 0 <= i < |r.former|
      ensures FormerOk(r, r.former[i])
    {
      SimFormer(w, f, cfg, op, whom, i);
    }
  }

  lemma ActOk(w: World, act: Act)
    requires WorldOk(w) && Can(w, act) && ConfigOk(w.plain.cfg)
    ensures WorldOk(After(w, act))
  {
    hide WorldOk;
    hide Can;
    hide MonitorActs;
    hide SimActs;
    hide Addressee;
    match act {
      case SimDoes(f, cfg, op, whom) => SimActsOk(w, f, cfg, op, whom);
      case Does(op) =>
        var f := Addressee(w.plain, op);
        if op.NewTimeout? {
          BaselinedOk(w, op.timeoutNs, op.now);
        } else if f.Some? {
          ServedOk(w, op, f.value);
        } else {
          OtherOpsOk(w, op);
        }
    }
  }

  // ---- Every run ----

  ghost predicate IsWorldRun(worlds: seq<World>, acts: seq<Act>, cfg: Config) {
    && |worlds| == |acts| + 1 && ConfigOk(cfg) && worlds[0] == World(Empty(cfg), map[], map[], map[], [])
    && (forall i :: 0 <= i < |acts| ==> Can(worlds[i], acts[i]))
    && (forall i :: 0 <= i < |acts| ==> ConfigOk(worlds[i].plain.cfg) && worlds[i + 1] == After(worlds[i], acts[i]))
  }

  lemma {:induction false} WorldRunOk(worlds: seq<World>, acts: seq<Act>, cfg: Config, n: nat)
    requires IsWorldRun(worlds, acts, cfg) && n < |worlds|
    ensures WorldOk(worlds[n])
    decreases n
  {
    hide Can;
    hide After;
    hide CurrentOk;
    hide FormerOk;
    if n > 0 {
      WorldRunOk(worlds, acts, cfg, n - 1);
      hide WorldOk;
      ActOk(worlds[n - 1], acts[n - 1]);
    }
  }

  /** What holds of an attempt that its feed has left behind: its client, if the simulator still has it, has never
      reported a fault, and the acknowledgements the feed accepted in it answered its own PINGs. */
  predicate FormerSafe(w: World, t: Attempt) {
    && LinkOk(SimOf(w, t.feedId), t.link)
    && Protocol.NoFault(t.ini) && PR.Authentic(t.ini)
    && (t.link.Served? ==> Protocol.NoFault(SimOf(w, t.feedId).clients[t.link.fd].conn))
  }

  lemma FormerIsSafe(w: World, t: Attempt)
    requires FormerOk(w, t)
    ensures FormerSafe(w, t)
  {
    hide PR.Inv;
    hide PR.Authentic;
    hide Protocol.NoFault;
    var s := PR.System(t.ini, PeerOf(SimOf(w, t.feedId), t.link));
    PR.InvNoFault(s);
    PR.InvAuthentic(s);
    ServedNoFault(s);
  }

  /** Safety of the whole deployment. In every reachable state of a monitor and the simulators its feeds connect to, no
      feed's connection has ever reported a protocol fault, nor has the client of its current attempt, nor that of
      any earlier attempt the simulator still serves; every acknowledgement answers a PING of its attempt; and every
      recorded RTT is the time from one of the ticks that pinged the feed, identified by its number, to the read
      that accepted it. */
  lemma EveryFeedSafe(worlds: seq<World>, acts: seq<Act>, cfg: Config, n: nat)
    requires IsWorldRun(worlds, acts, cfg) && n < |worlds|
    ensures
      var w := worlds[n];
      && (forall f :: f in w.plain.feeds ==>
            && f in w.links && f in w.pings && LinkOk(SimOf(w, f), w.links[f])
            && Safe(w.plain.feeds[f].conn, PeerOf(SimOf(w, f), w.links[f]), w.pings[f]))
      && (forall i :: 0 <= i < |w.former| ==> FormerSafe(w, w.former[i]))
  {
    hide IsWorldRun;
    hide Safe;
    hide PairOk;
    hide FormerOk;
    hide FormerSafe;
    WorldRunOk(worlds, acts, cfg, n);
    var w := worlds[n];
    forall f | f in w.plain.feeds
      ensures f in w.links && f in w.pings && LinkOk(SimOf(w, f), w.links[f])
      ensures Safe(w.plain.feeds[f].conn, PeerOf(SimOf(w, f), w.links[f]), w.pings[f])
    {
      PairSafe(w.plain.feeds[f].conn, PeerOf(SimOf(w, f), w.links[f]), w.pings[f]);
    }
    forall i | 0 <= i < |w.former|
      ensures FormerSafe(w, w.former[i])
    {
      FormerIsSafe(w, w.former[i]);
    }
  }

  // ---- And of the monitor's own storage ----

  /** The monitor's part of the acts. */
  function OpsOf(acts: seq<Act>): (r: seq<Op>)
    decreases |acts|
  {
    if acts == [] then []
    else OpsOf(acts[..|acts| - 1]) + if acts[|acts| - 1].Does? then [acts[|acts| - 1].op] else []
  }

  lemma {:induction false} WorldIsPlainRun(worlds: seq<World>, acts: seq<Act>, cfg: Config, n: nat)
    requires IsWorldRun(worlds, acts, cfg) && n < |worlds|
    ensures worlds[n].plain == PlainRun(Empty(cfg), OpsOf(acts[..n]))
    decreases n
  {
    hide Can;
    hide After;
    hide PlainDo;
    if n > 0 {
      WorldIsPlainRun(worlds, acts, cfg, n - 1);
      var ops := OpsOf(acts[..n - 1]);
      assert acts[..n][..n - 1] == acts[..n - 1];
      if acts[n - 1].Does? {
        assert (ops + [acts[n - 1].op])[..|ops|] == ops;
      } else {
        assert ops + [] == ops;
      }
    }
  }

  /** The same of what is actually stored: along every guarded run of the vector with its indexes, whose operations
      are the monitor's part of the acts, the slot stored for each feed is safe. */
  lemma EveryStoredFeedSafe(states: seq<MR.Monitor>, worlds: seq<World>, acts: seq<Act>, cfg: Config, f: uint32)
    requires IsWorldRun(worlds, acts, cfg)
    requires MR.IsGuardedRun(states, OpsOf(acts)) && states[0] == MR.Monitor(MR.EMPTY_STORE, cfg)
    ensures
      var st, w := states[|states| - 1].st, worlds[|worlds| - 1];
      && IdsOk(st.slots, st.byFeed)
      && (f in Feeds(st) ==>
            && f in w.plain.feeds && Feeds(st)[f] == w.plain.feeds[f]
            && f in w.links && f in w.pings && LinkOk(SimOf(w, f), w.links[f])
            && Safe(Feeds(st)[f].conn, PeerOf(SimOf(w, f), w.links[f]), w.pings[f]))
  {
    hide IsWorldRun;
    hide MR.IsGuardedRun;
    hide Safe;
    hide PlainRun;
    hide Feeds;
    hide IdsOk;
    var n, k := |acts|, |OpsOf(acts)|;
    RunLengths(states, worlds, acts, cfg);
    MR.RunRefines(states, OpsOf(acts), k);
    WorldIsPlainRun(worlds, acts, cfg, n);
    assert acts[..n] == acts && OpsOf(acts)[..k] == OpsOf(acts);
    hide LinkOk;
    EveryFeedSafe(worlds, acts, cfg, n);
  }

  lemma RunLengths(states: seq<MR.Monitor>, worlds: seq<World>, acts: seq<Act>, cfg: Config)
    requires IsWorldRun(worlds, acts, cfg) && MR.IsGuardedRun(states, OpsOf(acts))
    ensures |worlds| == |acts| + 1 && |states| == |OpsOf(acts)| + 1 && ConfigOk(cfg)
  {
    hide Can;
    hide After;
  }
}
