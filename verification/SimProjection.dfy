/** What a run of the simulator is to one of its clients: a sequence of responder moves of the two-party system. An
    event on the client is one or two moves, a tick is a timeout move followed by the deferred replies that are due,
    a kill is a kill, and everything that happens to other clients is nothing. */
module SimProjection {
  import opened ConnectionModel
  import CR = ConnectionRuns
  import opened Reassembly
  import P = Protocol
  import PR = ProtocolRuns
  import FS = FeedSimulatorClass
  import opened Integration

  // ---- Sequences of responder moves ----

  predicate IsPeerMove(m: PR.Move) {
    m.PeerMove? || m.Fire? || m.Kill?
  }

  /** A responder move does not depend on the initiator. */
  function Moves1(peer: PR.Peer, m: PR.Move): (r: PR.Peer) {
    PR.Next(PR.System(NewConn(0, Initiator, 0, 0), peer), m).peer
  }

  function AfterMoves(peer: PR.Peer, moves: seq<PR.Move>): (r: PR.Peer)
    decreases |moves|
  {
    if moves == [] then peer else Moves1(AfterMoves(peer, moves[..|moves| - 1]), moves[|moves| - 1])
  }

  /** Every move is a responder's, and enabled where it is made. */
  predicate AllEnabled(ini: Conn, peer: PR.Peer, moves: seq<PR.Move>)
    decreases |moves|
  {
    moves == [] ||
    (var front, last := moves[..|moves| - 1], moves[|moves| - 1];
     && AllEnabled(ini, peer, front) && IsPeerMove(last)
     && PR.Enabled(PR.System(ini, AfterMoves(peer, front)), last))
  }

  lemma MovesAppend(ini: Conn, peer: PR.Peer, moves: seq<PR.Move>, m: PR.Move)
    ensures AfterMoves(peer, moves + [m]) == Moves1(AfterMoves(peer, moves), m)
    ensures AllEnabled(ini, peer, moves + [m]) <==>
            AllEnabled(ini, peer, moves) && IsPeerMove(m) && PR.Enabled(PR.System(ini, AfterMoves(peer, moves)), m)
  {
    hide Moves1;
    hide PR.Enabled;
    assert (moves + [m])[..|moves|] == moves;
  }

  lemma MovesOne(ini: Conn, peer: PR.Peer, m: PR.Move)
    ensures AfterMoves(peer, [m]) == Moves1(peer, m)
    ensures AllEnabled(ini, peer, [m]) <==> IsPeerMove(m) && PR.Enabled(PR.System(ini, peer), m)
  {
    hide Moves1;
    hide PR.Enabled;
    MovesAppend(ini, peer, [], m);
    assert [] + [m] == [m];
  }

  lemma {:induction false} MovesConcat(ini: Conn, peer: PR.Peer, a: seq<PR.Move>, b: seq<PR.Move>)
    ensures AfterMoves(peer, a + b) == AfterMoves(AfterMoves(peer, a), b)
    ensures AllEnabled(ini, peer, a + b) <==> AllEnabled(ini, peer, a) && AllEnabled(ini, AfterMoves(peer, a), b)
    decreases |b|
  {
    hide Moves1;
    hide PR.Enabled;
    hide IsPeerMove;
    if b == [] {
      assert a + b == a;
    } else {
      var n := |b| - 1;
      assert (a + b)[..|a + b| - 1] == a + b[..n];
      MovesConcat(ini, peer, a, b[..n]);
    }
  }

  lemma NextIsMoves1(ini: Conn, peer: PR.Peer, m: PR.Move)
    requires IsPeerMove(m)
    ensures PR.Next(PR.System(ini, peer), m) == PR.System(ini, Moves1(peer, m))
  {
    hide CR.Apply;
    hide SendPong;
    hide PR.Settle;
  }

  /** So they keep the joint invariant, whatever the initiator. */
  lemma {:induction false} MovesInv(ini: Conn, peer: PR.Peer, moves: seq<PR.Move>)
    requires PR.Inv(PR.System(ini, peer)) && AllEnabled(ini, peer, moves)
    ensures PR.Inv(PR.System(ini, AfterMoves(peer, moves)))
    decreases |moves|
  {
    hide PR.Inv;
    hide PR.Enabled;
    hide Moves1;
    if moves != [] {
      var front, last := moves[..|moves| - 1], moves[|moves| - 1];
      MovesInv(ini, peer, front);
      PR.NextInv(PR.System(ini, AfterMoves(peer, front)), last);
      NextIsMoves1(ini, AfterMoves(peer, front), last);
    }
  }

  // ---- An operation of the simulator, as one client sees it ----

  /** What the kernel can report, and whom the interceptor is asked about: an event has some cause, and sending a
      deferred reply asks nobody. */
  ghost predicate SimOpOk(s: FS.Sim, op: FS.SimOp) {
    match op
    case Accept(fd, _, _) => fd !in s.clients
    case Event(_, ev, _, _) => ev.hangup || ev.readable || ev.writable
    case Tick(_, answers) => forall k: nat :: answers(k).verdicts == []
    case Kill(_) => true
  }

  function StillTick(c: Conn, cfg: Config, now: Time): (r: CR.Step) {
    CR.Step(cfg, c.io.clock, c.io.sends, c.io.verdicts, CR.Tick(now))
  }

  /** The moves of one client event. A client that has failed is not written to, only removed. */
  function EventMoves(c: Conn, pending: seq<Deferred>, cfg: Config, ev: FS.ClientEvent, now: Time, a: FS.Answers): (r: seq<PR.Move>) {
    if !ev.hangup && !ev.readable && c.state == Failed then [PR.Kill]
    else
      var first := PR.PeerMove(FirstStep(cfg, ev, now, a));
      var peer := Moves1(PR.Alive(c, pending), first);
      if ReadsAndWrites(ev) && peer.Alive? then [first, PR.PeerMove(SecondStep(cfg, peer.conn, now))] else [first]
  }

  /** The replies of `queue[..k]` that are due for `fd`, each at its place among those still owed to it. */
  function FireMoves(queue: seq<FS.PendingReply>, fd: int, now: Time, answers: nat -> FS.Answers, k: nat): (r: seq<PR.Move>)
    requires k <= |queue|
    decreases k
  {
    if k == 0 then []
    else
      var p := queue[k - 1];
      FireMoves(queue, fd, now, answers, k - 1)
      + if p.fd == fd && now >= p.fireAtNs then
          [PR.Fire(|DeferredFor(FS.Unripe(queue, now, k - 1), fd)|, answers(k - 1).clock, answers(k - 1).sends)]
        else []
  }

  function TickMoves(s: FS.Sim, cfg: Config, now: Time, answers: nat -> FS.Answers, fd: int): (r: seq<PR.Move>)
    requires fd in s.clients
  {
    var timeout := PR.PeerMove(StillTick(s.clients[fd].conn, cfg, now));
    var gone := FS.TimedOut(s.clients, cfg, now);
    var queue := FS.PurgeAll(s.pending, gone);
    [timeout] + if fd in gone then [] else FireMoves(queue, fd, now, answers, |queue|)
  }

  function LinkMoves(s: FS.Sim, cfg: Config, op: FS.SimOp, fd: int): (r: seq<PR.Move>)
    requires fd in s.clients
  {
    match op
    case Accept(_, _, _) => []
    case Event(on, ev, now, a) =>
      if on == fd then EventMoves(s.clients[fd].conn, DeferredFor(s.pending, fd), cfg, ev, now, a) else []
    case Tick(now, answers) => TickMoves(s, cfg, now, answers, fd)
    case Kill(on) => if on == fd then [PR.Kill] else []
  }

  /** The bytes an event has the client read are the next ones its initiator's kernel has taken. */
  predicate Fed(s: FS.Sim, op: FS.SimOp, fd: int, ini: Conn)
    requires fd in s.clients
  {
    op.Event? && op.on == fd && op.ev.readable && !op.ev.hangup ==>
      P.Received(s.clients[fd].conn) + Delivered(op.ev.recvs) <= ini.io.sent
  }

  /** The operation is exactly those moves to the client, and they are enabled. */
  predicate Projects(s: FS.Sim, cfg: Config, op: FS.SimOp, fd: int, ini: Conn)
    requires fd in s.clients
  {
    var r := FS.SimStep(s, cfg, op);
    var after := AfterMoves(Seen(s, fd), LinkMoves(s, cfg, op, fd));
    && AllEnabled(ini, Seen(s, fd), LinkMoves(s, cfg, op, fd))
    && (if fd in r.clients then Seen(r, fd) == after else after.Gone?)
  }

  // ---- Operations on others ----

  /** A reply to someone else may be kept or dropped. */
  lemma KeptOrNot(front: seq<FS.PendingReply>, kept: seq<FS.PendingReply>, p: FS.PendingReply, fd: int)
    requires DeferredFor(kept, fd) == DeferredFor(front, fd)
    ensures DeferredFor(kept + [p], fd) == DeferredFor(front + [p], fd)
    ensures p.fd != fd ==> DeferredFor(kept + [], fd) == DeferredFor(front + [p], fd)
  {
    DeferredConcat(kept, [p], fd);
    DeferredConcat(front, [p], fd);
    DeferredOne(p, fd);
    assert kept + [] == kept;
  }

  lemma {:induction false} DeferredPurge(pending: seq<FS.PendingReply>, g: int, fd: int)
    requires g != fd
    ensures DeferredFor(FS.Purge(pending, g), fd) == DeferredFor(pending, fd)
    decreases |pending|
  {
    if pending != [] {
      var n := |pending| - 1;
      DeferredPurge(pending[..n], g, fd);
      KeptOrNot(pending[..n], FS.Purge(pending[..n], g), pending[n], fd);
      assert pending == pending[..n] + [pending[n]];
    }
  }

  lemma DeferredOne(p: FS.PendingReply, fd: int)
    ensures DeferredFor([p], fd) == if p.fd == fd then [Deferred(p.fireAtNs, p.sequence, p.timestampNs)] else []
  {
    assert [p][..0] == [];
  }

  lemma {:induction false} DeferredOthers(ds: seq<Deferred>, g: int, instance: nat, fd: int)
    requires g != fd
    ensures DeferredFor(FS.Collected(ds, g, instance), fd) == []
    decreases |ds|
  {
    if ds != [] {
      var n := |ds| - 1;
      var c := FS.Collected(ds[..n], g, instance);
      var p := FS.PendingReply(ds[n].fireAtNs, g, ds[n].sequence, ds[n].timestampNs, instance);
      DeferredOthers(ds[..n], g, instance, fd);
      assert FS.Collected(ds, g, instance) == c + [p];
      assert (c + [p])[..|c|] == c;
    }
  }

  lemma SettledOthers(s: FS.Sim, g: int, c: Conn, fd: int)
    requires g in s.clients && fd in s.clients && g != fd
    ensures Seen(FS.Settled(s, g, c), fd) == Seen(s, fd)
    ensures fd in FS.WithoutClient(FS.Settled(s, g, c), g).clients
    ensures Seen(FS.WithoutClient(FS.Settled(s, g, c), g), fd) == Seen(s, fd)
  {
    hide FS.Collected;
    hide FS.Purge;
    hide DeferredFor;
    var r := FS.Settled(s, g, c);
    DeferredConcat(s.pending, FS.Collected(c.io.deferred, g, s.clients[g].instance), fd);
    DeferredOthers(c.io.deferred, g, s.clients[g].instance, fd);
    DeferredPurge(r.pending, g, fd);
  }

  lemma OthersProject(s: FS.Sim, cfg: Config, op: FS.SimOp, fd: int, ini: Conn)
    requires fd in s.clients && SimOpOk(s, op)
    requires op.Accept? || (op.Event? && op.on != fd) || (op.Kill? && op.on != fd)
    ensures Projects(s, cfg, op, fd, ini)
  {
    hide FS.ServeConn;
    hide FS.Settled;
    hide FS.Purge;
    hide DeferredFor;
    match op {
      case Accept(_, _, _) =>
      case Event(on, ev, now, a) =>
        if on in s.clients {
          SettledOthers(s, on, FS.ServeConn(s.clients[on].conn, cfg, ev, now, a), fd);
        }
      case Kill(on) =>
        DeferredPurge(s.pending, on, fd);
      case _ =>
    }
  }

  // ---- Operations on the client itself ----

  lemma KillProjects(s: FS.Sim, cfg: Config, fd: int, ini: Conn)
    requires fd in s.clients
    ensures Projects(s, cfg, FS.Kill(fd), fd, ini)
  {
    hide DeferredFor;
    MovesOne(ini, Seen(s, fd), PR.Kill);
  }

  lemma EventIsMoved(c: Conn, pending: seq<Deferred>, cfg: Config, ev: FS.ClientEvent, now: Time, a: FS.Answers, ini: Conn)
    requires ev.hangup || ev.readable || ev.writable
    requires ev.readable && !ev.hangup ==> P.Received(c) + Delivered(ev.recvs) <= ini.io.sent
    ensures
      var peer := PR.Alive(c, pending);
      var moves := EventMoves(c, pending, cfg, ev, now, a);
      && AllEnabled(ini, peer, moves)
      && (if !ev.hangup && !ev.readable && c.state == Failed then AfterMoves(peer, moves).Gone?
          else AfterMoves(peer, moves) == Moved(c, pending, cfg, ev, now, a))
  {
    hide CR.Apply;
    hide P.Received;
    hide Delivered;
    hide PR.Settle;
    hide AllEnabled;
    hide AfterMoves;
    var peer := PR.Alive(c, pending);
    MovesOne(ini, peer, PR.Kill);
    var first := PR.PeerMove(FirstStep(cfg, ev, now, a));
    MovesOne(ini, peer, first);
    var next := Moves1(peer, first);
    if ReadsAndWrites(ev) && next.Alive? {
      var second := PR.PeerMove(SecondStep(cfg, next.conn, now));
      MovesAppend(ini, peer, [first], second);
      assert [first] + [second] == [first, second];
    }
  }

  lemma EventProjects(s: FS.Sim, cfg: Config, fd: int, ev: FS.ClientEvent, now: Time, a: FS.Answers, ini: Conn)
    requires FS.SimOk(s) && fd in s.clients && (ev.hangup || ev.readable || ev.writable)
    requires Fed(s, FS.Event(fd, ev, now, a), fd, ini)
    ensures Projects(s, cfg, FS.Event(fd, ev, now, a), fd, ini)
  {
    hide FS.SimOk;
    hide EventMoves;
    hide Moved;
    hide FS.Served;
    hide DeferredFor;
    hide AllEnabled;
    hide AfterMoves;
    var c := s.clients[fd].conn;
    EventIsMoved(c, DeferredFor(s.pending, fd), cfg, ev, now, a, ini);
    ServedIsPeerMove(s, cfg, fd, ev, now, a);
    if !ev.hangup && !ev.readable && c.state == Failed {
      FailedIsRemoved(s, cfg, fd, ev, now, a);
    }
  }

  lemma FailedIsRemoved(s: FS.Sim, cfg: Config, fd: int, ev: FS.ClientEvent, now: Time, a: FS.Answers)
    requires fd in s.clients && s.clients[fd].conn.state == Failed && !ev.hangup && !ev.readable
    ensures fd !in FS.Served(s, cfg, fd, ev, now, a).clients
  {
    hide FS.Purge;
    hide FS.Collected;
  }

  // ---- The tick ----

  lemma TimeoutMove(c: Conn, pending: seq<Deferred>, cfg: Config, now: Time)
    requires c.role == Responder && c.io.deferred == []
    ensures
      var r := Moves1(PR.Alive(c, pending), PR.PeerMove(StillTick(c, cfg, now)));
      if CheckTimeout(c, cfg, now).1 then r.Gone? else r == PR.Alive(c, pending)
  {
    hide CheckTimeout;
    var step := StillTick(c, cfg, now);
    assert WithKernel(c, c.io.clock, c.io.sends, c.io.verdicts) == c;
    assert CR.Apply(c, step) == CheckTimeout(c, cfg, now).0;
    TimeoutFacts(c, cfg, now);
    assert pending + [] == pending;
    assert c.(io := c.io.(deferred := [])) == c;
  }

  lemma TimeoutFacts(c: Conn, cfg: Config, now: Time)
    requires c.role == Responder
    ensures
      var (r, failedNow) := CheckTimeout(c, cfg, now);
      && (failedNow <==> c.state != Failed && r.state == Failed)
      && (!failedNow ==> r == c) && r.io == c.io
  {}

  lemma {:induction false} DeferredPurgeAll(pending: seq<FS.PendingReply>, gone: set<int>, fd: int)
    requires fd !in gone
    ensures DeferredFor(FS.PurgeAll(pending, gone), fd) == DeferredFor(pending, fd)
    decreases |pending|
  {
    if pending != [] {
      var n := |pending| - 1;
      DeferredPurgeAll(pending[..n], gone, fd);
      KeptOrNot(pending[..n], FS.PurgeAll(pending[..n], gone), pending[n], fd);
      assert pending == pending[..n] + [pending[n]];
    }
  }

  lemma {:induction false} FireClients(s: FS.Sim, queue: seq<FS.PendingReply>, now: Time, answers: nat -> FS.Answers, k: nat)
    requires k <= |queue|
    ensures FS.FireUpTo(s, queue, now, answers, k).clients.Keys == s.clients.Keys
    decreases k
  {
    hide SendPong;
    if k > 0 {
      FireClients(s, queue, now, answers, k - 1);
    }
  }

  /** The client after `k` looks at the queue: its connection, and what is still owed to it. */
  function Fired(s: FS.Sim, queue: seq<FS.PendingReply>, now: Time, answers: nat -> FS.Answers, k: nat, fd: int): (r: PR.Peer)
    requires k <= |queue| && fd in FS.FireUpTo(s, queue, now, answers, k).clients
  {
    PR.Alive(FS.FireUpTo(s, queue, now, answers, k).clients[fd].conn,
             DeferredFor(FS.Unripe(queue, now, k) + queue[k..], fd))
  }

  /** One more look at the queue. */
  lemma FireStep(s: FS.Sim, queue: seq<FS.PendingReply>, now: Time, answers: nat -> FS.Answers, k: nat, fd: int, ini: Conn)
    requires k < |queue| && answers(k).verdicts == []
    requires fd in s.clients && queue[k].fd in s.clients
    ensures fd in FS.FireUpTo(s, queue, now, answers, k).clients && fd in FS.FireUpTo(s, queue, now, answers, k + 1).clients
    ensures
      var p := queue[k];
      var before, after := Fired(s, queue, now, answers, k, fd), Fired(s, queue, now, answers, k + 1, fd);
      if p.fd == fd && now >= p.fireAtNs then
        var i := |DeferredFor(FS.Unripe(queue, now, k), fd)|;
        var m := PR.Fire(i, answers(k).clock, answers(k).sends);
        i < |before.pending| && after == Moves1(before, m) && PR.Enabled(PR.System(ini, before), m)
      else after == before
  {
    hide SendPong;
    hide DeferredFor;
    FireClients(s, queue, now, answers, k);
    FireClients(s, queue, now, answers, k + 1);
    var p := queue[k];
    var kept, rest := FS.Unripe(queue, now, k), queue[k + 1..];
    assert queue[k..] == [p] + rest;
    DeferredOne(p, fd);
    DeferredConcat(kept, queue[k..], fd);
    DeferredConcat([p], rest, fd);
    DeferredConcat(kept, rest, fd);
    var d, owed := Deferred(p.fireAtNs, p.sequence, p.timestampNs), DeferredFor(rest, fd);
    if now < p.fireAtNs {
      assert FS.Unripe(queue, now, k + 1) == kept + [p];
      assert kept + [p] + rest == kept + queue[k..];
    } else {
      assert FS.Unripe(queue, now, k + 1) == kept + [];
      assert kept + [] == kept;
      if p.fd == fd {
        MiddleOut(DeferredFor(kept, fd), d, owed);
      } else {
        assert [] + owed == owed;
      }
    }
  }

  lemma MiddleOut(a: seq<Deferred>, d: Deferred, b: seq<Deferred>)
    ensures |a| < |a + ([d] + b)| && (a + ([d] + b))[|a|] == d && P.Without(a + ([d] + b), |a|) == a + b
  {}

  lemma {:induction false} FiresProject(s: FS.Sim, queue: seq<FS.PendingReply>, now: Time, answers: nat -> FS.Answers,
                                        k: nat, fd: int, ini: Conn)
    requires FS.SimOk(s) && s.pending == queue && k <= |queue| && fd in s.clients
    requires forall i: nat :: answers(i).verdicts == []
    ensures fd in FS.FireUpTo(s, queue, now, answers, k).clients
    ensures AfterMoves(Seen(s, fd), FireMoves(queue, fd, now, answers, k)) == Fired(s, queue, now, answers, k, fd)
    ensures AllEnabled(ini, Seen(s, fd), FireMoves(queue, fd, now, answers, k))
    decreases k
  {
    hide FS.SimOk;
    hide FS.FireUpTo;
    hide DeferredFor;
    hide Moves1;
    hide PR.Enabled;
    hide FS.Unripe;
    FireClients(s, queue, now, answers, k);
    if k == 0 {
      FiresNone(s, queue, now, answers, fd);
    } else {
      FiresProject(s, queue, now, answers, k - 1, fd, ini);
      assert queue[k - 1] in s.pending;
      FS.PendingFound(s, queue[k - 1]);
      FireStep(s, queue, now, answers, k - 1, fd, ini);
      hide Fired;
      hide AfterMoves;
      hide AllEnabled;
      var p, front := queue[k - 1], FireMoves(queue, fd, now, answers, k - 1);
      if p.fd == fd && now >= p.fireAtNs {
        var m := PR.Fire(|DeferredFor(FS.Unripe(queue, now, k - 1), fd)|, answers(k - 1).clock, answers(k - 1).sends);
        MovesAppend(ini, Seen(s, fd), front, m);
      } else {
        assert front + [] == front;
      }
    }
  }

  lemma FiresNone(s: FS.Sim, queue: seq<FS.PendingReply>, now: Time, answers: nat -> FS.Answers, fd: int)
    requires s.pending == queue && fd in s.clients
    ensures fd in FS.FireUpTo(s, queue, now, answers, 0).clients
    ensures Fired(s, queue, now, answers, 0, fd) == Seen(s, fd)
  {
    hide DeferredFor;
    assert [] + queue[0..] == queue;
  }

  lemma TickProjects(s: FS.Sim, cfg: Config, now: Time, answers: nat -> FS.Answers, fd: int, ini: Conn)
    requires FS.SimOk(s) && fd in s.clients && SimOpOk(s, FS.Tick(now, answers))
    ensures Projects(s, cfg, FS.Tick(now, answers), fd, ini)
  {
    hide FS.SimOk;
    hide FS.FireUpTo;
    hide FS.Unripe;
    hide FireMoves;
    hide DeferredFor;
    hide CheckTimeout;
    hide Moves1;
    hide FS.PurgeAll;
    var gone := FS.TimedOut(s.clients, cfg, now);
    var s1 := FS.Reaped(s, gone);
    var n := |s1.pending|;
    var c, peer := s.clients[fd].conn, Seen(s, fd);
    FS.InstanceKnown(s, fd);
    TimeoutMove(c, DeferredFor(s.pending, fd), cfg, now);
    var timeout := PR.PeerMove(StillTick(c, cfg, now));
    MovesOne(ini, peer, timeout);
    FireClients(s1, s1.pending, now, answers, n);
    hide AfterMoves;
    hide AllEnabled;
    if fd in gone {
      assert [timeout] + [] == [timeout];
    } else {
      FS.ReapedKeeps(s, gone);
      DeferredPurgeAll(s.pending, gone, fd);
      assert Seen(s1, fd) == peer;
      FiresProject(s1, s1.pending, now, answers, n, fd, ini);
      assert FS.Unripe(s1.pending, now, n) + s1.pending[n..] == FS.Unripe(s1.pending, now, n);
      MovesConcat(ini, peer, [timeout], FireMoves(s1.pending, fd, now, answers, n));
    }
  }

  /** Every operation of the simulator is, to each client it has, a sequence of enabled moves of the two-party system's
      responder: same connection, same replies owed, and gone from the simulator exactly when the peer is gone. */
  lemma SimStepProjects(s: FS.Sim, cfg: Config, op: FS.SimOp, fd: int, ini: Conn)
    requires FS.SimOk(s) && fd in s.clients && SimOpOk(s, op) && Fed(s, op, fd, ini)
    ensures Projects(s, cfg, op, fd, ini)
  {
    hide FS.SimOk;
    hide Projects;
    match op {
      case Event(on, ev, now, a) =>
        if on == fd {
          EventProjects(s, cfg, fd, ev, now, a, ini);
        } else {
          OthersProject(s, cfg, op, fd, ini);
        }
      case Tick(now, answers) => TickProjects(s, cfg, now, answers, fd, ini);
      case Kill(on) =>
        if on == fd {
          KillProjects(s, cfg, fd, ini);
        } else {
          OthersProject(s, cfg, op, fd, ini);
        }
      case Accept(_, _, _) => OthersProject(s, cfg, op, fd, ini);
    }
  }
}
