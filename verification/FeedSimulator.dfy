/** The mock exchange of src/feed_simulator.h and src/feed_simulator.cpp: a map of accepted clients, each a
    responder `Connection`, and a queue of replies deferred by fault injection. Proved: a deferred reply
    always belongs to a live client, the very instance that received the PING, even when descriptor
    numbers are reused; each PING yields at most one PONG, echoing its own sequence and timestamp; and
    write interest is armed exactly for the clients that want it. */
module FeedSimulatorClass {
  import opened Crc32
  import opened Heartbeat
  import opened Stats
  import opened ConnectionModel
  import opened Protocol

  /** `instance` numbers accepted connections in order; the source tells them apart only by lifetime. */
  datatype Client = Client(conn: Conn, instance: nat)

  datatype PendingReply = PendingReply(fireAtNs: int, fd: int, sequence: uint64, timestampNs: int64, instance: nat)

  datatype Sim = Sim(
    clients: map<int, Client>,
    pending: seq<PendingReply>,
    interest: map<int, bool>,
    accepted: nat)

  // ---- Conservation of heartbeats, for any peer ----

  /** Replies queued, replies deferred and replies owed elsewhere never exceed the PINGs handled. */
  predicate Conserved(c: Conn, owed: multiset<Beat>) {
    Beats(c.io.queued, PONG) + owed + PendingBeats(c.io.deferred) <= Beats(c.io.handled, PING)
  }

  /** Operations that neither read nor reply. */
  lemma ConservedSame(c: Conn, r: Conn, owed: multiset<Beat>)
    requires Conserved(c, owed)
    requires r.io.queued == c.io.queued && r.io.deferred == c.io.deferred && r.io.handled == c.io.handled
    ensures Conserved(r, owed)
  {
    hide Beats;
    hide PendingBeats;
  }

  lemma QueueBeats(c: Conn, kind: uint8, sequence: uint64, timestampNs: int64)
    ensures
      var r := QueueWrite(c, Message(kind, c.feedId, sequence, timestampNs));
      && OnlyWrote(c, r)
      && Beats(r.io.queued, PONG) ==
         Beats(c.io.queued, PONG) + if kind == PONG then multiset{Beat(sequence, timestampNs)} else multiset{}
  {
    hide QueueWrite;
    hide Encode;
    hide Sealed;
    var m := Message(kind, c.feedId, sequence, timestampNs);
    BeatsAppend(c.io.queued, Sealed(m), PONG);
    SealedFields(m);
    hide Beats;
  }

  lemma SealedFields(m: HeartbeatMessage)
    ensures
      var r := Sealed(m);
      r.kind == m.kind && r.sequence == m.sequence && r.timestampNs == m.timestampNs
  {
    hide Checksum;
    hide Payload;
  }

  lemma PongConserved(c: Conn, owed: multiset<Beat>, sequence: uint64, timestampNs: int64)
    requires Conserved(c, owed + multiset{Beat(sequence, timestampNs)})
    ensures Conserved(SendPong(c, sequence, timestampNs), owed)
  {
    hide QueueWrite;
    hide Encode;
    hide Sealed;
    hide Beats;
    hide PendingBeats;
    QueueBeats(c, PONG, sequence, timestampNs);
  }

  lemma TakenConserved(c: Conn, m: HeartbeatMessage, owed: multiset<Beat>)
    requires Conserved(c, owed) && |c.readAccum| >= MESSAGE_SIZE
    ensures Conserved(TakeFrame(c, m), owed)
    ensures m.kind == PING ==> Conserved(TakeFrame(c, m), owed + multiset{Beat(m.sequence, m.timestampNs)})
  {
    BeatsAppend(c.io.handled, m, PING);
    hide Beats;
    hide PendingBeats;
  }

  lemma HelloConserved(c: Conn, m: HeartbeatMessage, now: Time, owed: multiset<Beat>)
    requires Conserved(c, owed)
    ensures Conserved(HandleConnectHello(c, m, now), owed)
  {
    hide QueueWrite;
    hide Beats;
    hide PendingBeats;
    hide Encode;
    hide Sealed;
    QueueBeats(c, CONNECT_ACK, 0, now);
  }

  lemma PingConserved(c: Conn, m: HeartbeatMessage, now: Time, owed: multiset<Beat>)
    requires Conserved(c, owed) && Conserved(c, owed + multiset{Beat(m.sequence, m.timestampNs)})
    ensures Conserved(HandlePing(c, m, now), owed)
  {
    hide SendPong;
    hide Beats;
    hide Encode;
    var beat := multiset{Beat(m.sequence, m.timestampNs)};
    var c1 := c.(lastLivenessNs := now);
    var c2 := if c1.io.verdicts == [] then c1 else c1.(io := c1.io.(verdicts := c1.io.verdicts[1..]));
    ConservedSame(c, c2, owed);
    ConservedSame(c, c2, owed + beat);
    PongConserved(c2, owed, m.sequence, m.timestampNs);
    if c1.io.verdicts != [] && c1.io.verdicts[0].Defer? {
      PendingAppend(c.io.deferred, Deferred(c1.io.verdicts[0].fireAtNs, m.sequence, m.timestampNs));
    }
    hide PendingBeats;
  }

  lemma PongHandled(c: Conn, timeoutNs: int, m: HeartbeatMessage, now: Time)
    ensures
      var r := HandlePong(c, timeoutNs, m, now);
      r.io.queued == c.io.queued && r.io.deferred == c.io.deferred && r.io.handled == c.io.handled
  {
    hide Remember;
    hide ConnectionStats.RecordPongReceived;
  }

  lemma MessageConserved(c: Conn, timeoutNs: int, m: HeartbeatMessage, now: Time, owed: multiset<Beat>)
    requires Conserved(c, owed) && |c.readAccum| >= MESSAGE_SIZE
    ensures Conserved(HandleMessage(TakeFrame(c, m), timeoutNs, m, now), owed)
  {
    hide Conserved;
    hide HandleConnectHello;
    hide HandlePing;
    hide HandlePong;
    var c0 := TakeFrame(c, m);
    TakenConserved(c, m, owed);
    if m.kind == CONNECT_HELLO {
      HelloConserved(c0, m, now, owed);
    } else if m.kind == PING {
      PingConserved(c0, m, now, owed);
    } else {
      PongHandled(c0, timeoutNs, m, now);
      ConservedSame(c0, HandleMessage(c0, timeoutNs, m, now), owed);
    }
  }

  lemma {:induction false} DrainConserved(c: Conn, timeoutNs: int, now: Time, owed: multiset<Beat>)
    requires Conserved(c, owed)
    ensures Conserved(Drain(c, timeoutNs, now), owed)
    decreases |c.readAccum|
  {
    hide Conserved;
    hide Decode;
    hide HandleMessage;
    if |c.readAccum| >= MESSAGE_SIZE {
      var d := Decode(c.readAccum[..MESSAGE_SIZE]);
      if d.None? {
        ConservedSame(c, Drain(c, timeoutNs, now), owed);
      } else {
        var c1 := HandleMessage(TakeFrame(c, d.value), timeoutNs, d.value, now);
        MessageConserved(c, timeoutNs, d.value, now, owed);
        HandlersLeaveInput(TakeFrame(c, d.value), timeoutNs, d.value, now);
        if c1.state == Failed {
          ConservedSame(c1, c1.(readAccum := []), owed);
        } else {
          DrainConserved(c1, timeoutNs, now, owed);
        }
      }
    }
  }

  // ---- One client ----

  datatype ClientEvent = ClientEvent(hangup: bool, readable: bool, writable: bool, recvs: seq<Recv>)

  /** The kernel's and the interceptor's answers while one client is served. */
  datatype Answers = Answers(clock: Time, sends: seq<Send>, verdicts: seq<Verdict>)

  /** A client's connection through one epoll event: hangup, or read then write. */
  function ServeConn(c: Conn, cfg: Config, ev: ClientEvent, now: Time, a: Answers): (r: Conn) {
    var c0 := WithKernel(c, a.clock, a.sends, a.verdicts);
    if ev.hangup then OnHangupOrError(c0, now)
    else
      var c1 := if ev.readable then OnReadable(c0, cfg.heartbeatTimeoutNs, now, ev.recvs) else c0;
      if c1.state != Failed && ev.writable then OnWritable(c1, now, true) else c1
  }

  predicate ClientConn(c: Conn, fd: int) {
    c.role == Responder && c.fd == fd && c.state != Connecting
  }

  lemma ReadableConserved(c: Conn, timeoutNs: int, now: Time, recvs: seq<Recv>, owed: multiset<Beat>)
    requires Conserved(c, owed)
    ensures Conserved(OnReadable(c, timeoutNs, now, recvs), owed)
  {
    hide Conserved;
    hide Drain;
    hide Receive;
    var (accum, ending) := Receive(c.readAccum, recvs);
    var c1 := c.(readAccum := accum);
    ConservedSame(c, c1, owed);
    if ending == Overflowed {
      ConservedSame(c1, FailWith(c1, ReadOverflow, now), owed);
    } else {
      DrainConserved(c1, timeoutNs, now, owed);
      var d := Drain(c1, timeoutNs, now);
      ConservedSame(d, FinishRead(d, ending, now), owed);
    }
  }

  lemma {:induction false} DrainResponder(c: Conn, timeoutNs: int, now: Time)
    requires c.role == Responder && c.state != Connecting
    ensures
      var r := Drain(c, timeoutNs, now);
      r.role == Responder && r.fd == c.fd && r.state != Connecting
    decreases |c.readAccum|
  {
    hide Decode;
    hide HandleMessage;
    if |c.readAccum| >= MESSAGE_SIZE && Decode(c.readAccum[..MESSAGE_SIZE]).Some? {
      var m := Decode(c.readAccum[..MESSAGE_SIZE]).value;
      var c1 := HandleMessage(TakeFrame(c, m), timeoutNs, m, now);
      HandlersLeaveInput(TakeFrame(c, m), timeoutNs, m, now);
      NeverConnecting(TakeFrame(c, m), timeoutNs, m, now);
      if c1.state != Failed {
        DrainResponder(c1, timeoutNs, now);
      }
    }
  }

  lemma NeverConnecting(c: Conn, timeoutNs: int, m: HeartbeatMessage, now: Time)
    requires c.state != Connecting
    ensures HandleMessage(c, timeoutNs, m, now).state != Connecting
  {
    hide QueueWrite;
    hide Encode;
    hide Sealed;
    hide Message;
    hide Remember;
    hide ConnectionStats.RecordPongReceived;
    var c1 := c.(lastLivenessNs := now);
    var c2 := if c1.io.verdicts == [] then c1 else c1.(io := c1.io.(verdicts := c1.io.verdicts[1..]));
    QueueWriteFrames(c2, Message(PONG, c.feedId, m.sequence, m.timestampNs));
  }

  lemma ServeKeeps(c: Conn, cfg: Config, ev: ClientEvent, now: Time, a: Answers, fd: int, owed: multiset<Beat>)
    requires ClientConn(c, fd) && Conserved(c, owed)
    ensures ClientConn(ServeConn(c, cfg, ev, now, a), fd) && Conserved(ServeConn(c, cfg, ev, now, a), owed)
  {
    hide Conserved;
    hide OnReadable;
    hide Flush;
    var c0 := WithKernel(c, a.clock, a.sends, a.verdicts);
    ConservedSame(c, c0, owed);
    if ev.hangup {
      ConservedSame(c0, OnHangupOrError(c0, now), owed);
    } else {
      var c1 := if ev.readable then OnReadable(c0, cfg.heartbeatTimeoutNs, now, ev.recvs) else c0;
      if ev.readable {
        ReadableConserved(c0, cfg.heartbeatTimeoutNs, now, ev.recvs, owed);
        ReadableResponder(c0, cfg.heartbeatTimeoutNs, now, ev.recvs);
      }
      if c1.state != Failed && ev.writable {
        ConservedSame(c1, Flush(c1), owed);
      }
    }
  }

  lemma ReadableResponder(c: Conn, timeoutNs: int, now: Time, recvs: seq<Recv>)
    requires c.role == Responder && c.state != Connecting
    ensures
      var r := OnReadable(c, timeoutNs, now, recvs);
      r.role == Responder && r.fd == c.fd && r.state != Connecting
  {
    hide Drain;
    hide Receive;
    DrainResponder(c.(readAccum := Receive(c.readAccum, recvs).0), timeoutNs, now);
  }

  lemma ReplyKeeps(c: Conn, a: Answers, sequence: uint64, timestampNs: int64, fd: int, owed: multiset<Beat>)
    requires ClientConn(c, fd) && Conserved(c, owed + multiset{Beat(sequence, timestampNs)})
    ensures
      var r := SendPong(WithKernel(c, a.clock, a.sends, a.verdicts), sequence, timestampNs);
      ClientConn(r, fd) && Conserved(r, owed) && r.io.deferred == c.io.deferred
  {
    hide Conserved;
    hide QueueWrite;
    hide Encode;
    hide Sealed;
    var k := WithKernel(c, a.clock, a.sends, a.verdicts);
    ConservedSame(c, k, owed + multiset{Beat(sequence, timestampNs)});
    PongConserved(k, owed, sequence, timestampNs);
  }

  // ---- The queue of deferred replies ----

  /** The beats the queue owes to the client on `fd`. */
  function Owed(pending: seq<PendingReply>, fd: int): (r: multiset<Beat>)
    decreases |pending|
  {
    if pending == [] then multiset{}
    else
      var p := pending[|pending| - 1];
      Owed(pending[..|pending| - 1], fd) + if p.fd == fd then multiset{Beat(p.sequence, p.timestampNs)} else multiset{}
  }

  /** `remove_if` on one descriptor. */
  function Purge(pending: seq<PendingReply>, fd: int): (r: seq<PendingReply>)
    decreases |pending|
  {
    if pending == [] then []
    else
      var p := pending[|pending| - 1];
      Purge(pending[..|pending| - 1], fd) + if p.fd == fd then [] else [p]
  }

  function Collected(ds: seq<Deferred>, fd: int, instance: nat): (r: seq<PendingReply>)
    ensures |r| == |ds|
    decreases |ds|
  {
    if ds == [] then []
    else
      var d := ds[|ds| - 1];
      Collected(ds[..|ds| - 1], fd, instance) + [PendingReply(d.fireAtNs, fd, d.sequence, d.timestampNs, instance)]
  }

  lemma OwedAppend(pending: seq<PendingReply>, p: PendingReply, fd: int)
    ensures Owed(pending + [p], fd) ==
            Owed(pending, fd) + if p.fd == fd then multiset{Beat(p.sequence, p.timestampNs)} else multiset{}
  {
    assert (pending + [p])[..|pending|] == pending;
  }

  lemma {:induction false} PurgeMembers(pending: seq<PendingReply>, fd: int)
    ensures forall p :: p in Purge(pending, fd) <==> p in pending && p.fd != fd
    decreases |pending|
  {
    if pending != [] {
      var n := |pending| - 1;
      PurgeMembers(pending[..n], fd);
      assert pending == pending[..n] + [pending[n]];
    }
  }

  lemma {:induction false} OwedPurge(pending: seq<PendingReply>, fd: int, g: int)
    ensures Owed(Purge(pending, fd), g) == if g == fd then multiset{} else Owed(pending, g)
    decreases |pending|
  {
    if pending != [] {
      var n := |pending| - 1;
      OwedPurge(pending[..n], fd, g);
      if pending[n].fd == fd {
        assert Purge(pending, fd) == Purge(pending[..n], fd);
      } else {
        OwedAppend(Purge(pending[..n], fd), pending[n], g);
      }
    }
  }

  lemma {:induction false} CollectedMembers(ds: seq<Deferred>, fd: int, instance: nat)
    ensures forall p :: p in Collected(ds, fd, instance) ==> p.fd == fd && p.instance == instance
    decreases |ds|
  {
    if ds != [] {
      CollectedMembers(ds[..|ds| - 1], fd, instance);
    }
  }

  lemma {:induction false} OwedConcat(a: seq<PendingReply>, b: seq<PendingReply>, g: int)
    ensures Owed(a + b, g) == Owed(a, g) + Owed(b, g)
    decreases |b|
  {
    if b == [] {
      assert a + b == a;
    } else {
      var front, p := b[..|b| - 1], b[|b| - 1];
      OwedConcat(a, front, g);
      assert b == front + [p] && a + b == (a + front) + [p];
      hide Owed;
      OwedAppend(a + front, p, g);
      OwedAppend(front, p, g);
    }
  }

  lemma {:induction false} CollectedOwed(ds: seq<Deferred>, fd: int, instance: nat, g: int)
    ensures Owed(Collected(ds, fd, instance), g) == if g == fd then PendingBeats(ds) else multiset{}
    decreases |ds|
  {
    if ds != [] {
      var n := |ds| - 1;
      var c := Collected(ds[..n], fd, instance);
      var p := PendingReply(ds[n].fireAtNs, fd, ds[n].sequence, ds[n].timestampNs, instance);
      CollectedOwed(ds[..n], fd, instance, g);
      assert Collected(ds, fd, instance) == c + [p];
      OwedAppend(c, p, g);
    }
  }

  lemma OwedCollected(pending: seq<PendingReply>, ds: seq<Deferred>, fd: int, instance: nat, g: int)
    ensures Owed(pending + Collected(ds, fd, instance), g) ==
            Owed(pending, g) + if g == fd then PendingBeats(ds) else multiset{}
  {
    hide Owed;
    hide Collected;
    hide PendingBeats;
    OwedConcat(pending, Collected(ds, fd, instance), g);
    CollectedOwed(ds, fd, instance, g);
  }

  // ---- The invariant ----

  predicate ClientOk(cl: Client, fd: int, owed: multiset<Beat>, accepted: nat) {
    && ClientConn(cl.conn, fd) && cl.conn.io.deferred == [] && cl.instance < accepted
    && Conserved(cl.conn, owed)
  }

  predicate ClientsOk(clients: map<int, Client>, pending: seq<PendingReply>, accepted: nat) {
    forall fd :: fd in clients ==> ClientOk(clients[fd], fd, Owed(pending, fd), accepted)
  }

  predicate DistinctInstances(clients: map<int, Client>) {
    forall fd, g :: fd in clients && g in clients && fd != g ==> clients[fd].instance != clients[g].instance
  }

  /** Every deferred reply is owed to a live client, the very instance that received the PING. */
  predicate PendingOk(clients: map<int, Client>, pending: seq<PendingReply>) {
    forall p :: p in pending ==> p.fd in clients && clients[p.fd].instance == p.instance
  }

  predicate InterestSynced(clients: map<int, Client>, interest: map<int, bool>) {
    && interest.Keys == clients.Keys
    && (forall fd :: fd in clients ==> interest[fd] == WantsWrite(clients[fd].conn))
  }

  predicate SimOk(s: Sim) {
    && ClientsOk(s.clients, s.pending, s.accepted)
    && DistinctInstances(s.clients)
    && PendingOk(s.clients, s.pending)
    && InterestSynced(s.clients, s.interest)
  }

  /** One client changes, keeping its instance; the queue changes only for that client. */
  lemma UpdateKeeps(s: Sim, fd: int, cl: Client, pending: seq<PendingReply>)
    requires SimOk(s) && fd in s.clients && cl.instance == s.clients[fd].instance
    requires ClientOk(cl, fd, Owed(pending, fd), s.accepted)
    requires forall g :: g in s.clients && g != fd ==> Owed(pending, g) == Owed(s.pending, g)
    requires forall p :: p in pending ==> p in s.pending || (p.fd == fd && p.instance == cl.instance)
    ensures SimOk(s.(clients := s.clients[fd := cl], pending := pending,
                     interest := s.interest[fd := WantsWrite(cl.conn)]))
  {
    hide ClientOk;
    hide WantsWrite;
    hide Owed;
  }

  // ---- What each operation does ----

  function WithoutClient(s: Sim, fd: int): (r: Sim) {
    s.(clients := s.clients - {fd}, pending := Purge(s.pending, fd), interest := s.interest - {fd})
  }

  /** Removing a client purges its replies, so a later client on the same number inherits none. */
  lemma RemoveKeeps(s: Sim, fd: int)
    requires SimOk(s)
    ensures SimOk(WithoutClient(s, fd))
  {
    hide ClientOk;
    hide WantsWrite;
    hide Owed;
    hide Purge;
    forall g | g in s.clients && g != fd
      ensures ClientOk(s.clients[g], g, Owed(Purge(s.pending, fd), g), s.accepted)
    {
      OwedPurge(s.pending, fd, g);
    }
    PurgeMembers(s.pending, fd);
  }

  function Accepting(s: Sim, fd: int, feedId: uint32, clock: Time): (r: Sim) {
    s.(clients := s.clients[fd := Client(NewConn(fd, Responder, feedId, clock), s.accepted)],
       interest := s.interest[fd := false], accepted := s.accepted + 1)
  }

  lemma {:induction false} NothingOwed(pending: seq<PendingReply>, fd: int)
    requires forall p :: p in pending ==> p.fd != fd
    ensures Owed(pending, fd) == multiset{}
    decreases |pending|
  {
    if pending != [] {
      var n := |pending| - 1;
      assert pending[n] in pending;
      forall p | p in pending[..n]
        ensures p.fd != fd
      {
        assert p in pending;
      }
      NothingOwed(pending[..n], fd);
    }
  }

  lemma NewClientOk(fd: int, feedId: uint32, clock: Time, instance: nat)
    ensures ClientOk(Client(NewConn(fd, Responder, feedId, clock), instance), fd, multiset{}, instance + 1)
    ensures !WantsWrite(NewConn(fd, Responder, feedId, clock))
  {}

  lemma MoreAccepted(cl: Client, fd: int, owed: multiset<Beat>, n: nat, m: nat)
    requires ClientOk(cl, fd, owed, n) && n <= m
    ensures ClientOk(cl, fd, owed, m) && cl.instance < n
  {
    hide Conserved;
  }

  lemma AcceptKeeps(s: Sim, fd: int, feedId: uint32, clock: Time)
    requires SimOk(s) && fd !in s.clients
    ensures SimOk(Accepting(s, fd, feedId, clock))
  {
    hide ClientOk;
    hide WantsWrite;
    hide NewConn;
    NothingOwed(s.pending, fd);
    hide Owed;
    NewClientOk(fd, feedId, clock, s.accepted);
    forall g | g in s.clients
      ensures ClientOk(s.clients[g], g, Owed(s.pending, g), s.accepted + 1) && s.clients[g].instance < s.accepted
    {
      MoreAccepted(s.clients[g], g, Owed(s.pending, g), s.accepted, s.accepted + 1);
    }
  }

  /** A client's connection after an event: its deferred replies go to the queue, its interest is synced. */
  function Settled(s: Sim, fd: int, c: Conn): (r: Sim)
    requires fd in s.clients
  {
    var cl := s.clients[fd];
    s.(clients := s.clients[fd := cl.(conn := c.(io := c.io.(deferred := [])))],
       pending := s.pending + Collected(c.io.deferred, fd, cl.instance),
       interest := s.interest[fd := WantsWrite(c)])
  }

  lemma SettledConn(c: Conn, fd: int, owed: multiset<Beat>, instance: nat, accepted: nat)
    requires ClientConn(c, fd) && Conserved(c, owed) && instance < accepted
    ensures
      var r := c.(io := c.io.(deferred := []));
      ClientOk(Client(r, instance), fd, owed + PendingBeats(c.io.deferred), accepted) && WantsWrite(r) == WantsWrite(c)
  {
    assert PendingBeats([]) == multiset{};
    hide PendingBeats;
    hide Beats;
  }

  lemma SettleKeeps(s: Sim, fd: int, c: Conn)
    requires SimOk(s) && fd in s.clients && ClientConn(c, fd) && Conserved(c, Owed(s.pending, fd))
    ensures SimOk(Settled(s, fd, c))
  {
    hide ClientConn;
    hide Conserved;
    hide WantsWrite;
    hide Owed;
    hide Collected;
    hide SimOk;
    var cl := s.clients[fd];
    var all := s.pending + Collected(c.io.deferred, fd, cl.instance);
    InstanceKnown(s, fd);
    SettledConn(c, fd, Owed(s.pending, fd), cl.instance, s.accepted);
    OwedCollected(s.pending, c.io.deferred, fd, cl.instance, fd);
    CollectedMembers(c.io.deferred, fd, cl.instance);
    forall g | g in s.clients && g != fd
      ensures Owed(all, g) == Owed(s.pending, g)
    {
      OwedCollected(s.pending, c.io.deferred, fd, cl.instance, g);
    }
    UpdateKeeps(s, fd, Client(c.(io := c.io.(deferred := [])), cl.instance), all);
  }

  lemma InstanceKnown(s: Sim, fd: int)
    requires SimOk(s) && fd in s.clients
    ensures ClientOk(s.clients[fd], fd, Owed(s.pending, fd), s.accepted)
    ensures s.clients[fd].instance < s.accepted && ClientConn(s.clients[fd].conn, fd)
    ensures Conserved(s.clients[fd].conn, Owed(s.pending, fd)) && s.clients[fd].conn.io.deferred == []
  {
    hide Owed;
    hide Conserved;
    hide WantsWrite;
  }

  function Served(s: Sim, cfg: Config, fd: int, ev: ClientEvent, now: Time, a: Answers): (r: Sim)
    requires fd in s.clients
  {
    var c := ServeConn(s.clients[fd].conn, cfg, ev, now, a);
    if c.state == Failed then WithoutClient(Settled(s, fd, c), fd) else Settled(s, fd, c)
  }

  lemma ServedKeeps(s: Sim, cfg: Config, fd: int, ev: ClientEvent, now: Time, a: Answers)
    requires SimOk(s) && fd in s.clients
    ensures SimOk(Served(s, cfg, fd, ev, now, a))
  {
    hide ServeConn;
    hide SimOk;
    hide Owed;
    hide Conserved;
    hide ClientOk;
    hide Purge;
    hide Collected;
    InstanceKnown(s, fd);
    ServeKeeps(s.clients[fd].conn, cfg, ev, now, a, fd, Owed(s.pending, fd));
    var c := ServeConn(s.clients[fd].conn, cfg, ev, now, a);
    SettleKeeps(s, fd, c);
    RemoveKeeps(Settled(s, fd, c), fd);
  }

  /** The clients that survive a tick's timeout check. */
  predicate TimesOut(cl: Client, cfg: Config, now: Time) {
    CheckTimeout(cl.conn, cfg, now).1
  }

  /** A responder that does not time out is left as it is. */
  lemma ResponderCheck(c: Conn, cfg: Config, now: Time)
    requires c.role == Responder && !CheckTimeout(c, cfg, now).1
    ensures CheckTimeout(c, cfg, now).0 == c
  {}

  /** The simulator once `check_timeout` has run on the clients in `done`. */
  function Checked(s: Sim, done: set<int>, cfg: Config, now: Time): (r: Sim) {
    s.(clients := map fd | fd in s.clients ::
                    if fd in done then s.clients[fd].(conn := CheckTimeout(s.clients[fd].conn, cfg, now).0)
                    else s.clients[fd])
  }

  lemma CheckedNone(s: Sim, cfg: Config, now: Time)
    ensures Checked(s, {}, cfg, now) == s
  {
    assert Checked(s, {}, cfg, now).clients == s.clients;
  }

  lemma CheckedOneMore(s: Sim, done: set<int>, fd: int, cfg: Config, now: Time)
    requires fd in s.clients && fd !in done
    ensures
      var r := Checked(s, done, cfg, now);
      var cl := s.clients[fd];
      && fd in r.clients && r.clients[fd] == cl
      && Checked(s, done + {fd}, cfg, now) ==
         r.(clients := r.clients[fd := cl.(conn := CheckTimeout(cl.conn, cfg, now).0)])
  {
    hide CheckTimeout;
    var r := Checked(s, done, cfg, now);
    var cl := s.clients[fd];
    assert Checked(s, done + {fd}, cfg, now).clients
        == r.clients[fd := cl.(conn := CheckTimeout(cl.conn, cfg, now).0)];
  }

  lemma CheckKeepsClient(s: Sim, fd: int, cfg: Config, now: Time)
    requires SimOk(s) && fd in s.clients
    ensures
      var cl := s.clients[fd];
      SimOk(s.(clients := s.clients[fd := cl.(conn := CheckTimeout(cl.conn, cfg, now).0)]))
  {
    hide SimOk;
    hide Conserved;
    InstanceKnown(s, fd);
    var cl := s.clients[fd];
    var c := CheckTimeout(cl.conn, cfg, now).0;
    ConservedSame(cl.conn, c, Owed(s.pending, fd));
    ClientAgain(cl, c, fd, Owed(s.pending, fd), s.accepted);
    hide ClientOk;
    UpdateKeeps(s, fd, cl.(conn := c), s.pending);
    InterestUnmoved(s, fd, c);
  }

  lemma InterestUnmoved(s: Sim, fd: int, c: Conn)
    requires SimOk(s) && fd in s.clients && WantsWrite(c) == WantsWrite(s.clients[fd].conn)
    ensures s.interest[fd := WantsWrite(c)] == s.interest
  {}

  /** Checking changes only the clients that are reaped: the others do not time out. */
  lemma CheckedTimedOut(s: Sim, cfg: Config, now: Time)
    requires SimOk(s)
    ensures Checked(s, s.clients.Keys, cfg, now) == Checked(s, TimedOut(s.clients, cfg, now), cfg, now)
  {
    hide SimOk;
    hide CheckTimeout;
    var gone := TimedOut(s.clients, cfg, now);
    forall fd | fd in s.clients && fd !in gone
      ensures CheckTimeout(s.clients[fd].conn, cfg, now).0 == s.clients[fd].conn
    {
      InstanceKnown(s, fd);
      ResponderCheck(s.clients[fd].conn, cfg, now);
    }
    assert Checked(s, s.clients.Keys, cfg, now).clients == Checked(s, gone, cfg, now).clients;
  }

  lemma ReapedChecked(s: Sim, cfg: Config, now: Time)
    ensures
      var gone := TimedOut(s.clients, cfg, now);
      Reaped(Checked(s, gone, cfg, now), gone) == Reaped(s, gone)
  {
    hide TimedOut;
    hide CheckTimeout;
    hide PurgeAll;
    var gone := TimedOut(s.clients, cfg, now);
    assert Checked(s, gone, cfg, now).clients - gone == s.clients - gone;
  }

  /** Sends the reply at the head of what is left of the queue. */
  function Replied(s: Sim, p: PendingReply, a: Answers): (r: Sim)
    requires p.fd in s.clients
  {
    var cl := s.clients[p.fd];
    var c := SendPong(WithKernel(cl.conn, a.clock, a.sends, a.verdicts), p.sequence, p.timestampNs);
    s.(clients := s.clients[p.fd := cl.(conn := c)], interest := s.interest[p.fd := WantsWrite(c)])
  }

  /** The queue while a tick works through it: replies kept for later, then replies not yet looked at. */
  lemma ReplyStep(s: Sim, kept: seq<PendingReply>, p: PendingReply, rest: seq<PendingReply>, a: Answers)
    requires SimOk(s) && s.pending == kept + [p] + rest
    ensures p.fd in s.clients && s.clients[p.fd].instance == p.instance
    ensures SimOk(Replied(s, p, a).(pending := kept + rest))
  {
    hide Owed;
    hide Conserved;
    hide ClientOk;
    hide SendPong;
    hide ClientsOk;
    hide InterestSynced;
    hide DistinctInstances;
    assert s.pending[|kept|] == p;
    var fd := p.fd;
    var cl := s.clients[fd];
    InstanceKnown(s, fd);
    hide SimOk;
    OwedMiddle(kept, p, rest, fd);
    forall g | g in s.clients && g != fd
      ensures Owed(kept + rest, g) == Owed(s.pending, g)
    {
      OwedMiddle(kept, p, rest, g);
    }
    ReplyKeeps(cl.conn, a, p.sequence, p.timestampNs, fd, Owed(kept + rest, fd));
    var c := SendPong(WithKernel(cl.conn, a.clock, a.sends, a.verdicts), p.sequence, p.timestampNs);
    ClientAgain(cl, c, fd, Owed(kept + rest, fd), s.accepted);
    forall q | q in kept + rest
      ensures q in s.pending
    {
      assert q in kept || q in rest;
    }
    UpdateKeeps(s, fd, cl.(conn := c), kept + rest);
  }

  lemma ClientAgain(cl: Client, c: Conn, fd: int, owed: multiset<Beat>, accepted: nat)
    requires ClientConn(c, fd) && c.io.deferred == [] && Conserved(c, owed) && cl.instance < accepted
    ensures ClientOk(cl.(conn := c), fd, owed, accepted)
  {
    hide Conserved;
  }

  lemma {:induction false} OwedMiddle(kept: seq<PendingReply>, p: PendingReply, rest: seq<PendingReply>, g: int)
    ensures Owed(kept + [p] + rest, g) ==
            Owed(kept + rest, g) + if p.fd == g then multiset{Beat(p.sequence, p.timestampNs)} else multiset{}
    decreases |rest|
  {
    if rest == [] {
      assert kept + [p] + rest == kept + [p] && kept + rest == kept;
      OwedAppend(kept, p, g);
    } else {
      var n := |rest| - 1;
      OwedMiddle(kept, p, rest[..n], g);
      assert kept + [p] + rest == (kept + [p] + rest[..n]) + [rest[n]];
      assert kept + rest == (kept + rest[..n]) + [rest[n]];
      OwedAppend(kept + [p] + rest[..n], rest[n], g);
      OwedAppend(kept + rest[..n], rest[n], g);
    }
  }

  // ---- The timer ----

  /** The clients a tick reaps: silent for a whole timeout, or stuck in the handshake that long. */
  function TimedOut(clients: map<int, Client>, cfg: Config, now: Time): (r: set<int>) {
    set fd | fd in clients && TimesOut(clients[fd], cfg, now)
  }

  function PurgeAll(pending: seq<PendingReply>, gone: set<int>): (r: seq<PendingReply>)
    decreases |pending|
  {
    if pending == [] then []
    else
      var p := pending[|pending| - 1];
      PurgeAll(pending[..|pending| - 1], gone) + if p.fd in gone then [] else [p]
  }

  lemma PurgeAppend(pending: seq<PendingReply>, p: PendingReply, fd: int)
    ensures Purge(pending + [p], fd) == Purge(pending, fd) + if p.fd == fd then [] else [p]
  {
    assert (pending + [p])[..|pending|] == pending;
  }

  lemma {:induction false} PurgeOneMore(pending: seq<PendingReply>, gone: set<int>, fd: int)
    ensures Purge(PurgeAll(pending, gone), fd) == PurgeAll(pending, gone + {fd})
    decreases |pending|
  {
    if pending != [] {
      var n := |pending| - 1;
      PurgeOneMore(pending[..n], gone, fd);
      if pending[n].fd in gone {
        assert PurgeAll(pending, gone) == PurgeAll(pending[..n], gone);
        assert PurgeAll(pending, gone + {fd}) == PurgeAll(pending[..n], gone + {fd});
      } else {
        PurgeAppend(PurgeAll(pending[..n], gone), pending[n], fd);
      }
    }
  }

  lemma {:induction false} PurgeNone(pending: seq<PendingReply>)
    ensures PurgeAll(pending, {}) == pending
    decreases |pending|
  {
    if pending != [] {
      PurgeNone(pending[..|pending| - 1]);
    }
  }

  lemma SomeMember(s: set<int>)
    requires s != {}
    ensures exists x :: x in s
  {
    assert (forall x :: x !in s) ==> s == {};
  }

  function Reaped(s: Sim, gone: set<int>): (r: Sim) {
    s.(clients := s.clients - gone, pending := PurgeAll(s.pending, gone), interest := s.interest - gone)
  }

  lemma ReapedOneMore(s: Sim, gone: set<int>, fd: int)
    ensures WithoutClient(Reaped(s, gone), fd) == Reaped(s, gone + {fd})
  {
    PurgeOneMore(s.pending, gone, fd);
    assert s.clients - gone - {fd} == s.clients - (gone + {fd});
    assert s.interest - gone - {fd} == s.interest - (gone + {fd});
  }

  lemma ReapedNone(s: Sim)
    ensures Reaped(s, {}) == s
  {
    PurgeNone(s.pending);
    assert s.clients - {} == s.clients && s.interest - {} == s.interest;
  }

  /** The replies of `queue[..k]` not yet due, and the simulator after sending the others in order. */
  function Unripe(queue: seq<PendingReply>, now: Time, k: nat): (r: seq<PendingReply>)
    requires k <= |queue|
    decreases k
  {
    if k == 0 then []
    else Unripe(queue, now, k - 1) + if now < queue[k - 1].fireAtNs then [queue[k - 1]] else []
  }

  function FireUpTo(s: Sim, queue: seq<PendingReply>, now: Time, answers: nat -> Answers, k: nat): (r: Sim)
    requires k <= |queue|
    decreases k
  {
    if k == 0 then s
    else
      var s1 := FireUpTo(s, queue, now, answers, k - 1);
      var p := queue[k - 1];
      if now < p.fireAtNs || p.fd !in s1.clients then s1 else Replied(s1, p, answers(k - 1))
  }

  /** A queued reply always finds its client, and after the tick's `k`-th look the invariant holds with the
      queue cut down to what was kept and what is still to come. */
  lemma {:induction false} FireKeeps(s: Sim, queue: seq<PendingReply>, now: Time, answers: nat -> Answers, k: nat)
    requires SimOk(s) && s.pending == queue && k <= |queue|
    ensures SimOk(FireUpTo(s, queue, now, answers, k).(pending := Unripe(queue, now, k) + queue[k..]))
    ensures k < |queue| ==> queue[k].fd in FireUpTo(s, queue, now, answers, k).clients
                            && FireUpTo(s, queue, now, answers, k).clients[queue[k].fd].instance == queue[k].instance
    decreases k
  {
    hide SimOk;
    hide Replied;
    if k == 0 {
      assert Unripe(queue, now, 0) + queue[0..] == queue;
      assert s.(pending := queue) == s;
    } else {
      FireKeeps(s, queue, now, answers, k - 1);
      var s1 := FireUpTo(s, queue, now, answers, k - 1);
      var kept, p, rest := Unripe(queue, now, k - 1), queue[k - 1], queue[k..];
      assert kept + queue[k - 1..] == kept + [p] + rest;
      var s0 := s1.(pending := kept + [p] + rest);
      if now < p.fireAtNs {
        assert Unripe(queue, now, k) + rest == kept + [p] + rest;
      } else {
        ReplyStep(s0, kept, p, rest, answers(k - 1));
        ReplyIgnoresQueue(s1, p, answers(k - 1), kept + [p] + rest, kept + rest);
        assert Unripe(queue, now, k) + rest == kept + rest;
      }
    }
    if k < |queue| {
      var r := FireUpTo(s, queue, now, answers, k).(pending := Unripe(queue, now, k) + queue[k..]);
      assert r.pending[|Unripe(queue, now, k)|] == queue[k];
      PendingFound(r, queue[k]);
    }
  }

  lemma ReplyIgnoresQueue(s: Sim, p: PendingReply, a: Answers, q1: seq<PendingReply>, q2: seq<PendingReply>)
    requires p.fd in s.clients
    ensures Replied(s.(pending := q1), p, a).(pending := q2) == Replied(s, p, a).(pending := q2)
  {
    hide SendPong;
    hide WantsWrite;
  }

  lemma PendingFound(s: Sim, p: PendingReply)
    requires SimOk(s) && p in s.pending
    ensures p.fd in s.clients && s.clients[p.fd].instance == p.instance
  {
    hide ClientsOk;
    hide InterestSynced;
  }

  class FeedSimulator {
    const feedId: uint32
    var cfg: Config
    var clients: map<int, Client>
    var pending: seq<PendingReply>
    // The kernel's epoll set with its EPOLLOUT bits, and a counter of accepted connections.
    var interest: map<int, bool>
    var accepted: nat

    ghost function View(): (r: Sim)
      reads this
    {
      Sim(clients, pending, interest, accepted)
    }

    ghost predicate Valid()
      reads this
    {
      SimOk(View())
    }

    constructor (feedId: uint32, cfg: Config)
      ensures Valid() && clients == map[] && pending == [] && this.feedId == feedId && this.cfg == cfg
    {
      this.feedId, this.cfg := feedId, cfg;
      clients, pending, interest, accepted := map[], [], map[], 0;
    }

    /** A new client starts with no reply owed to it, whatever its descriptor number meant before. */
    method AcceptNewConnection(fd: int, clock: Time)
      requires Valid() && fd !in clients
      modifies this
      ensures Valid() && cfg == old(cfg) && View() == Accepting(old(View()), fd, feedId, clock)
      ensures forall p :: p in pending ==> p.fd != fd
    {
      hide SimOk;
      hide NewConn;
      AcceptKeeps(View(), fd, feedId, clock);
      NoneFor(View(), fd);
      clients := clients[fd := Client(NewConn(fd, Responder, feedId, clock), accepted)];
      interest := interest[fd := false];
      accepted := accepted + 1;
    }

    /** Purges the replies still pending for the descriptor before its number can be reused. */
    method RemoveClient(fd: int)
      requires Valid()
      modifies this
      ensures Valid() && cfg == old(cfg) && View() == WithoutClient(old(View()), fd)
      ensures forall p :: p in pending ==> p.fd != fd
    {
      hide SimOk;
      RemoveKeeps(View(), fd);
      interest := interest - {fd};
      var kept: seq<PendingReply> := [];
      for i := 0 to |pending|
        invariant kept == Purge(pending[..i], fd)
      {
        assert pending[..i + 1][..i] == pending[..i];
        if pending[i].fd != fd {
          kept := kept + [pending[i]];
        }
      }
      assert pending[..|pending|] == pending;
      PurgeMembers(pending, fd);
      pending := kept;
      clients := clients - {fd};
    }

    method HandleClientEvent(fd: int, ev: ClientEvent, now: Time, a: Answers)
      requires Valid()
      modifies this
      ensures Valid() && cfg == old(cfg)
      ensures fd !in old(clients) ==> View() == old(View())
      ensures fd in old(clients) ==> View() == Served(old(View()), cfg, fd, ev, now, a)
    {
      hide SimOk;
      hide ServeConn;
      hide Collected;
      hide Purge;
      hide WantsWrite;
      if fd !in clients {
        return;
      }
      ghost var s := View();
      ServedKeeps(s, cfg, fd, ev, now, a);
      SettledOk(s, cfg, fd, ev, now, a);
      var client := clients[fd];
      var c := ServeConn(client.conn, cfg, ev, now, a);
      pending := pending + Collected(c.io.deferred, fd, client.instance);
      clients := clients[fd := client.(conn := c.(io := c.io.(deferred := [])))];
      interest := interest[fd := WantsWrite(c)];
      assert View() == Settled(s, fd, c);
      if c.state == Failed {
        RemoveClient(fd);
      }
    }

    /** Any connected client may be the one killed. */
    method KillConnection(fd: int)
      requires Valid()
      modifies this
      ensures Valid() && cfg == old(cfg)
      ensures View() == if fd in old(clients) then WithoutClient(old(View()), fd) else old(View())
    {
      if fd in clients {
        RemoveClient(fd);
      }
    }

    /** Reaps every client that has timed out. */
    method ReapClients(now: Time)
      requires Valid()
      modifies this
      ensures Valid() && cfg == old(cfg)
      ensures View() == Reaped(old(View()), TimedOut(old(clients), cfg, now))
    {
      hide SimOk;
      hide PurgeAll;
      hide Purge;
      hide TimedOut;
      hide Checked;
      ghost var before := View();
      var failed := CheckClients(now);
      ghost var s := View();
      var todo := failed;
      ghost var gone: set<int> := {};
      ReapedNone(s);
      while todo != {}
        invariant Valid() && cfg == old(cfg) && View() == Reaped(s, gone)
        invariant gone + todo == failed && gone !! todo
        decreases |todo|
      {
        SomeMember(todo);
        var fd :| fd in todo;
        ReapedOneMore(s, gone, fd);
        RemoveClient(fd);
        gone := gone + {fd};
        todo := todo - {fd};
      }
      assert gone == failed;
      ReapedChecked(before, cfg, now);
    }

    /** Runs `check_timeout` on every client and collects those it fails. A responder that does not time
        out is left as it is. */
    method CheckClients(now: Time) returns (failed: set<int>)
      requires Valid()
      modifies this`clients
      ensures Valid() && failed == TimedOut(old(clients), cfg, now)
      ensures View() == Checked(old(View()), TimedOut(old(clients), cfg, now), cfg, now)
    {
      hide SimOk;
      hide CheckTimeout;
      hide Checked;
      ghost var s := View();
      var todo := clients.Keys;
      ghost var done: set<int> := {};
      failed := {};
      CheckedNone(s, cfg, now);
      while todo != {}
        invariant Valid() && View() == Checked(s, done, cfg, now)
        invariant done + todo == s.clients.Keys && done !! todo
        invariant failed == set fd | fd in done && TimesOut(s.clients[fd], cfg, now)
        decreases |todo|
      {
        SomeMember(todo);
        var fd :| fd in todo;
        CheckedOneMore(s, done, fd, cfg, now);
        var (c, failedNow) := CheckTimeout(clients[fd].conn, cfg, now);
        CheckKeepsClient(View(), fd, cfg, now);
        clients := clients[fd := clients[fd].(conn := c)];
        if failedNow {
          failed := failed + {fd};
        }
        done := done + {fd};
        todo := todo - {fd};
      }
      assert done == s.clients.Keys;
      CheckedTimedOut(s, cfg, now);
    }

    /** One tick: reap, then send every deferred reply that is due, in queue order, each to the instance
        that received its PING. */
    method OnTimerTick(now: Time, answers: nat -> Answers)
      requires Valid()
      modifies this
      ensures Valid() && cfg == old(cfg)
      ensures
        var s := Reaped(old(View()), TimedOut(old(clients), cfg, now));
        var n := |s.pending|;
        View() == FireUpTo(s, s.pending, now, answers, n).(pending := Unripe(s.pending, now, n))
    {
      hide SimOk;
      hide Reaped;
      hide Replied;
      ReapClients(now);
      ghost var s := View();
      var stillPending: seq<PendingReply> := [];
      for i := 0 to |pending|
        invariant cfg == old(cfg) && pending == s.pending && stillPending == Unripe(pending, now, i)
        invariant View() == FireUpTo(s, s.pending, now, answers, i)
      {
        var p := pending[i];
        FireKeeps(s, s.pending, now, answers, i);
        if now < p.fireAtNs {
          stillPending := stillPending + [p];
        } else {
          assert p.fd in clients;  // the "client disconnected" case does not arise
          SendDeferred(p, answers(i));
        }
      }
      FireKeeps(s, s.pending, now, answers, |pending|);
      assert Unripe(s.pending, now, |pending|) + s.pending[|pending|..] == stillPending;
      pending := stillPending;
    }

    method SendDeferred(p: PendingReply, a: Answers)
      requires p.fd in clients
      modifies this`clients, this`interest
      ensures View() == Replied(old(View()), p, a)
    {
      hide SendPong;
      var client := clients[p.fd];
      var c := SendPong(WithKernel(client.conn, a.clock, a.sends, a.verdicts), p.sequence, p.timestampNs);
      clients := clients[p.fd := client.(conn := c)];
      interest := interest[p.fd := WantsWrite(c)];
    }
  }

  lemma NoneFor(s: Sim, fd: int)
    requires SimOk(s) && fd !in s.clients
    ensures forall p :: p in s.pending ==> p.fd != fd
  {
    hide ClientsOk;
    hide InterestSynced;
  }

  lemma SettledOk(s: Sim, cfg: Config, fd: int, ev: ClientEvent, now: Time, a: Answers)
    requires SimOk(s) && fd in s.clients
    ensures SimOk(Settled(s, fd, ServeConn(s.clients[fd].conn, cfg, ev, now, a)))
  {
    hide SimOk;
    hide ServeConn;
    hide Owed;
    hide Conserved;
    hide ClientOk;
    hide Collected;
    InstanceKnown(s, fd);
    ServeKeeps(s.clients[fd].conn, cfg, ev, now, a, fd, Owed(s.pending, fd));
    SettleKeeps(s, fd, ServeConn(s.clients[fd].conn, cfg, ev, now, a));
  }

  // ---- Every run of the simulator ----

  datatype SimOp =
    | Accept(fd: int, feedId: uint32, clock: Time)
    | Event(on: int, ev: ClientEvent, now: Time, a: Answers)
    | Tick(now: Time, answers: nat -> Answers)
    | Kill(on: int)

  function SimStep(s: Sim, cfg: Config, op: SimOp): (r: Sim) {
    match op
    case Accept(fd, feedId, clock) => if fd in s.clients then s else Accepting(s, fd, feedId, clock)
    case Event(fd, ev, now, a) => if fd in s.clients then Served(s, cfg, fd, ev, now, a) else s
    case Tick(now, answers) =>
      var s1 := Reaped(s, TimedOut(s.clients, cfg, now));
      FireUpTo(s1, s1.pending, now, answers, |s1.pending|).(pending := Unripe(s1.pending, now, |s1.pending|))
    case Kill(fd) => if fd in s.clients then WithoutClient(s, fd) else s
  }

  lemma {:induction false} ReapedKeeps(s: Sim, gone: set<int>)
    requires SimOk(s)
    ensures SimOk(Reaped(s, gone))
    decreases gone
  {
    hide SimOk;
    if gone == {} {
      ReapedNone(s);
    } else {
      SomeMember(gone);
      var fd :| fd in gone;
      var rest := gone - {fd};
      ReapedKeeps(s, rest);
      ReapedOneMore(s, rest, fd);
      RemoveKeeps(Reaped(s, rest), fd);
      assert rest + {fd} == gone;
    }
  }

  lemma StepKeeps(s: Sim, cfg: Config, op: SimOp)
    requires SimOk(s)
    ensures SimOk(SimStep(s, cfg, op))
  {
    hide SimOk;
    hide Served;
    hide Reaped;
    hide Accepting;
    hide WithoutClient;
    match op {
      case Accept(fd, feedId, clock) =>
        if fd !in s.clients {
          AcceptKeeps(s, fd, feedId, clock);
        }
      case Event(fd, ev, now, a) =>
        if fd in s.clients {
          ServedKeeps(s, cfg, fd, ev, now, a);
        }
      case Tick(now, answers) =>
        var s1 := Reaped(s, TimedOut(s.clients, cfg, now));
        ReapedKeeps(s, TimedOut(s.clients, cfg, now));
        var n := |s1.pending|;
        FireKeeps(s1, s1.pending, now, answers, n);
        assert Unripe(s1.pending, now, n) + s1.pending[n..] == Unripe(s1.pending, now, n);
      case Kill(fd) => RemoveKeeps(s, fd);
    }
  }

  function SimRun(cfg: Config, ops: seq<SimOp>): (r: Sim)
    decreases |ops|
  {
    if ops == [] then Sim(map[], [], map[], 0) else SimStep(SimRun(cfg, ops[..|ops| - 1]), cfg, ops[|ops| - 1])
  }

  lemma {:induction false} RunKeeps(cfg: Config, ops: seq<SimOp>)
    ensures SimOk(SimRun(cfg, ops))
    decreases |ops|
  {
    hide SimStep;
    if ops != [] {
      hide SimOk;
      RunKeeps(cfg, ops[..|ops| - 1]);
      StepKeeps(SimRun(cfg, ops[..|ops| - 1]), cfg, ops[|ops| - 1]);
    }
  }

  /** Deferred-reply integrity, over every run: a pending reply's descriptor is a live client, the same
      instance that received the PING; each client's queued PONGs and pending replies, as (sequence,
      timestamp) pairs with multiplicity, are included in the PINGs it handled; instances are never
      confused; and write interest is armed exactly when wanted. */
  lemma DeferredReplyIntegrity(cfg: Config, ops: seq<SimOp>)
    ensures
      var s := SimRun(cfg, ops);
      && PendingOk(s.clients, s.pending) && DistinctInstances(s.clients) && InterestSynced(s.clients, s.interest)
      && (forall fd :: fd in s.clients ==>
            Beats(s.clients[fd].conn.io.queued, PONG) + Owed(s.pending, fd) <= Beats(s.clients[fd].conn.io.handled, PING))
  {
    hide SimRun;
    RunKeeps(cfg, ops);
    var s := SimRun(cfg, ops);
    assert PendingBeats([]) == multiset{};
    hide Beats;
    hide Owed;
    hide PendingBeats;
    forall fd | fd in s.clients
      ensures Beats(s.clients[fd].conn.io.queued, PONG) + Owed(s.pending, fd) <= Beats(s.clients[fd].conn.io.handled, PING)
    {
      assert ClientOk(s.clients[fd], fd, Owed(s.pending, fd), s.accepted);
    }
  }
}
