/** Every run of the two-party heartbeat system: connect completion, reads cut anywhere, partial
    writes, ticks, dropped and deferred replies, kills and reconnects, in any order. */
module ProtocolRuns {
  import opened Crc32
  import opened Heartbeat
  import opened Stats
  import opened ConnectionModel
  import opened ConnectionRuns
  import opened Reassembly
  import opened Protocol

  /** The responder of the current attempt: not yet accepted, a client of the simulator together with
      the replies it still owes, or removed. */
  datatype Peer = Absent | Alive(conn: Conn, pending: seq<Deferred>) | Gone(conn: Conn)

  datatype System = System(ini: Conn, peer: Peer)

  datatype Move =
    | IniMove(step: Step)
    | AcceptPeer(fd: int, clock: Time)
    | PeerMove(step: Step)
    | Fire(i: nat, clock: Time, sends: seq<Send>)
    | Kill

  /** The writer at the other end of the initiator's socket. */
  function PeerConn(s: System): (r: Conn) {
    if s.peer.Absent? then NewConn(0, Responder, s.ini.feedId, 0) else s.peer.conn
  }

  /** What the reactors and the kernel can do next. Reads deliver the next bytes in flight. */
  predicate Enabled(s: System, m: Move) {
    match m
    case IniMove(step) =>
      (match step.event
       case Readable(_, recvs) =>
         s.ini.state != Failed && Received(s.ini) + Delivered(recvs) <= PeerConn(s).io.sent
       case Reconnect(_, _) => s.ini.state == Failed
       case PongDue(_, _) => false
       case _ => true)
    case AcceptPeer(_, _) => s.peer.Absent?
    case PeerMove(step) =>
      s.peer.Alive? &&
      (match step.event
       case Readable(_, recvs) => Received(s.peer.conn) + Delivered(recvs) <= s.ini.io.sent
       case Writable(_, _) => true
       case Hangup(_) => true
       case Tick(_) => true
       case _ => false)
    case Fire(i, _, _) => s.peer.Alive? && i < |s.peer.pending|
    case Kill => s.peer.Alive?
  }

  /** The simulator collects deferred replies after each event, and removes a client that failed in it
      (on a tick, only one that this tick timed out). */
  function Settle(before: Conn, after: Conn, pending: seq<Deferred>, tick: bool): (r: Peer) {
    var c := after.(io := after.io.(deferred := []));
    if after.state == Failed && !(tick && before.state == Failed) then Gone(c)
    else Alive(c, pending + after.io.deferred)
  }

  function Next(s: System, m: Move): (r: System) {
    match m
    case IniMove(step) =>
      System(Apply(s.ini, step), if step.event.Reconnect? then Absent else s.peer)
    case AcceptPeer(fd, clock) => s.(peer := Alive(NewConn(fd, Responder, s.ini.feedId, clock), []))
    case PeerMove(step) =>
      if !s.peer.Alive? then s
      else s.(peer := Settle(s.peer.conn, Apply(s.peer.conn, step), s.peer.pending, step.event.Tick?))
    case Fire(i, clock, sends) =>
      if !s.peer.Alive? || i >= |s.peer.pending| then s
      else
        var d := s.peer.pending[i];
        var c := WithKernel(s.peer.conn, clock, sends, []);
        s.(peer := Alive(SendPong(c, d.sequence, d.timestampNs), Without(s.peer.pending, i)))
    case Kill => if s.peer.Alive? then s.(peer := Gone(s.peer.conn)) else s
  }

  // ---- The invariant ----

  predicate PeerInv(s: System) {
    match s.peer
    case Absent => true
    case Alive(c, pending) => PeerOk(c, pending, s.ini) && c.io.deferred == []
    case Gone(c) => PeerState(c, s.ini.feedId) && Echoes(c, []) && c.io.handled <= s.ini.io.queued
  }

  predicate IniInv(s: System) {
    && IniState(s.ini) && Credit(s.ini)
    && s.ini.io.handled <= PeerConn(s).io.queued
    && (s.ini.state != Failed ==> Received(s.ini) <= PeerConn(s).io.sent)
  }

  predicate Inv(s: System) {
    IniInv(s) && PeerInv(s)
  }

  // ---- Consequences ----

  /** Every accepted PONG answers its own PING of this attempt: as multisets of (sequence, timestamp),
      accepted evidence is included in the PINGs queued, so no PING is counted twice. */
  predicate Authentic(c: Conn) {
    && AcceptedBeats(c.io.accepted) <= Beats(c.io.queued, PING)
    && (forall e :: e in c.io.accepted ==> e.rttNs == e.atNs - e.timestampNs)
    && c.stats.heartbeatsAcked <= c.stats.heartbeatsSent
  }

  lemma SubmultisetSize<T>(a: multiset<T>, b: multiset<T>)
    requires a <= b
    ensures |a| <= |b|
  {
    assert b == a + (b - a);
  }

  lemma InvAuthentic(s: System)
    requires Inv(s)
    ensures Authentic(s.ini)
  {
    hide EncodeAll;
    hide AcceptedBeats;
    hide Legit;
    var c, w := s.ini, PeerConn(s);
    BeatsPrefix(c.io.handled, w.io.queued, PONG);
    BeatsPrefix(w.io.handled, c.io.queued, PING);
    hide PendingBeats;
    if s.peer.Absent? {
      assert Beats(c.io.handled, PONG) == multiset{};
    }
    hide Beats;
    assert AcceptedBeats(c.io.accepted) <= Beats(c.io.queued, PING);
    SubmultisetSize(AcceptedBeats(c.io.accepted), Beats(c.io.queued, PING));
  }

  /** What holds of every responder, served or not, in relation to the initiator. */
  predicate Writer(w: Conn, ini: Conn) {
    && WriterOk(w) && FromResponder(w.io.queued, ini.feedId)
    && (w.io.queued != [] ==> w.io.handled != [])
    && w.io.handled <= ini.io.queued
  }

  lemma AbsentWriter(ini: Conn)
    ensures Writer(NewConn(0, Responder, ini.feedId, 0), ini)
  {
    hide Legit;
  }

  lemma InvWriter(s: System)
    requires PeerInv(s)
    ensures Writer(PeerConn(s), s.ini)
  {
    hide EncodeAll;
    hide Beats;
    hide PendingBeats;
    hide FromResponder;
    hide NewConn;
    AbsentWriter(s.ini);
  }

  lemma InvAnswers(s: System)
    requires PeerInv(s)
    ensures Answers(PeerConn(s), s.ini)
  {
    hide EncodeAll;
    hide FromResponder;
    hide PeerConn;
    InvWriter(s);
  }

  // ---- Moves of the initiator ----

  /** How the initiator's outbound side can change in one step of one attempt. */
  predicate Grows(c: Conn, r: Conn) {
    r.feedId == c.feedId && c.io.queued <= r.io.queued && c.io.sent <= r.io.sent
  }

  lemma PeerKeeps(s: System, ini: Conn)
    requires PeerInv(s) && Grows(s.ini, ini)
    ensures PeerInv(System(ini, s.peer))
  {
    hide EncodeAll;
    hide Beats;
    hide PendingBeats;
    hide Legit;
  }

  predicate SameInput(c: Conn, r: Conn) {
    r.io.handled == c.io.handled && r.readAccum == c.readAccum
  }

  lemma IniQueues(c: Conn, kind: uint8, sequence: uint64, now: Time)
    requires c.role == Initiator && WriterOk(c) && FromInitiator(c.io.queued, c.feedId) && NoFault(c)
    requires IsKnownMessageType(kind) && kind == if c.io.queued == [] then CONNECT_HELLO else PING
    ensures
      var r := QueueWrite(c, Message(kind, c.feedId, sequence, now));
      && OnlyWrote(c, r) && Grows(c, r) && r.io.queued != []
      && WriterOk(r) && FromInitiator(r.io.queued, r.feedId) && NoFault(r)
      && |Beats(r.io.queued, PING)| == |Beats(c.io.queued, PING)| + if kind == PING then 1 else 0
  {
    hide QueueWrite;
    hide Encode;
    hide Sealed;
    hide Beats;
    hide Message;
    hide EncodeAll;
    var m := Message(kind, c.feedId, sequence, now);
    QueueWriteFifo(c, m);
    MessageLegit(kind, c.feedId, sequence, now);
    BeatsAppend(c.io.queued, Sealed(m), PING);
  }

  lemma IniPing(c: Conn, now: Time)
    requires IniState(c) && Credit(c)
    ensures
      var r := SendPing(c, now);
      IniState(r) && Credit(r) && Grows(c, r) && SameInput(c, r) && (c.state == Failed ==> r.state == Failed)
  {
    hide QueueWrite;
    hide Encode;
    hide Sealed;
    hide EncodeAll;
    hide Beats;
    hide AcceptedBeats;
    hide FromInitiator;
    if c.state == Healthy || c.state == Degraded {
      IniQueues(c.(nextSequence := NextSequence(c.nextSequence)), PING, c.nextSequence, now);
    }
  }

  lemma IniWritable(c: Conn, now: Time, ok: bool)
    requires IniState(c) && Credit(c)
    ensures
      var r := OnWritable(c, now, ok);
      IniState(r) && Credit(r) && Grows(c, r) && SameInput(c, r) && (c.state == Failed ==> r.state == Failed)
  {
    hide QueueWrite;
    hide Flush;
    hide Encode;
    hide Sealed;
    hide EncodeAll;
    hide Beats;
    hide AcceptedBeats;
    hide FromInitiator;
    if c.state == Connecting {
      NothingSaid(c.feedId);
      IniQueues(TransitionTo(c, Handshaking, now), CONNECT_HELLO, 0, now);
    }
  }

  lemma NothingSaid(feedId: uint32)
    ensures FromInitiator([], feedId)
  {}

  /** Steps that change neither traffic nor evidence, and at most add a harmless reason to the log. */
  lemma IniQuiet(c: Conn, r: Conn)
    requires IniState(c) && Credit(c)
    requires r.role == c.role && r.feedId == c.feedId && r.writePending == c.writePending
    requires r.io.queued == c.io.queued && r.io.sent == c.io.sent && r.io.handled == c.io.handled
    requires r.io.accepted == c.io.accepted
    requires r.stats.heartbeatsAcked == c.stats.heartbeatsAcked && r.stats.heartbeatsSent == c.stats.heartbeatsSent
    requires r.io.log == c.io.log || r.io.log == c.io.log + [SocketError]
    requires r.state == c.state || r.state == Failed || (c.state == Healthy && r.state == Degraded)
    ensures IniState(r) && Credit(r)
  {
    hide EncodeAll;
    hide Beats;
    hide AcceptedBeats;
    hide FromInitiator;
  }

  lemma MissKeepsCounts(st: ConnectionStats)
    ensures st.RecordMissed().heartbeatsAcked == st.heartbeatsAcked
    ensures st.RecordMissed().heartbeatsSent == st.heartbeatsSent
  {}

  lemma IniTimers(c: Conn, s: Step)
    requires IniState(c) && Credit(c) && (s.event.Tick? || s.event.Hangup? || s.event.NewBaseline?)
    ensures
      var r := Apply(c, s);
      IniState(r) && Credit(r) && Grows(c, r) && SameInput(c, r) && (c.state == Failed ==> r.state == Failed)
  {
    hide OnReadable;
    hide OnWritable;
    hide SendPing;
    hide SendPong;
    hide Rebind;
    hide IniState;
    hide Credit;
    hide NoFault;
    hide ConnectionStats.RecordMissed;
    MissKeepsCounts(c.stats);
    IniFacts(c);
    IniQuiet(c, Apply(c, s));
  }

  /** Every step of the initiator other than reading or reconnecting. */
  lemma IniLocal(c: Conn, s: Step)
    requires IniState(c) && Credit(c)
    requires !s.event.Readable? && !s.event.Reconnect? && !s.event.PongDue?
    ensures
      var r := Apply(c, s);
      IniState(r) && Credit(r) && Grows(c, r) && SameInput(c, r) && (c.state == Failed ==> r.state == Failed)
  {
    hide SendPing;
    hide OnWritable;
    hide EncodeAll;
    hide Beats;
    hide AcceptedBeats;
    hide FromInitiator;
    var k := WithKernel(c, s.clock, s.sends, s.verdicts);
    match s.event {
      case PingDue(now) => IniPing(k, now);
      case Writable(now, ok) => IniWritable(k, now, ok);
      case _ => IniTimers(c, s);
    }
  }

  lemma IniReadable(s: System, step: Step)
    requires Inv(s) && step.event.Readable? && Enabled(s, IniMove(step))
    ensures
      var r := Apply(s.ini, step);
      && IniState(r) && Credit(r) && Grows(s.ini, r)
      && r.io.handled <= PeerConn(s).io.queued
      && (r.state != Failed ==> Received(r) <= PeerConn(s).io.sent)
  {
    hide Drain;
    hide EncodeAll;
    hide Beats;
    hide AcceptedBeats;
    hide FromInitiator;
    hide FromResponder;
    hide PeerState;
    hide Echoes;
    hide Receive;
    hide Delivered;
    var w, recvs, now := PeerConn(s), step.event.recvs, step.event.now;
    var k := WithKernel(s.ini, step.clock, step.sends, step.verdicts);
    var (accum, ending) := Receive(k.readAccum, recvs);
    ReceiveAppends(k.readAccum, recvs);
    InvAnswers(s);
    var k1 := k.(readAccum := accum);
    if ending != Overflowed {
      assert EncodeAll(k1.io.handled) + k1.readAccum == Received(s.ini) + Delivered(recvs);
      IniDrains(k1, w, step.cfg.heartbeatTimeoutNs, now);
    }
  }

  lemma IniReconnects(c: Conn, s: Step)
    requires c.role == Initiator && NoFault(c) && s.event.Reconnect?
    requires c.stats.heartbeatsAcked <= c.stats.heartbeatsSent
    ensures
      var r := Apply(c, s);
      IniState(r) && Credit(r) && r.feedId == c.feedId && r.io.handled == [] && Received(r) == []
  {
    NothingSaid(c.feedId);
    assert EncodeAll([]) == [];
    assert Beats([], PING) == multiset{} && Beats([], PONG) == multiset{} && AcceptedBeats([]) == multiset{};
    hide FromInitiator;
    hide EncodeAll;
    hide Beats;
    hide AcceptedBeats;
  }

  lemma IniFacts(c: Conn)
    requires IniState(c)
    ensures c.role == Initiator && NoFault(c)
  {}

  lemma IniMoveInv(s: System, step: Step)
    requires Inv(s) && Enabled(s, IniMove(step))
    ensures Inv(Next(s, IniMove(step)))
  {
    hide Apply;
    hide IniState;
    hide Credit;
    hide EncodeAll;
    if step.event.Readable? {
      IniReadable(s, step);
      PeerKeeps(s, Apply(s.ini, step));
    } else if step.event.Reconnect? {
      InvAuthentic(s);
      IniFacts(s.ini);
      IniReconnects(s.ini, step);
    } else {
      IniLocal(s.ini, step);
      PeerKeeps(s, Apply(s.ini, step));
    }
  }

  // ---- Moves of the responder ----

  /** The initiator's view survives any growth of what the responder wrote. */
  lemma IniKeeps(s: System, peer: Peer)
    requires IniInv(s) && Grows(PeerConn(s), PeerConn(System(s.ini, peer)))
    ensures IniInv(System(s.ini, peer))
  {
    hide EncodeAll;
    hide IniState;
    hide Credit;
  }

  lemma {:induction false} DrainGrows(c: Conn, timeoutNs: int, now: Time)
    ensures Grows(c, Drain(c, timeoutNs, now))
    decreases |c.readAccum|
  {
    hide HandleMessage;
    hide Decode;
    if |c.readAccum| >= MESSAGE_SIZE && Decode(c.readAccum[..MESSAGE_SIZE]).Some? {
      var m := Decode(c.readAccum[..MESSAGE_SIZE]).value;
      var c1 := HandleMessage(TakeFrame(c, m), timeoutNs, m, now);
      HandlersLeaveInput(TakeFrame(c, m), timeoutNs, m, now);
      if c1.state != Failed {
        DrainGrows(c1, timeoutNs, now);
      }
    }
  }

  /** What must hold of a responder right after a step, before the simulator settles it. */
  predicate PeerAfter(r: Conn, pending: seq<Deferred>, ini: Conn) {
    && PeerState(r, ini.feedId) && Echoes(r, pending)
    && r.io.handled <= ini.io.queued
    && (r.state != Failed ==> ReadsFrom(r, ini.io.queued, ini.io.sent) && NoFault(r))
  }

  lemma SettleInv(s: System, r: Conn, tick: bool)
    requires s.peer.Alive? && IniInv(s) && Grows(s.peer.conn, r)
    requires PeerAfter(r, s.peer.pending, s.ini)
    requires tick && s.peer.conn.state == Failed ==> PeerOk(r, s.peer.pending, s.ini)
    ensures Inv(System(s.ini, Settle(s.peer.conn, r, s.peer.pending, tick)))
  {
    hide EncodeAll;
    hide IniState;
    hide Credit;
    hide FromResponder;
    hide Beats;
    PendingConcat(s.peer.pending, r.io.deferred);
    assert PendingBeats([]) == multiset{};
    hide PendingBeats;
    IniKeeps(s, Settle(s.peer.conn, r, s.peer.pending, tick));
  }

  lemma {:induction false} PendingConcat(a: seq<Deferred>, b: seq<Deferred>)
    ensures PendingBeats(a + b) == PendingBeats(a) + PendingBeats(b)
    decreases |b|
  {
    if b == [] {
      assert a + b == a;
    } else {
      assert (a + b)[..|a + b| - 1] == a + b[..|b| - 1];
      PendingConcat(a, b[..|b| - 1]);
    }
  }

  lemma PeerFlush(c: Conn, pending: seq<Deferred>, ini: Conn)
    requires PeerOk(c, pending, ini)
    ensures PeerOk(Flush(c), pending, ini) && Grows(c, Flush(c))
  {
    hide Flush;
    hide EncodeAll;
    hide Beats;
    hide PendingBeats;
    hide FromResponder;
  }

  lemma PeerTimers(c: Conn, pending: seq<Deferred>, ini: Conn, step: Step)
    requires PeerOk(c, pending, ini) && (step.event.Hangup? || step.event.Tick?)
    ensures PeerOk(Apply(c, step), pending, ini) && Grows(c, Apply(c, step))
  {
    hide OnReadable;
    hide OnWritable;
    hide SendPing;
    hide SendPong;
    hide Rebind;
    hide EncodeAll;
    hide Beats;
    hide PendingBeats;
    hide FromResponder;
  }

  lemma KernelPeerOk(c: Conn, pending: seq<Deferred>, ini: Conn, clock: Time, sends: seq<Send>, verdicts: seq<Verdict>)
    requires PeerOk(c, pending, ini)
    ensures PeerOk(WithKernel(c, clock, sends, verdicts), pending, ini)
  {
    hide EncodeAll;
    hide Beats;
    hide PendingBeats;
    hide FromResponder;
  }

  /** Writes, timeouts and hangups of a responder. */
  lemma PeerLocal(s: System, step: Step)
    requires PeerInv(s) && s.peer.Alive? && Enabled(s, PeerMove(step)) && !step.event.Readable?
    ensures
      var r := Apply(s.peer.conn, step);
      PeerOk(r, s.peer.pending, s.ini) && Grows(s.peer.conn, r)
  {
    var c := s.peer.conn;
    if step.event.Writable? {
      hide Flush;
      hide OnReadable;
      hide SendPing;
      hide SendPong;
      hide Rebind;
      KernelPeerOk(c, s.peer.pending, s.ini, step.clock, step.sends, step.verdicts);
      PeerFlush(WithKernel(c, step.clock, step.sends, step.verdicts), s.peer.pending, s.ini);
      assert c.state != Connecting;
      hide PeerOk;
    } else {
      hide Apply;
      PeerTimers(c, s.peer.pending, s.ini, step);
    }
  }

  lemma OkAfter(r: Conn, pending: seq<Deferred>, ini: Conn)
    requires PeerOk(r, pending, ini)
    ensures PeerAfter(r, pending, ini)
  {
    hide EncodeAll;
    hide Beats;
    hide PendingBeats;
    hide FromResponder;
  }

  /** What a failed responder does with the next frame: whatever it is, it is a fault. */
  lemma FailedHandles(c: Conn, m: HeartbeatMessage, timeoutNs: int, now: Time)
    requires c.role == Responder && c.state == Failed && (m.kind == CONNECT_HELLO || m.kind == PING)
    ensures
      var r := HandleMessage(c, timeoutNs, m, now);
      r == FailWith(c, if m.kind == PING then UnexpectedPing else UnexpectedHello, now) && !NoFault(r)
  {
    hide QueueWrite;
    var reason := if m.kind == PING then UnexpectedPing else UnexpectedHello;
    assert reason in c.io.log + [reason];
  }

  lemma FailedAfter(c: Conn, pending: seq<Deferred>, ini: Conn, m: HeartbeatMessage, reason: Reason, now: Time)
    requires PeerOk(c, pending, ini) && |c.readAccum| >= MESSAGE_SIZE
    requires c.io.handled + [m] <= ini.io.queued
    ensures PeerAfter(FailWith(TakeFrame(c, m), reason, now).(readAccum := []), pending, ini)
  {
    hide EncodeAll;
    hide FromResponder;
    BeatsAppend(c.io.handled, m, PING);
    hide Beats;
    hide PendingBeats;
  }

  /** A client that failed while a deferred reply was being sent is still read: its next complete
      frame is then a protocol fault, and nothing else about it changes but that it is removed. */
  lemma FailedPeerReads(c: Conn, pending: seq<Deferred>, ini: Conn, timeoutNs: int, now: Time)
    requires PeerOk(c, pending, ini) && c.state == Failed
    requires WriterOk(ini) && FromInitiator(ini.io.queued, ini.feedId)
    ensures
      var r := Drain(c, timeoutNs, now);
      && PeerAfter(r, pending, ini) && r.state == Failed
      && (NoFault(r) <==> |c.readAccum| < MESSAGE_SIZE)
  {
    hide Decode;
    hide Sealed;
    hide EncodeAll;
    hide PendingBeats;
    hide Beats;
    hide FromResponder;
    hide HandleMessage;
    if |c.readAccum| >= MESSAGE_SIZE {
      NextFrame(c, ini);
      var m := ini.io.queued[|c.io.handled|];
      hide PeerAfter;
      FailedHandles(TakeFrame(c, m), m, timeoutNs, now);
      var reason := if m.kind == PING then UnexpectedPing else UnexpectedHello;
      FailedAfter(c, pending, ini, m, reason, now);
    }
  }

  lemma PeerReadable(s: System, step: Step)
    requires Inv(s) && s.peer.Alive? && step.event.Readable? && Enabled(s, PeerMove(step))
    ensures
      var c := s.peer.conn;
      var r := Apply(c, step);
      && PeerAfter(r, s.peer.pending, s.ini) && Grows(c, r)
      && (c.state != Failed ==> NoFault(r))
  {
    hide Drain;
    hide EncodeAll;
    hide Beats;
    hide PendingBeats;
    hide FromInitiator;
    hide FromResponder;
    hide Credit;
    hide Receive;
    hide Delivered;
    var recvs, now, timeoutNs := step.event.recvs, step.event.now, step.cfg.heartbeatTimeoutNs;
    var k := WithKernel(s.peer.conn, step.clock, step.sends, step.verdicts);
    var (accum, ending) := Receive(k.readAccum, recvs);
    ReceiveAppends(k.readAccum, recvs);
    var k1 := k.(readAccum := accum);
    if ending != Overflowed {
      assert EncodeAll(k1.io.handled) + k1.readAccum == Received(s.peer.conn) + Delivered(recvs);
      DrainGrows(k1, timeoutNs, now);
      if k1.state == Failed {
        FailedPeerReads(k1, s.peer.pending, s.ini, timeoutNs, now);
      } else {
        PeerDrains(k1, s.peer.pending, s.ini, timeoutNs, now);
      }
    }
  }

  lemma PeerMoveInv(s: System, step: Step)
    requires Inv(s) && Enabled(s, PeerMove(step))
    ensures Inv(Next(s, PeerMove(step)))
  {
    hide Apply;
    hide Settle;
    hide PeerAfter;
    hide IniInv;
    hide EncodeAll;
    if step.event.Readable? {
      PeerReadable(s, step);
    } else {
      PeerLocal(s, step);
      OkAfter(Apply(s.peer.conn, step), s.peer.pending, s.ini);
    }
    SettleInv(s, Apply(s.peer.conn, step), step.event.Tick?);
  }

  lemma FirePeer(c: Conn, pending: seq<Deferred>, ini: Conn, i: nat)
    requires PeerOk(c, pending, ini) && i < |pending|
    ensures
      var r := SendPong(c, pending[i].sequence, pending[i].timestampNs);
      PeerOk(r, Without(pending, i), ini) && r.io.deferred == c.io.deferred
  {
    hide EncodeAll;
    hide Beats;
    hide FromResponder;
    PendingRemove(pending, i);
    hide PendingBeats;
    hide Without;
    SendPongFrames(c, pending[i].sequence, pending[i].timestampNs);
    hide SendPong;
    if c.state == Healthy {
      PeerReply(c, Without(pending, i), ini, pending[i].sequence, pending[i].timestampNs);
    }
  }

  lemma SendPongFrames(c: Conn, sequence: uint64, timestampNs: int64)
    ensures
      var r := SendPong(c, sequence, timestampNs);
      r.io.deferred == c.io.deferred && Grows(c, r) && (c.state != Healthy ==> r == c)
  {
    hide QueueWrite;
    hide Encode;
    hide Sealed;
  }

  lemma FireInv(s: System, i: nat, clock: Time, sends: seq<Send>)
    requires Inv(s) && s.peer.Alive? && i < |s.peer.pending|
    ensures Inv(Next(s, Fire(i, clock, sends)))
  {
    hide SendPong;
    hide Without;
    hide IniInv;
    hide PeerOk;
    var d := s.peer.pending[i];
    var c := WithKernel(s.peer.conn, clock, sends, []);
    KernelPeerOk(s.peer.conn, s.peer.pending, s.ini, clock, sends, []);
    FirePeer(c, s.peer.pending, s.ini, i);
    SendPongFrames(c, d.sequence, d.timestampNs);
    IniKeeps(s, Next(s, Fire(i, clock, sends)).peer);
  }

  lemma NewPeerOk(fd: int, ini: Conn, clock: Time)
    ensures PeerOk(NewConn(fd, Responder, ini.feedId, clock), [], ini)
  {
    assert EncodeAll([]) == [] && PendingBeats([]) == multiset{};
    assert Beats([], PONG) == multiset{} && Beats([], PING) == multiset{};
    hide Beats;
    hide EncodeAll;
    hide PendingBeats;
    hide Legit;
  }

  lemma AcceptInv(s: System, fd: int, clock: Time)
    requires Inv(s) && s.peer.Absent?
    ensures Inv(Next(s, AcceptPeer(fd, clock)))
  {
    hide IniInv;
    hide PeerOk;
    NewPeerOk(fd, s.ini, clock);
    IniKeeps(s, Next(s, AcceptPeer(fd, clock)).peer);
  }

  lemma OkGone(c: Conn, pending: seq<Deferred>, ini: Conn)
    requires PeerOk(c, pending, ini)
    ensures PeerState(c, ini.feedId) && Echoes(c, []) && c.io.handled <= ini.io.queued
  {
    hide EncodeAll;
    hide FromResponder;
    hide Beats;
    assert PendingBeats([]) == multiset{};
    hide PendingBeats;
  }

  lemma KillInv(s: System)
    requires Inv(s) && s.peer.Alive?
    ensures Inv(Next(s, Kill))
  {
    hide PeerState;
    hide Echoes;
    hide IniInv;
    hide Apply;
    hide Settle;
    hide SendPong;
    hide NewConn;
    hide EncodeAll;
    hide WriterOk;
    hide FromResponder;
    hide Beats;
    hide PendingBeats;
    OkGone(s.peer.conn, s.peer.pending, s.ini);
    hide PeerOk;
    IniKeeps(s, Next(s, Kill).peer);
  }

  lemma NextInv(s: System, m: Move)
    requires Inv(s) && Enabled(s, m)
    ensures Inv(Next(s, m))
  {
    hide Inv;
    hide Next;
    match m {
      case IniMove(step) => IniMoveInv(s, step);
      case PeerMove(step) => PeerMoveInv(s, step);
      case Fire(i, clock, sends) => FireInv(s, i, clock, sends);
      case AcceptPeer(fd, clock) => AcceptInv(s, fd, clock);
      case Kill => KillInv(s);
    }
  }

  // ---- Runs ----

  function Start(fd: int, feedId: uint32, clock: Time): (r: System) {
    System(NewConn(fd, Initiator, feedId, clock), Absent)
  }

  lemma StartInv(fd: int, feedId: uint32, clock: Time)
    ensures Inv(Start(fd, feedId, clock))
  {
    assert EncodeAll([]) == [];
  }

  /** A run: every move is enabled in the state it is taken from. */
  predicate IsRun(states: seq<System>, moves: seq<Move>) {
    && |states| == |moves| + 1
    && (forall i :: 0 <= i < |moves| ==> Enabled(states[i], moves[i]))
    && (forall i :: 0 <= i < |moves| ==> states[i + 1] == Next(states[i], moves[i]))
  }

  lemma {:induction false} RunInv(states: seq<System>, moves: seq<Move>, n: nat)
    requires IsRun(states, moves) && Inv(states[0]) && n < |states|
    ensures Inv(states[n])
    decreases n
  {
    hide Inv;
    hide Next;
    hide Enabled;
    if n > 0 {
      RunInv(states, moves, n - 1);
      NextInv(states[n - 1], moves[n - 1]);
    }
  }

  /** Composed protocol safety. In every reachable state the initiator has never logged an unexpected
      message, a feed-id mismatch or a corrupt frame, nor has a client the simulator still serves; each side
      has said what the handshake allows and nothing else (HELLO then PINGs, ACK then PONGs); every
      accepted PONG answers its own PING of the attempt with its RTT exact; and acknowledgements never
      outnumber heartbeats sent. */
  lemma ProtocolSafety(fd: int, feedId: uint32, clock: Time, states: seq<System>, moves: seq<Move>, n: nat)
    requires IsRun(states, moves) && states[0] == Start(fd, feedId, clock) && n < |states|
    ensures NoFault(states[n].ini)
    ensures states[n].peer.Alive? ==> NoFault(states[n].peer.conn)
    ensures FromInitiator(states[n].ini.io.queued, states[n].ini.feedId)
    ensures FromResponder(PeerConn(states[n]).io.queued, states[n].ini.feedId)
    ensures Authentic(states[n].ini)
  {
    hide IsRun;
    hide Start;
    hide Legit;
    hide EncodeAll;
    hide Beats;
    hide PendingBeats;
    StartInv(fd, feedId, clock);
    RunInv(states, moves, n);
    InvAuthentic(states[n]);
    InvWriter(states[n]);
  }

  /** Exactly when a responder takes a protocol fault: in a read, and only if it had already failed
      (while sending a deferred reply) and the read completes a frame. */
  lemma PeerFaultExactly(s: System, m: Move)
    requires Inv(s) && Enabled(s, m) && s.peer.Alive? && !Next(s, m).peer.Absent?
    ensures !NoFault(Next(s, m).peer.conn) <==>
            && m.PeerMove? && m.step.event.Readable? && s.peer.conn.state == Failed
            && Receive(s.peer.conn.readAccum, m.step.event.recvs).1 != Overflowed
            && |s.peer.conn.readAccum + Delivered(m.step.event.recvs)| >= MESSAGE_SIZE
  {
    hide EncodeAll;
    hide Beats;
    hide PendingBeats;
    hide FromInitiator;
    hide FromResponder;
    hide Credit;
    hide Drain;
    hide Receive;
    hide Delivered;
    hide Enabled;
    var c := s.peer.conn;
    if m.PeerMove? && m.step.event.Readable? {
      PeerReadableEnabled(s, m.step);
      if c.state == Failed {
        FailedReadFault(s, m.step);
      } else {
        PeerReadable(s, m.step);
      }
    } else {
      NextInv(s, m);
      OtherNoFault(s, m);
    }
  }

  lemma PeerReadableEnabled(s: System, step: Step)
    requires s.peer.Alive? && step.event.Readable? && Enabled(s, PeerMove(step))
    ensures Received(s.peer.conn) + Delivered(step.event.recvs) <= s.ini.io.sent
  {}

  lemma FailedReadFault(s: System, step: Step)
    requires Inv(s) && s.peer.Alive? && s.peer.conn.state == Failed && step.event.Readable?
    requires Received(s.peer.conn) + Delivered(step.event.recvs) <= s.ini.io.sent
    ensures
      var c := s.peer.conn;
      NoFault(Apply(c, step)) <==>
        || Receive(c.readAccum, step.event.recvs).1 == Overflowed
        || |c.readAccum + Delivered(step.event.recvs)| < MESSAGE_SIZE
  {
    hide EncodeAll;
    hide Beats;
    hide PendingBeats;
    hide FromInitiator;
    hide FromResponder;
    hide Credit;
    hide Drain;
    hide Receive;
    hide Delivered;
    var recvs := step.event.recvs;
    var k := WithKernel(s.peer.conn, step.clock, step.sends, step.verdicts);
    var (accum, ending) := Receive(k.readAccum, recvs);
    ReceiveAppends(k.readAccum, recvs);
    var k1 := k.(readAccum := accum);
    if ending != Overflowed {
      assert EncodeAll(k1.io.handled) + k1.readAccum == Received(s.peer.conn) + Delivered(recvs);
      FailedPeerReads(k1, s.peer.pending, s.ini, step.cfg.heartbeatTimeoutNs, step.event.now);
    }
  }

  lemma OtherNoFault(s: System, m: Move)
    requires Inv(s) && Enabled(s, m) && s.peer.Alive? && !Next(s, m).peer.Absent?
    requires !(m.PeerMove? && m.step.event.Readable?)
    ensures NoFault(Next(s, m).peer.conn)
  {
    hide Apply;
    hide EncodeAll;
    hide IniInv;
    hide FromResponder;
    hide Echoes;
    if m.PeerMove? {
      PeerLocal(s, m.step);
    } else if m.Fire? {
      FireInv(s, m.i, m.clock, m.sends);
    }
  }

  /** A deferred reply fails its client exactly when the client is Healthy and the write is refused. */
  lemma ReplyFailsExactly(c: Conn, d: Deferred, clock: Time, sends: seq<Send>)
    requires c.role == Responder && c.state != Failed
    ensures SendPong(WithKernel(c, clock, sends, []), d.sequence, d.timestampNs).state == Failed <==>
            c.state == Healthy && Refused(c.writePending, sends)
  {
    hide QueueWrite;
    hide Refused;
    hide Encode;
    hide Sealed;
    var k := WithKernel(c, clock, sends, []);
    QueueWriteFails(k, Message(PONG, c.feedId, d.sequence, d.timestampNs));
  }

  // ---- Reading a connection that has already failed ----

  /** The first complete frame says goodbye. */
  predicate Disconnects(b: seq<byte>) {
    |b| >= MESSAGE_SIZE && Decode(b[..MESSAGE_SIZE]).Some? && Decode(b[..MESSAGE_SIZE]).value.kind == DISCONNECT
  }

  lemma FaultLogged(c: Conn, reason: Reason, now: Time)
    requires NoFault(c)
    ensures NoFault(FailWith(c, reason, now)) <==> !IsProtocolFault(reason)
  {
    assert reason in c.io.log + [reason];
  }

  lemma FailedMessage(c: Conn, timeoutNs: int, m: HeartbeatMessage, now: Time)
    requires NoFault(c) && c.state == Failed && IsKnownMessageType(m.kind)
    ensures HandleMessage(c, timeoutNs, m, now).state == Failed
    ensures NoFault(HandleMessage(c, timeoutNs, m, now)) <==> m.kind == DISCONNECT
  {
    hide NoFault;
    hide QueueWrite;
    hide Remember;
    FaultLogged(c, UnexpectedHello, now);
    FaultLogged(c, UnexpectedAck, now);
    FaultLogged(c, UnexpectedPing, now);
    FaultLogged(c, UnexpectedPong, now);
    FaultLogged(c, PeerClosed, now);
  }

  lemma FailedDrainFault(c: Conn, timeoutNs: int, now: Time)
    requires NoFault(c) && c.state == Failed
    ensures Drain(c, timeoutNs, now).state == Failed
    ensures NoFault(Drain(c, timeoutNs, now)) <==> |c.readAccum| < MESSAGE_SIZE || Disconnects(c.readAccum)
  {
    hide Decode;
    hide HandleMessage;
    FaultLogged(c, CorruptFrame, now);
    if |c.readAccum| >= MESSAGE_SIZE && Decode(c.readAccum[..MESSAGE_SIZE]).Some? {
      var m := Decode(c.readAccum[..MESSAGE_SIZE]).value;
      DecodedKnown(c.readAccum[..MESSAGE_SIZE]);
      FailedMessage(TakeFrame(c, m), timeoutNs, m, now);
    }
  }

  /** Why the monitor guards its read. `on_readable` itself does not look at the state: called on an initiator that has
      failed, it would report a fault exactly when it completes a frame other than a DISCONNECT; called in any other
      state it never does, however the bytes are cut. The monitor never makes the first call, so its initiators
      never report one. */
  lemma IniFaultExactly(s: System, step: Step)
    requires Inv(s) && step.event.Readable?
    requires s.ini.state != Failed ==> Enabled(s, IniMove(step))
    ensures
      var bytes := s.ini.readAccum + Delivered(step.event.recvs);
      !NoFault(Apply(s.ini, step)) <==>
        && s.ini.state == Failed
        && Receive(s.ini.readAccum, step.event.recvs).1 != Overflowed
        && |bytes| >= MESSAGE_SIZE && !Disconnects(bytes)
  {
    hide EncodeAll;
    hide Inv;
    hide NoFault;
    hide Drain;
    hide Receive;
    hide Delivered;
    hide Disconnects;
    if s.ini.state != Failed {
      hide Apply;
      IniReadable(s, step);
      IniFacts(Apply(s.ini, step));
    } else {
      InvNoFault(s);
      var k := WithKernel(s.ini, step.clock, step.sends, step.verdicts);
      var (accum, ending) := Receive(k.readAccum, step.event.recvs);
      ReceiveAppends(k.readAccum, step.event.recvs);
      SameLog(s.ini, k.(readAccum := accum));
      FaultLogged(k.(readAccum := accum), ReadOverflow, step.event.now);
      FailedDrainFault(k.(readAccum := accum), step.cfg.heartbeatTimeoutNs, step.event.now);
    }
  }

  lemma InvNoFault(s: System)
    requires Inv(s)
    ensures NoFault(s.ini)
  {
    hide EncodeAll;
    hide PeerInv;
    hide Credit;
  }

  lemma SameLog(c: Conn, r: Conn)
    requires NoFault(c) && r.io.log == c.io.log
    ensures NoFault(r)
  {}
}
