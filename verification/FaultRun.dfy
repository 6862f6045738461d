/** The one way an honest pair reports a protocol fault, shown end to end: a deferred reply fails to go out, the
    simulator keeps serving the client that this failed, and the next PING it reads is reported as unexpected. */
module FaultRun {
  import opened Crc32
  import opened Heartbeat
  import opened ConnectionModel
  import opened ConnectionRuns
  import opened Reassembly
  import Detection
  import opened Exchange
  import opened Protocol
  import opened ProtocolRuns

  // ---- The two steps that matter, from any reachable state ----

  /** A deferred reply to a Healthy client fails that client exactly when its write is refused. Either way the client
      stays served, and nothing else is broken. */
  lemma FailedReplyStaysServed(s: System, i: nat, clock: Time, sends: seq<Send>)
    requires Inv(s) && s.peer.Alive? && i < |s.peer.pending| && s.peer.conn.state == Healthy
    ensures
      var r := Next(s, Fire(i, clock, sends));
      && Inv(r) && r.ini == s.ini && r.peer.Alive?
      && (r.peer.conn.state == Failed <==> Refused(s.peer.conn.writePending, sends))
      && SameInput(s.peer.conn, r.peer.conn)
  {
    hide Inv;
    hide SendPong;
    hide Refused;
    FireInv(s, i, clock, sends);
    ServedRole(s);
    ReplyFailsExactly(s.peer.conn, s.peer.pending[i], clock, sends);
    PongKeepsInput(WithKernel(s.peer.conn, clock, sends, []), s.peer.pending[i]);
  }

  lemma ServedRole(s: System)
    requires Inv(s) && s.peer.Alive?
    ensures s.peer.conn.role == Responder
  {
    hide IniInv;
    hide EncodeAll;
    hide FromResponder;
    hide Echoes;
  }

  lemma PongKeepsInput(c: Conn, d: Deferred)
    ensures SameInput(c, SendPong(c, d.sequence, d.timestampNs))
  {
    hide QueueWrite;
  }

  /** The next read that completes a frame is then reported as a fault. */
  lemma NextReadFaults(s: System, step: Step)
    requires Inv(s) && s.peer.Alive? && s.peer.conn.state == Failed
    requires step.event.Readable? && Enabled(s, PeerMove(step))
    requires Receive(s.peer.conn.readAccum, step.event.recvs).1 != Overflowed
    requires |s.peer.conn.readAccum + Delivered(step.event.recvs)| >= MESSAGE_SIZE
    ensures
      var r := Next(s, PeerMove(step));
      r.peer.Gone? && !NoFault(r.peer.conn)
  {
    hide Inv;
    hide Enabled;
    hide Apply;
    hide Receive;
    hide Delivered;
    hide NoFault;
    PeerFaultExactly(s, PeerMove(step));
    Detection.FailedAbsorbing(s.peer.conn, step);
  }

  // ---- A run from the start ----

  const CFG := Config(1, 1, 1, 0, 0, 0)
  const ROOM: seq<Send> := [Accepted(MESSAGE_SIZE)]

  /** A connection between two frames. */
  predicate At(c: Conn, role: Role, state: State, sent: seq<byte>, handled: seq<HeartbeatMessage>) {
    && c.role == role && c.state == state && c.io.sent == sent && c.writePending == []
    && c.io.handled == handled && c.readAccum == []
  }

  function Frame(kind: uint8, feedId: uint32, sequence: uint64): (r: HeartbeatMessage) {
    Sealed(Message(kind, feedId, sequence, 0))
  }

  function ReadStep(m: HeartbeatMessage, sends: seq<Send>, verdicts: seq<Verdict>): (r: Step) {
    Step(CFG, 0, sends, verdicts, Readable(0, [Data(Encode(m))]))
  }

  lemma WholeWrite(c: Conn, m: HeartbeatMessage)
    requires c.writePending == [] && c.io.sends == ROOM
    ensures QueueWrite(c, m) == c.(io := c.io.(sends := [], sent := c.io.sent + Encode(m), queued := c.io.queued + [Sealed(m)]))
  {
    hide Encode;
    hide Sealed;
    var c1 := Enqueue(c, m);
    assert c1.writePending == Encode(m) && |c1.writePending| == MESSAGE_SIZE;
    assert c1.writePending[..MESSAGE_SIZE] == Encode(m) && c1.writePending[MESSAGE_SIZE..] == [];
    assert c1.io.sends[1..] == [];
    assert Flush(c1).io.sent == c.io.sent + Encode(m) && Flush(c1).writePending == [];
  }

  lemma FrameParts(kind: uint8, feedId: uint32, sequence: uint64)
    requires IsKnownMessageType(kind)
    ensures
      var m := Frame(kind, feedId, sequence);
      && Valid(m) && Sealed(m) == m && Encode(m) == Encode(Message(kind, feedId, sequence, 0))
      && m.kind == kind && m.feedId == feedId && m.sequence == sequence && m.timestampNs == 0
  {
    hide Encode;
    EncodeSealed(Message(kind, feedId, sequence, 0));
    SealedParts(Message(kind, feedId, sequence, 0));
    MessageLegit(kind, feedId, sequence, 0);
    hide Sealed;
  }

  /** Reading one whole frame. */
  lemma ReadWhole(c: Conn, m: HeartbeatMessage, sends: seq<Send>, verdicts: seq<Verdict>)
    requires c.readAccum == [] && Valid(m) && Sealed(m) == m
    ensures
      var s := ReadStep(m, sends, verdicts);
      && Delivered(s.event.recvs) == Encode(m) && Receive([], s.event.recvs).1 == Drained
      && Apply(c, s) == HandleMessage(TakeWhole(c, s, m), 1, m, 0)
  {
    hide Encode;
    hide Sealed;
    hide HandleMessage;
    hide TakeWhole;
    hide Apply;
    var recvs := [Data(Encode(m))];
    assert recvs[1..] == [];
    assert Delivered(recvs) == Encode(m) + Delivered(recvs[1..]) == Encode(m);
    assert [] + Encode(m) == Encode(m);
    assert Receive([], recvs) == Receive(Encode(m), recvs[1..]);
    CompletingRead(c, ReadStep(m, sends, verdicts), m);
  }

  function Connect(): (r: Step) {
    Step(CFG, 0, ROOM, [], Writable(0, true))
  }

  function Pings(): (r: Step) {
    Step(CFG, 0, ROOM, [], PingDue(0))
  }

  lemma SaysHello(feedId: uint32)
    ensures
      var r := Apply(NewConn(7, Initiator, feedId, 0), Connect());
      && At(r, Initiator, Handshaking, Encode(Frame(CONNECT_HELLO, feedId, 0)), [])
      && r.feedId == feedId && r.nextSequence == 0
  {
    hide Encode;
    hide Sealed;
    hide QueueWrite;
    FrameParts(CONNECT_HELLO, feedId, 0);
    var k := WithKernel(NewConn(7, Initiator, feedId, 0), 0, ROOM, []);
    WholeWrite(TransitionTo(k, Handshaking, 0), Message(CONNECT_HELLO, feedId, 0, 0));
  }

  lemma HearsHello(feedId: uint32)
    ensures
      var hello := Frame(CONNECT_HELLO, feedId, 0);
      var r := Apply(NewConn(9, Responder, feedId, 0), ReadStep(hello, ROOM, []));
      && At(r, Responder, Healthy, Encode(Frame(CONNECT_ACK, feedId, 0)), [hello])
      && r.feedId == feedId && r.io.deferred == []
  {
    hide Encode;
    hide Sealed;
    hide QueueWrite;
    hide Apply;
    hide Frame;
    var hello := Frame(CONNECT_HELLO, feedId, 0);
    FrameParts(CONNECT_HELLO, feedId, 0);
    FrameParts(CONNECT_ACK, feedId, 0);
    var c := NewConn(9, Responder, feedId, 0);
    ReadWhole(c, hello, ROOM, []);
    WholeWrite(TakeWhole(c, ReadStep(hello, ROOM, []), hello), Message(CONNECT_ACK, feedId, 0, 0));
  }

  lemma HearsAck(c: Conn, sent: seq<byte>)
    requires At(c, Initiator, Handshaking, sent, [])
    ensures
      var ack := Frame(CONNECT_ACK, c.feedId, 0);
      var r := Apply(c, ReadStep(ack, [], []));
      At(r, Initiator, Healthy, sent, [ack]) && r.feedId == c.feedId && r.nextSequence == c.nextSequence
  {
    hide Encode;
    hide Sealed;
    hide Apply;
    hide Frame;
    FrameParts(CONNECT_ACK, c.feedId, 0);
    ReadWhole(c, Frame(CONNECT_ACK, c.feedId, 0), [], []);
  }

  lemma SaysPing(c: Conn, sent: seq<byte>, handled: seq<HeartbeatMessage>)
    requires At(c, Initiator, Healthy, sent, handled)
    ensures
      var r := Apply(c, Pings());
      && At(r, Initiator, Healthy, sent + Encode(Frame(PING, c.feedId, c.nextSequence)), handled)
      && r.feedId == c.feedId && r.nextSequence == NextSequence(c.nextSequence)
  {
    hide Encode;
    hide Sealed;
    hide QueueWrite;
    FrameParts(PING, c.feedId, c.nextSequence);
    hide Frame;
    var k := WithKernel(c, 0, ROOM, []);
    WholeWrite(k.(nextSequence := NextSequence(c.nextSequence)), Message(PING, c.feedId, c.nextSequence, 0));
  }

  lemma DefersPing(c: Conn, sent: seq<byte>, handled: seq<HeartbeatMessage>)
    requires At(c, Responder, Healthy, sent, handled) && c.io.deferred == []
    ensures
      var ping := Frame(PING, c.feedId, 0);
      var r := Apply(c, ReadStep(ping, [], [Defer(0)]));
      && At(r, Responder, Healthy, sent, handled + [ping]) && r.feedId == c.feedId
      && r.io.deferred == [Deferred(0, 0, 0)]
  {
    hide Encode;
    hide Sealed;
    hide Apply;
    hide Frame;
    FrameParts(PING, c.feedId, 0);
    ReadWhole(c, Frame(PING, c.feedId, 0), [], [Defer(0)]);
  }

  lemma TwoFrames(a: HeartbeatMessage, b: HeartbeatMessage)
    ensures EncodeAll([]) == [] && EncodeAll([a]) == Encode(a) && EncodeAll([a, b]) == Encode(a) + Encode(b)
  {
    hide Encode;
    EncodeAllAppend([], a);
    EncodeAllAppend([a], b);
    assert [] + [a] == [a] && [a] + [b] == [a, b];
  }

  function Moves(feedId: uint32): (r: seq<Move>)
    ensures |r| == 9
  {
    [ IniMove(Connect()),
      AcceptPeer(9, 0),
      PeerMove(ReadStep(Frame(CONNECT_HELLO, feedId, 0), ROOM, [])),
      IniMove(ReadStep(Frame(CONNECT_ACK, feedId, 0), [], [])),
      IniMove(Pings()),
      PeerMove(ReadStep(Frame(PING, feedId, 0), [], [Defer(0)])),
      IniMove(Pings()),
      Fire(0, 0, [SendError]),
      PeerMove(ReadStep(Frame(PING, feedId, 1), [], [])) ]
  }

  /** The first moves up to `n` are what the two reactors and the kernel do from the start. */
  predicate Follows(states: seq<System>, feedId: uint32, n: nat)
    requires n <= 9
  {
    && |states| == n + 1 && states[0] == Start(7, feedId, 0)
    && (forall i :: 0 <= i < n ==> states[i + 1] == Next(states[i], Moves(feedId)[i]))
  }

  predicate AllEnabled(states: seq<System>, feedId: uint32, n: nat)
    requires n <= 9 && n <= |states|
  {
    forall i :: 0 <= i < n ==> Enabled(states[i], Moves(feedId)[i])
  }

  /** Both sides are up. */
  predicate Met(s: System, feedId: uint32) {
    var hello, ack := Frame(CONNECT_HELLO, feedId, 0), Frame(CONNECT_ACK, feedId, 0);
    && At(s.ini, Initiator, Healthy, Encode(hello), [ack]) && s.ini.feedId == feedId && s.ini.nextSequence == 0
    && s.peer.Alive? && s.peer.pending == []
    && At(s.peer.conn, Responder, Healthy, Encode(ack), [hello]) && s.peer.conn.feedId == feedId
    && s.peer.conn.io.deferred == []
  }

  lemma UpToHandshake(feedId: uint32, states: seq<System>)
    requires Follows(states, feedId, 4)
    ensures AllEnabled(states, feedId, 4) && Met(states[4], feedId)
  {
    hide Encode;
    hide Apply;
    hide EncodeAll;
    hide Frame;
    hide ReadStep;
    hide Connect;
    hide Pings;
    var hello, ack := Frame(CONNECT_HELLO, feedId, 0), Frame(CONNECT_ACK, feedId, 0);
    StepKinds(feedId);
    TwoFrames(hello, ack);
    TwoFrames(ack, hello);
    SaysHello(feedId);
    assert states[1] == System(Apply(NewConn(7, Initiator, feedId, 0), Connect()), Absent);
    assert states[2] == System(states[1].ini, Alive(NewConn(9, Responder, feedId, 0), []));
    HearsHello(feedId);
    var peer := Apply(NewConn(9, Responder, feedId, 0), ReadStep(hello, ROOM, []));
    assert peer.(io := peer.io.(deferred := [])) == peer;
    assert [] + peer.io.deferred == [];
    assert states[3] == System(states[1].ini, Alive(peer, []));
    HearsAck(states[1].ini, Encode(hello));
    assert states[4] == System(Apply(states[1].ini, ReadStep(ack, [], [])), Alive(peer, []));
  }

  /** One reply is owed, and a second PING is on its way. */
  predicate OwesOne(s: System, feedId: uint32) {
    var hello, ping0, ping1 := Frame(CONNECT_HELLO, feedId, 0), Frame(PING, feedId, 0), Frame(PING, feedId, 1);
    && s.peer.Alive? && s.peer.pending == [Deferred(0, 0, 0)]
    && At(s.peer.conn, Responder, Healthy, Encode(Frame(CONNECT_ACK, feedId, 0)), [hello, ping0])
    && s.ini.io.sent == Encode(hello) + Encode(ping0) + Encode(ping1)
  }

  lemma UpToDeferral(feedId: uint32, s4: System, s5: System, s6: System, s7: System)
    requires Met(s4, feedId)
    requires s5 == Next(s4, Moves(feedId)[4]) && s6 == Next(s5, Moves(feedId)[5]) && s7 == Next(s6, Moves(feedId)[6])
    ensures Enabled(s4, Moves(feedId)[4]) && Enabled(s5, Moves(feedId)[5]) && Enabled(s6, Moves(feedId)[6])
    ensures OwesOne(s7, feedId)
  {
    hide Encode;
    hide Apply;
    hide EncodeAll;
    hide Frame;
    hide ReadStep;
    hide Connect;
    hide Pings;
    var hello, ack := Frame(CONNECT_HELLO, feedId, 0), Frame(CONNECT_ACK, feedId, 0);
    var ping0 := Frame(PING, feedId, 0);
    StepKinds(feedId);
    TwoFrames(hello, ping0);
    SaysPing(s4.ini, Encode(hello), [ack]);
    var peer := s4.peer.conn;
    assert s5 == System(Apply(s4.ini, Pings()), Alive(peer, []));
    DefersPing(peer, Encode(ack), [hello]);
    var later := Apply(peer, ReadStep(ping0, [], [Defer(0)]));
    assert [] + later.io.deferred == [Deferred(0, 0, 0)];
    assert s6 == System(s5.ini, Alive(later.(io := later.io.(deferred := [])), [Deferred(0, 0, 0)]));
    SaysPing(s5.ini, Encode(hello) + Encode(ping0), [ack]);
    assert s7 == System(Apply(s5.ini, Pings()), s6.peer);
  }

  /** The client failed while its reply was sent, and the second PING is still to be read. */
  predicate StillServed(s: System, feedId: uint32) {
    && s.peer.Alive? && s.peer.conn.state == Failed && s.peer.conn.readAccum == []
    && EncodeAll(s.peer.conn.io.handled) + Encode(Frame(PING, feedId, 1)) == s.ini.io.sent
  }

  /** The reply fails to go out. */
  lemma ReplyFails(feedId: uint32, s7: System)
    requires Inv(s7) && OwesOne(s7, feedId)
    ensures
      var s8 := Next(s7, Moves(feedId)[7]);
      Enabled(s7, Moves(feedId)[7]) && Inv(s8) && StillServed(s8, feedId)
  {
    hide Inv;
    hide Next;
    hide Encode;
    hide EncodeAll;
    hide Frame;
    FailedReplyStaysServed(s7, 0, 0, [SendError]);
    TwoFrames(Frame(CONNECT_HELLO, feedId, 0), Frame(PING, feedId, 0));
  }

  lemma OneRead(m: HeartbeatMessage)
    ensures
      var s := ReadStep(m, [], []);
      && s.event.Readable? && Delivered(s.event.recvs) == Encode(m)
      && Receive([], s.event.recvs).1 == Drained
  {
    hide Encode;
    StepKinds(m.feedId);
    var recvs := [Data(Encode(m))];
    assert recvs[1..] == [];
    assert [] + Encode(m) == Encode(m);
    assert Receive([], recvs) == Receive(Encode(m), recvs[1..]);
  }

  lemma CanRead(s: System, m: HeartbeatMessage)
    requires s.peer.Alive? && s.peer.conn.readAccum == []
    requires EncodeAll(s.peer.conn.io.handled) + Encode(m) == s.ini.io.sent
    ensures Enabled(s, PeerMove(ReadStep(m, [], [])))
  {
    hide Encode;
    hide EncodeAll;
    OneRead(m);
    assert Received(s.peer.conn) == EncodeAll(s.peer.conn.io.handled);
  }

  /** The second PING is read as a fault. */
  lemma FaultAtLast(feedId: uint32, s8: System)
    requires Inv(s8) && StillServed(s8, feedId)
    ensures
      var s9 := Next(s8, Moves(feedId)[8]);
      Enabled(s8, Moves(feedId)[8]) && s9.peer.Gone? && !NoFault(s9.peer.conn)
  {
    hide Inv;
    hide Next;
    hide Enabled;
    hide Encode;
    hide EncodeAll;
    hide Frame;
    hide NoFault;
    hide Receive;
    hide Delivered;
    hide ReadStep;
    var ping1 := Frame(PING, feedId, 1);
    OneRead(ping1);
    CanRead(s8, ping1);
    assert [] + Encode(ping1) == Encode(ping1);
    NextReadFaults(s8, ReadStep(ping1, [], []));
  }

  function Play(feedId: uint32, n: nat): (r: seq<System>)
    requires n <= 9
    ensures |r| == n + 1
    decreases n
  {
    if n == 0 then [Start(7, feedId, 0)]
    else
      var front := Play(feedId, n - 1);
      front + [Next(front[n - 1], Moves(feedId)[n - 1])]
  }

  lemma {:induction false} PlayFollows(feedId: uint32, n: nat)
    requires n <= 9
    ensures Follows(Play(feedId, n), feedId, n)
    decreases n
  {
    hide Next;
    hide Moves;
    if n > 0 {
      PlayFollows(feedId, n - 1);
    }
  }

  /** So there is a run of an honest pair from the very start, for every feed, that ends in a protocol fault. */
  lemma HonestPairCanFault(feedId: uint32)
    ensures
      var states := Play(feedId, 9);
      && IsRun(states, Moves(feedId)) && states[0] == Start(7, feedId, 0)
      && states[9].peer.Gone? && !NoFault(states[9].peer.conn)
  {
    hide Next;
    hide Moves;
    hide Enabled;
    hide Inv;
    hide NoFault;
    hide Met;
    hide OwesOne;
    hide StillServed;
    PlayFollows(feedId, 9);
    var states, moves := Play(feedId, 9), Moves(feedId);
    assert Follows(states[..5], feedId, 4);
    UpToHandshake(feedId, states[..5]);
    assert forall i :: 0 <= i < 4 ==> states[..5][i] == states[i];
    assert states[..5][4] == states[4];
    UpToDeferral(feedId, states[4], states[5], states[6], states[7]);
    assert forall i :: 0 <= i < 4 ==> Enabled(states[i], moves[i]);
    assert IsRun(states[..8], moves[..7]);
    StartInv(7, feedId, 0);
    RunInv(states[..8], moves[..7], 7);
    ReplyFails(feedId, states[7]);
    FaultAtLast(feedId, states[8]);
  }

  lemma StepKinds(feedId: uint32)
    ensures Connect().event.Writable? && Pings().event.PingDue?
    ensures forall m: HeartbeatMessage, sends, verdicts :: ReadStep(m, sends, verdicts).event.Readable?
    ensures forall m: HeartbeatMessage, sends, verdicts ::
              Delivered(ReadStep(m, sends, verdicts).event.recvs) == Encode(m)
  {
    hide Encode;
  }
}
