/** The heartbeat protocol as a two-party system: one initiator `Connection` and one responder
    `Connection` inside a simulator that may drop or defer any reply, joined by two byte streams that
    the kernel cuts up as it likes. A stream is not a separate variable: what is in flight is what the
    writer's kernel accepted beyond what the reader has received.

    Proved over every run: the initiator never takes a protocol fault and the responder takes one only
    when it is read after it had already failed; every accepted PONG answers a distinct PING of the same
    attempt; and acknowledgements never outnumber heartbeats sent. */
module Protocol {
  import opened Crc32
  import opened Heartbeat
  import opened Stats
  import opened ConnectionModel
  import opened ConnectionRuns

  // ---- Heartbeats as (sequence, timestamp) pairs ----

  datatype Beat = Beat(sequence: uint64, timestampNs: int64)

  function Beats(ms: seq<HeartbeatMessage>, kind: uint8): (r: multiset<Beat>)
    decreases |ms|
  {
    if ms == [] then multiset{}
    else
      var m := ms[|ms| - 1];
      Beats(ms[..|ms| - 1], kind) + if m.kind == kind then multiset{Beat(m.sequence, m.timestampNs)} else multiset{}
  }

  function PendingBeats(ds: seq<Deferred>): (r: multiset<Beat>)
    decreases |ds|
  {
    if ds == [] then multiset{}
    else PendingBeats(ds[..|ds| - 1]) + multiset{Beat(ds[|ds| - 1].sequence, ds[|ds| - 1].timestampNs)}
  }

  function AcceptedBeats(es: seq<Evidence>): (r: multiset<Beat>)
    ensures |r| == |es|
    decreases |es|
  {
    if es == [] then multiset{}
    else AcceptedBeats(es[..|es| - 1]) + multiset{Beat(es[|es| - 1].sequence, es[|es| - 1].timestampNs)}
  }

  lemma BeatsAppend(ms: seq<HeartbeatMessage>, m: HeartbeatMessage, kind: uint8)
    ensures Beats(ms + [m], kind) ==
            Beats(ms, kind) + if m.kind == kind then multiset{Beat(m.sequence, m.timestampNs)} else multiset{}
  {
    assert (ms + [m])[..|ms|] == ms;
  }

  lemma PendingAppend(ds: seq<Deferred>, d: Deferred)
    ensures PendingBeats(ds + [d]) == PendingBeats(ds) + multiset{Beat(d.sequence, d.timestampNs)}
  {
    assert (ds + [d])[..|ds|] == ds;
  }

  lemma AcceptedAppend(es: seq<Evidence>, e: Evidence)
    ensures AcceptedBeats(es + [e]) == AcceptedBeats(es) + multiset{Beat(e.sequence, e.timestampNs)}
  {
    assert (es + [e])[..|es|] == es;
  }

  /** A prefix contains no more beats than the whole. */
  lemma {:induction false} BeatsPrefix(a: seq<HeartbeatMessage>, b: seq<HeartbeatMessage>, kind: uint8)
    requires a <= b
    ensures Beats(a, kind) <= Beats(b, kind)
    decreases |b|
  {
    if a == b {
    } else {
      assert a <= b[..|b| - 1];
      BeatsPrefix(a, b[..|b| - 1], kind);
    }
  }

  function Without(ds: seq<Deferred>, i: nat): (r: seq<Deferred>)
    requires i < |ds|
  {
    ds[..i] + ds[i + 1..]
  }

  lemma WithoutFront(ds: seq<Deferred>, i: nat)
    requires i < |ds| - 1
    ensures Without(ds, i) == Without(ds[..|ds| - 1], i) + [ds[|ds| - 1]]
  {}

  /** Firing the reply at position `i` takes exactly its beat out of the queue. */
  lemma {:induction false} PendingRemove(ds: seq<Deferred>, i: nat)
    requires i < |ds|
    ensures PendingBeats(ds) == PendingBeats(Without(ds, i)) + multiset{Beat(ds[i].sequence, ds[i].timestampNs)}
    decreases |ds|
  {
    var n := |ds| - 1;
    if i == n {
      assert Without(ds, i) == ds[..n];
    } else {
      WithoutFront(ds, i);
      PendingRemove(ds[..n], i);
      hide Without;
      PendingAppend(Without(ds[..n], i), ds[n]);
    }
  }

  // ---- The shape of each side's traffic ----

  predicate Legit(m: HeartbeatMessage, kind: uint8, feedId: uint32) {
    Valid(m) && m == Sealed(m) && m.kind == kind && m.feedId == feedId
  }

  /** The initiator says HELLO once and then only PINGs. */
  predicate FromInitiator(ms: seq<HeartbeatMessage>, feedId: uint32) {
    forall i :: 0 <= i < |ms| ==> Legit(ms[i], if i == 0 then CONNECT_HELLO else PING, feedId)
  }

  /** The responder says ACK once and then only PONGs. */
  predicate FromResponder(ms: seq<HeartbeatMessage>, feedId: uint32) {
    forall i :: 0 <= i < |ms| ==> Legit(ms[i], if i == 0 then CONNECT_ACK else PONG, feedId)
  }

  lemma MessageLegit(kind: uint8, feedId: uint32, sequence: uint64, timestampNs: int64)
    requires IsKnownMessageType(kind)
    ensures
      var m := Sealed(Message(kind, feedId, sequence, timestampNs));
      Legit(m, kind, feedId) && m.sequence == sequence && m.timestampNs == timestampNs
  {
    EncodeSealed(Message(kind, feedId, sequence, timestampNs));
    hide Checksum;
    hide Payload;
    hide Encode;
  }

  predicate WriterOk(c: Conn) {
    c.io.sent + c.writePending == EncodeAll(c.io.queued)
  }

  predicate NoFault(c: Conn) {
    forall r :: r in c.io.log ==> !IsProtocolFault(r)
  }

  function Received(c: Conn): (r: seq<byte>) {
    EncodeAll(c.io.handled) + c.readAccum
  }

  /** The reader has handled a prefix of the frames queued, and received a prefix of the bytes sent. */
  predicate ReadsFrom(c: Conn, queued: seq<HeartbeatMessage>, sent: seq<byte>) {
    c.io.handled <= queued && Received(c) <= sent
  }

  lemma {:induction false} EncodeAllSplit(a: seq<HeartbeatMessage>, b: seq<HeartbeatMessage>)
    ensures EncodeAll(a + b) == EncodeAll(a) + EncodeAll(b)
    decreases |b|
  {
    hide Encode;
    if b == [] {
      assert a + b == a;
    } else {
      assert (a + b)[..|a + b| - 1] == a + b[..|b| - 1];
      EncodeAllSplit(a, b[..|b| - 1]);
    }
  }

  /** Byte-level framing is message-level order: the next complete frame a reader sees is the next
      frame its peer queued, it decodes to that very message, and taking it keeps the reader aligned. */
  lemma NextFrame(c: Conn, w: Conn)
    requires WriterOk(w) && ReadsFrom(c, w.io.queued, w.io.sent) && |c.readAccum| >= MESSAGE_SIZE
    requires forall i :: 0 <= i < |w.io.queued| ==> Valid(w.io.queued[i]) && w.io.queued[i] == Sealed(w.io.queued[i])
    ensures |c.io.handled| < |w.io.queued|
    ensures
      var m := w.io.queued[|c.io.handled|];
      && Decode(c.readAccum[..MESSAGE_SIZE]) == Some(m)
      && ReadsFrom(TakeFrame(c, m), w.io.queued, w.io.sent)
  {
    hide Encode;
    hide Decode;
    hide Sealed;
    hide Valid;
    var q, h := w.io.queued, c.io.handled;
    assert |Received(c)| <= |EncodeAll(q)|;
    var m := q[|h|];
    assert q == (h + [m]) + q[|h| + 1..];
    EncodeAllSplit(h + [m], q[|h| + 1..]);
    EncodeAllAppend(h, m);
    FrameAt(EncodeAll(h), Encode(m), EncodeAll(q[|h| + 1..]), c.readAccum, w.io.sent, w.writePending);
    DecodeEncode(m);
    assert EncodeAll(h) + c.readAccum == EncodeAll(h + [m]) + c.readAccum[MESSAGE_SIZE..];
    assert h + [m] <= q;
  }

  lemma FrameAt(before: seq<byte>, frame: seq<byte>, after: seq<byte>, accum: seq<byte>, sent: seq<byte>, pend: seq<byte>)
    requires |frame| == MESSAGE_SIZE && |accum| >= MESSAGE_SIZE
    requires sent + pend == before + frame + after
    requires before + accum <= sent
    ensures accum[..MESSAGE_SIZE] == frame
    ensures accum == frame + accum[MESSAGE_SIZE..]
  {
    var all := sent + pend;
    assert before + accum <= all;
    assert all[|before|..|before| + MESSAGE_SIZE] == frame;
    assert accum[..MESSAGE_SIZE] == all[|before|..|before| + MESSAGE_SIZE];
  }

  // ---- The responder's side ----

  predicate PeerState(c: Conn, feedId: uint32) {
    && c.role == Responder && c.feedId == feedId
    && WriterOk(c) && FromResponder(c.io.queued, feedId)
    && (c.io.queued != [] ==> c.io.handled != [])
    && match c.state
       case Handshaking => c.io.handled == [] && c.io.queued == []
       case Healthy => c.io.queued != []
       case Failed => true
       case _ => false
  }

  /** Conservation of heartbeats: replies queued and replies owed never exceed the PINGs handled. */
  predicate Echoes(c: Conn, pending: seq<Deferred>) {
    Beats(c.io.queued, PONG) + PendingBeats(pending) + PendingBeats(c.io.deferred) <= Beats(c.io.handled, PING)
  }

  predicate PeerOk(c: Conn, pending: seq<Deferred>, ini: Conn) {
    && PeerState(c, ini.feedId)
    && Echoes(c, pending)
    && ReadsFrom(c, ini.io.queued, ini.io.sent)
    && NoFault(c)
  }

  /** Queueing one frame of the right kind. */
  lemma PeerQueues(c: Conn, kind: uint8, sequence: uint64, timestampNs: int64)
    requires PeerStateButState(c) && IsKnownMessageType(kind)
    requires kind == if c.io.queued == [] then CONNECT_ACK else PONG
    requires NoFault(c) && c.io.handled != []
    ensures
      var m := Message(kind, c.feedId, sequence, timestampNs);
      var r := QueueWrite(c, m);
      && PeerStateButState(r) && NoFault(r) && OnlyWrote(c, r)
      && r.io.queued != []
      && Beats(r.io.queued, PONG) ==
         Beats(c.io.queued, PONG) + if kind == PONG then multiset{Beat(sequence, timestampNs)} else multiset{}
  {
    hide QueueWrite;
    hide Encode;
    hide Sealed;
    hide Beats;
    hide Message;
    hide EncodeAll;
    var m := Message(kind, c.feedId, sequence, timestampNs);
    QueueWriteFifo(c, m);
    MessageLegit(kind, c.feedId, sequence, timestampNs);
    BeatsAppend(c.io.queued, Sealed(m), PONG);
  }

  predicate PeerStateButState(c: Conn) {
    && c.role == Responder
    && WriterOk(c) && FromResponder(c.io.queued, c.feedId)
    && (c.io.queued != [] ==> c.io.handled != [])
  }

  lemma PeerHello(c: Conn, pending: seq<Deferred>, ini: Conn, m: HeartbeatMessage, now: Time)
    requires PeerState(c, ini.feedId) && Echoes(c, pending) && NoFault(c)
    requires c.state == Handshaking && Legit(m, CONNECT_HELLO, ini.feedId) && |c.readAccum| >= MESSAGE_SIZE
    requires ReadsFrom(TakeFrame(c, m), ini.io.queued, ini.io.sent)
    ensures PeerOk(HandleConnectHello(TakeFrame(c, m), m, now), pending, ini)
  {
    hide QueueWrite;
    hide Encode;
    hide Sealed;
    hide EncodeAll;
    var c0 := TakeFrame(c, m);
    PeerQueues(c0, CONNECT_ACK, 0, now);
    BeatsAppend(c.io.handled, m, PING);
    hide Beats;
    hide PendingBeats;
  }

  /** Sending the reply to a PING whose beat is not yet spoken for. */
  lemma PeerReply(c: Conn, pending: seq<Deferred>, ini: Conn, sequence: uint64, timestampNs: int64)
    requires PeerState(c, ini.feedId) && NoFault(c) && c.state == Healthy
    requires ReadsFrom(c, ini.io.queued, ini.io.sent)
    requires Owes(c, pending, Beat(sequence, timestampNs))
    ensures PeerOk(SendPong(c, sequence, timestampNs), pending, ini)
  {
    hide QueueWrite;
    hide Encode;
    hide Sealed;
    hide EncodeAll;
    hide Beats;
    hide PendingBeats;
    PeerQueues(c, PONG, sequence, timestampNs);
  }

  /** Room for one more reply: the beat of a PING just handled. */
  predicate Owes(c: Conn, pending: seq<Deferred>, beat: Beat) {
    Beats(c.io.queued, PONG) + PendingBeats(pending) + PendingBeats(c.io.deferred) + multiset{beat}
    <= Beats(c.io.handled, PING)
  }

  /** The connection as `handle_ping` hands it to the interceptor's decision. */
  function TakePing(c: Conn, m: HeartbeatMessage, now: Time): (r: Conn)
    requires |c.readAccum| >= MESSAGE_SIZE
  {
    var c1 := TakeFrame(c, m).(lastLivenessNs := now);
    if c1.io.verdicts == [] then c1 else c1.(io := c1.io.(verdicts := c1.io.verdicts[1..]))
  }

  lemma TakePingOwes(c: Conn, pending: seq<Deferred>, ini: Conn, m: HeartbeatMessage, now: Time)
    requires PeerState(c, ini.feedId) && Echoes(c, pending) && NoFault(c)
    requires c.state == Healthy && Legit(m, PING, ini.feedId) && |c.readAccum| >= MESSAGE_SIZE
    ensures
      var r := TakePing(c, m, now);
      PeerState(r, ini.feedId) && NoFault(r) && Owes(r, pending, Beat(m.sequence, m.timestampNs))
  {
    hide Sealed;
    hide EncodeAll;
    hide PendingBeats;
    BeatsAppend(c.io.handled, m, PING);
    hide Beats;
  }

  lemma PeerDefers(c: Conn, pending: seq<Deferred>, ini: Conn, d: Deferred)
    requires PeerState(c, ini.feedId) && NoFault(c) && ReadsFrom(c, ini.io.queued, ini.io.sent)
    requires Owes(c, pending, Beat(d.sequence, d.timestampNs))
    ensures PeerOk(c, pending, ini)
    ensures PeerOk(c.(io := c.io.(deferred := c.io.deferred + [d])), pending, ini)
  {
    hide EncodeAll;
    hide Beats;
    hide FromResponder;
    PendingAppend(c.io.deferred, d);
    hide PendingBeats;
  }

  lemma PeerPing(c: Conn, pending: seq<Deferred>, ini: Conn, m: HeartbeatMessage, now: Time)
    requires PeerState(c, ini.feedId) && Echoes(c, pending) && NoFault(c)
    requires c.state == Healthy && Legit(m, PING, ini.feedId) && |c.readAccum| >= MESSAGE_SIZE
    requires ReadsFrom(TakeFrame(c, m), ini.io.queued, ini.io.sent)
    ensures PeerOk(HandlePing(TakeFrame(c, m), m, now), pending, ini)
  {
    hide SendPong;
    hide EncodeAll;
    hide Beats;
    hide PendingBeats;
    hide Legit;
    hide FromResponder;
    hide NoFault;
    hide PeerOk;
    var c2 := TakePing(c, m, now);
    TakePingOwes(c, pending, ini, m, now);
    PeerReply(c2, pending, ini, m.sequence, m.timestampNs);
    var verdicts := c.io.verdicts;
    var at := if verdicts != [] && verdicts[0].Defer? then verdicts[0].fireAtNs else 0;
    PeerDefers(c2, pending, ini, Deferred(at, m.sequence, m.timestampNs));
  }

  /** The next frame never surprises a responder that has not failed. */
  lemma PeerHandles(c: Conn, pending: seq<Deferred>, ini: Conn, timeoutNs: int, now: Time)
    requires PeerOk(c, pending, ini) && c.state != Failed && |c.readAccum| >= MESSAGE_SIZE
    requires WriterOk(ini) && FromInitiator(ini.io.queued, ini.feedId)
    ensures Decode(c.readAccum[..MESSAGE_SIZE]).Some?
    ensures
      var m := Decode(c.readAccum[..MESSAGE_SIZE]).value;
      PeerOk(HandleMessage(TakeFrame(c, m), timeoutNs, m, now), pending, ini)
  {
    hide HandleConnectHello;
    hide HandlePing;
    hide Decode;
    hide Sealed;
    hide Beats;
    hide PendingBeats;
    hide EncodeAll;
    NextFrame(c, ini);
    var m := ini.io.queued[|c.io.handled|];
    if c.state == Handshaking {
      PeerHello(c, pending, ini, m, now);
    } else {
      PeerPing(c, pending, ini, m, now);
    }
  }

  lemma {:induction false} PeerDrains(c: Conn, pending: seq<Deferred>, ini: Conn, timeoutNs: int, now: Time)
    requires PeerOk(c, pending, ini) && c.state != Failed
    requires WriterOk(ini) && FromInitiator(ini.io.queued, ini.feedId)
    ensures
      var r := Drain(c, timeoutNs, now);
      && PeerState(r, ini.feedId) && Echoes(r, pending) && NoFault(r)
      && r.io.handled <= ini.io.queued
      && (r.state != Failed ==> ReadsFrom(r, ini.io.queued, ini.io.sent))
    decreases |c.readAccum|
  {
    hide HandleMessage;
    hide Decode;
    hide Beats;
    hide PendingBeats;
    hide EncodeAll;
    hide Sealed;
    if |c.readAccum| >= MESSAGE_SIZE {
      PeerHandles(c, pending, ini, timeoutNs, now);
      var m := Decode(c.readAccum[..MESSAGE_SIZE]).value;
      var c1 := HandleMessage(TakeFrame(c, m), timeoutNs, m, now);
      HandlersLeaveInput(TakeFrame(c, m), timeoutNs, m, now);
      if c1.state != Failed {
        PeerDrains(c1, pending, ini, timeoutNs, now);
      }
    }
  }

  // ---- The initiator's side ----

  predicate IniState(c: Conn) {
    && c.role == Initiator
    && WriterOk(c) && FromInitiator(c.io.queued, c.feedId)
    && NoFault(c)
    && match c.state
       case Connecting => c.io.queued == [] && c.io.handled == []
       case Handshaking => c.io.queued != [] && c.io.handled == []
       case Healthy => c.io.queued != [] && c.io.handled != []
       case Degraded => c.io.queued != [] && c.io.handled != []
       case Failed => true
  }

  /** The evidence accepted this attempt is among the PONGs handled, each RTT is exact, and the
      cumulative counters have moved in step with the PINGs queued and the evidence accepted. */
  predicate Credit(c: Conn) {
    && AcceptedBeats(c.io.accepted) <= Beats(c.io.handled, PONG)
    && (forall e :: e in c.io.accepted ==> e.rttNs == e.atNs - e.timestampNs)
    && c.stats.heartbeatsAcked + |Beats(c.io.queued, PING)| <= c.stats.heartbeatsSent + |c.io.accepted|
  }

  /** What the initiator may rely on about the frames it is sent. */
  predicate Answers(w: Conn, c: Conn) {
    && WriterOk(w) && FromResponder(w.io.queued, c.feedId)
    && (w.io.queued != [] ==> c.io.queued != [])
  }

  lemma IniAck(c: Conn, m: HeartbeatMessage, now: Time)
    requires IniState(c) && Credit(c) && c.state == Handshaking
    requires Legit(m, CONNECT_ACK, c.feedId) && |c.readAccum| >= MESSAGE_SIZE
    ensures
      var r := HandleConnectAck(TakeFrame(c, m), m, now);
      IniState(r) && Credit(r)
  {
    hide Sealed;
    hide EncodeAll;
    hide AcceptedBeats;
    BeatsAppend(c.io.handled, m, PONG);
    hide Beats;
  }

  lemma IniAccepts(c: Conn, handled: seq<HeartbeatMessage>, m: HeartbeatMessage, now: Time)
    requires IniState(c) && (c.state == Healthy || c.state == Degraded)
    requires c.io.handled == handled + [m] && m.kind == PONG
    requires AcceptedBeats(c.io.accepted) <= Beats(handled, PONG)
    requires forall e :: e in c.io.accepted ==> e.rttNs == e.atNs - e.timestampNs
    requires c.stats.heartbeatsAcked + |Beats(c.io.queued, PING)| <= c.stats.heartbeatsSent + |c.io.accepted|
    ensures Credit(c)
    ensures IniState(Accept(c, m, now)) && Credit(Accept(c, m, now))
  {
    hide Sealed;
    hide EncodeAll;
    hide Legit;
    BeatsAppend(handled, m, PONG);
    AcceptedAppend(c.io.accepted, Evidence(m.sequence, m.timestampNs, now, now - m.timestampNs));
    hide Beats;
    hide AcceptedBeats;
  }

  lemma IniPong(c: Conn, timeoutNs: int, m: HeartbeatMessage, now: Time)
    requires IniState(c) && Credit(c) && (c.state == Healthy || c.state == Degraded)
    requires m.kind == PONG && |c.readAccum| >= MESSAGE_SIZE
    ensures
      var r := HandlePong(TakeFrame(c, m), timeoutNs, m, now);
      IniState(r) && Credit(r)
  {
    hide EncodeAll;
    hide Beats;
    hide AcceptedBeats;
    hide Remember;
    hide Accept;
    hide Legit;
    IniAccepts(TakeFrame(c, m), c.io.handled, m, now);
    IniAccepts(TakeFrame(c, m).(acked := Remember(c.acked, m.sequence)), c.io.handled, m, now);
  }

  /** The next frame never surprises an initiator that has not failed. */
  lemma IniHandles(c: Conn, w: Conn, timeoutNs: int, now: Time)
    requires IniState(c) && Credit(c) && c.state != Failed && |c.readAccum| >= MESSAGE_SIZE
    requires Answers(w, c) && ReadsFrom(c, w.io.queued, w.io.sent)
    ensures Decode(c.readAccum[..MESSAGE_SIZE]).Some?
    ensures
      var m := Decode(c.readAccum[..MESSAGE_SIZE]).value;
      var r := HandleMessage(TakeFrame(c, m), timeoutNs, m, now);
      && IniState(r) && Credit(r)
      && ReadsFrom(r, w.io.queued, w.io.sent)
      && r.io.queued == c.io.queued && r.io.sent == c.io.sent && r.io.deferred == c.io.deferred
  {
    hide Decode;
    hide Sealed;
    hide Beats;
    hide AcceptedBeats;
    hide EncodeAll;
    hide IniState;
    hide Credit;
    NextFrame(c, w);
    var m := w.io.queued[|c.io.handled|];
    IniStates(c);
    if c.state == Handshaking {
      IniAck(c, m, now);
      AckOutput(TakeFrame(c, m), m, now);
      hide HandleConnectAck;
      SameReads(TakeFrame(c, m), HandleConnectAck(TakeFrame(c, m), m, now), w);
    } else {
      IniPong(c, timeoutNs, m, now);
      PongOutput(TakeFrame(c, m), timeoutNs, m, now);
      hide HandlePong;
      SameReads(TakeFrame(c, m), HandlePong(TakeFrame(c, m), timeoutNs, m, now), w);
    }
  }

  lemma IniStates(c: Conn)
    requires IniState(c) && c.state != Failed
    ensures c.role == Initiator
    ensures c.io.handled == [] <==> c.state == Connecting || c.state == Handshaking
    ensures c.io.queued == [] <==> c.state == Connecting
  {}

  predicate SameIo(c: Conn, r: Conn) {
    && r.io.queued == c.io.queued && r.io.sent == c.io.sent && r.io.deferred == c.io.deferred
    && r.io.handled == c.io.handled && r.readAccum == c.readAccum
  }

  lemma AckOutput(c: Conn, m: HeartbeatMessage, now: Time)
    ensures SameIo(c, HandleConnectAck(c, m, now))
  {}

  lemma PongOutput(c: Conn, timeoutNs: int, m: HeartbeatMessage, now: Time)
    ensures SameIo(c, HandlePong(c, timeoutNs, m, now))
  {
    hide Remember;
    hide ConnectionStats.RecordPongReceived;
  }

  lemma SameReads(c: Conn, r: Conn, w: Conn)
    requires SameIo(c, r) && ReadsFrom(c, w.io.queued, w.io.sent)
    ensures ReadsFrom(r, w.io.queued, w.io.sent)
  {
    hide EncodeAll;
  }

  lemma {:induction false} IniDrains(c: Conn, w: Conn, timeoutNs: int, now: Time)
    requires IniState(c) && Credit(c) && c.state != Failed
    requires Answers(w, c) && ReadsFrom(c, w.io.queued, w.io.sent)
    ensures
      var r := Drain(c, timeoutNs, now);
      && IniState(r) && Credit(r) && r.feedId == c.feedId
      && r.io.queued == c.io.queued && r.io.sent == c.io.sent
      && r.io.handled <= w.io.queued
      && (r.state != Failed ==> ReadsFrom(r, w.io.queued, w.io.sent))
    decreases |c.readAccum|
  {
    hide HandleMessage;
    hide Decode;
    hide Beats;
    hide AcceptedBeats;
    hide EncodeAll;
    hide Legit;
    if |c.readAccum| >= MESSAGE_SIZE {
      IniHandles(c, w, timeoutNs, now);
      var m := Decode(c.readAccum[..MESSAGE_SIZE]).value;
      var c1 := HandleMessage(TakeFrame(c, m), timeoutNs, m, now);
      HandlersLeaveInput(TakeFrame(c, m), timeoutNs, m, now);
      if c1.state != Failed {
        IniDrains(c1, w, timeoutNs, now);
      }
    }
  }
}
