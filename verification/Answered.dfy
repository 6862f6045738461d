/** A heartbeat that is answered in time counts, in the full traffic of a run: with any number of other PINGs and
    replies outstanding, several frames in one read or one frame over several, partial sends, and drops and deferrals
    of other replies. */
module Answered {
  import opened Crc32
  import opened Heartbeat
  import opened ConnectionModel
  import opened ConnectionRuns
  import opened Detection
  import opened Reassembly
  import opened EvidenceReads
  import opened Protocol
  import opened ProtocolRuns

  // ---- The responder answers every PING of a read ----

  predicate AllPings(frames: seq<HeartbeatMessage>) {
    forall i :: 0 <= i < |frames| ==> frames[i].kind == PING
  }

  function Pong(feedId: uint32, ping: HeartbeatMessage): (r: HeartbeatMessage) {
    Sealed(Message(PONG, feedId, ping.sequence, ping.timestampNs))
  }

  function Pongs(feedId: uint32, pings: seq<HeartbeatMessage>): (r: seq<HeartbeatMessage>) {
    seq(|pings|, i requires 0 <= i < |pings| => Pong(feedId, pings[i]))
  }

  lemma PongsOne(feedId: uint32, m: HeartbeatMessage, rest: seq<HeartbeatMessage>)
    ensures Pongs(feedId, [m] + rest) == [Pong(feedId, m)] + Pongs(feedId, rest)
  {
    hide Pong;
  }

  /** The interceptor's decisions in the order of the PINGs; when they run out, it lets the reply go. */
  function FirstVerdict(verdicts: seq<Verdict>): (r: Verdict) {
    if verdicts == [] then Reply else verdicts[0]
  }

  function LaterVerdicts(verdicts: seq<Verdict>): (r: seq<Verdict>) {
    if verdicts == [] then [] else verdicts[1..]
  }

  /** The PONGs that PINGs with these verdicts are answered with at once. */
  function Replies(feedId: uint32, pings: seq<HeartbeatMessage>, verdicts: seq<Verdict>): (r: seq<HeartbeatMessage>)
    decreases |pings|
  {
    if pings == [] then []
    else
      (if FirstVerdict(verdicts) == Reply then [Pong(feedId, pings[0])] else [])
      + Replies(feedId, pings[1..], LaterVerdicts(verdicts))
  }

  /** The replies that are put off, each with its time and its PING's own sequence and timestamp. */
  function Postponed(pings: seq<HeartbeatMessage>, verdicts: seq<Verdict>): (r: seq<Deferred>)
    decreases |pings|
  {
    if pings == [] then []
    else
      (match FirstVerdict(verdicts)
       case Defer(at) => [Deferred(at, pings[0].sequence, pings[0].timestampNs)]
       case _ => [])
      + Postponed(pings[1..], LaterVerdicts(verdicts))
  }

  lemma AnswersOne(c: Conn, timeoutNs: int, m: HeartbeatMessage, now: Time)
    requires c.role == Responder && c.state == Healthy && m.kind == PING
    requires HandleMessage(c, timeoutNs, m, now).state != Failed
    ensures
      var r := HandleMessage(c, timeoutNs, m, now);
      && r.role == Responder && r.state == Healthy && r.io.verdicts == LaterVerdicts(c.io.verdicts) && r.feedId == c.feedId
      && r.io.queued == c.io.queued + Replies(c.feedId, [m], c.io.verdicts)
      && r.io.deferred == c.io.deferred + Postponed([m], c.io.verdicts)
  {
    hide QueueWrite;
    hide Encode;
    hide Sealed;
    hide Message;
    assert [m][1..] == [];
    assert Replies(c.feedId, [], LaterVerdicts(c.io.verdicts)) == [] && Postponed([], LaterVerdicts(c.io.verdicts)) == [];
  }

  lemma OneFirst(feedId: uint32, m: HeartbeatMessage, rest: seq<HeartbeatMessage>, verdicts: seq<Verdict>)
    ensures Replies(feedId, [m] + rest, verdicts) == Replies(feedId, [m], verdicts) + Replies(feedId, rest, LaterVerdicts(verdicts))
    ensures Postponed([m] + rest, verdicts) == Postponed([m], verdicts) + Postponed(rest, LaterVerdicts(verdicts))
  {
    hide Pong;
    assert ([m] + rest)[1..] == rest && [m][1..] == [];
    assert Replies(feedId, [], LaterVerdicts(verdicts)) == [] && Postponed([], LaterVerdicts(verdicts)) == [];
  }

  lemma Regroup<T>(a: seq<T>, b: seq<T>, c: seq<T>)
    ensures a + b + c == a + (b + c)
  {}

  /** What a healthy responder does with the PINGs of a read, one by one as the interceptor decides: an echo queued at
      once, an echo put off, or nothing. */
  lemma {:induction false} DrainVerdicts(c: Conn, timeoutNs: int, now: Time)
    requires c.role == Responder && c.state == Healthy
    requires AllPings(Parse(c.readAccum).frames) && Drain(c, timeoutNs, now).state != Failed
    ensures
      var r := Drain(c, timeoutNs, now);
      && r.io.handled == c.io.handled + Parse(c.readAccum).frames
      && r.io.queued == c.io.queued + Replies(c.feedId, Parse(c.readAccum).frames, c.io.verdicts)
      && r.io.deferred == c.io.deferred + Postponed(Parse(c.readAccum).frames, c.io.verdicts)
    decreases |c.readAccum|
  {
    hide Decode;
    hide HandleMessage;
    hide Pong;
    hide FirstVerdict;
    hide LaterVerdicts;
    if |c.readAccum| < MESSAGE_SIZE {
      assert c.io.handled + [] == c.io.handled && c.io.queued + [] == c.io.queued && c.io.deferred + [] == c.io.deferred;
    } else {
      hide Replies;
      hide Postponed;
      var m := Decode(c.readAccum[..MESSAGE_SIZE]).value;
      var p := Parse(c.readAccum[MESSAGE_SIZE..]);
      assert Parse(c.readAccum).frames == [m] + p.frames;
      assert ([m] + p.frames)[0] == m && ([m] + p.frames)[1..] == p.frames;
      var c0 := TakeFrame(c, m);
      HandlersLeaveInput(c0, timeoutNs, m, now);
      AnswersOne(c0, timeoutNs, m, now);
      forall i | 0 <= i < |p.frames|
        ensures p.frames[i].kind == PING
      {
        assert p.frames[i] == ([m] + p.frames)[i + 1];
      }
      var vs := c.io.verdicts;
      DrainVerdicts(HandleMessage(c0, timeoutNs, m, now), timeoutNs, now);
      OneFirst(c.feedId, m, p.frames, vs);
      Regroup(c.io.handled, [m], p.frames);
      Regroup(c.io.queued, Replies(c.feedId, [m], vs), Replies(c.feedId, p.frames, LaterVerdicts(vs)));
      Regroup(c.io.deferred, Postponed([m], vs), Postponed(p.frames, LaterVerdicts(vs)));
    }
  }

  /** An interceptor that always lets the reply go makes it one PONG for every PING. */
  lemma {:induction false} RepliesAll(feedId: uint32, pings: seq<HeartbeatMessage>)
    ensures Replies(feedId, pings, []) == Pongs(feedId, pings) && Postponed(pings, []) == []
    decreases |pings|
  {
    hide Pong;
    if pings != [] {
      RepliesAll(feedId, pings[1..]);
      PongsOne(feedId, pings[0], pings[1..]);
      assert pings == [pings[0]] + pings[1..];
    }
  }

  /** A read that does not fail its connection drains all it received, in order. */
  lemma ReadIsDrain(c: Conn, s: Step)
    requires s.event.Readable? && c.state != Failed && Apply(c, s).state != Failed
    ensures
      var k := WithKernel(c, s.clock, s.sends, s.verdicts);
      var k1 := k.(readAccum := c.readAccum + Delivered(s.event.recvs));
      && Receive(c.readAccum, s.event.recvs).1 == Drained
      && Apply(c, s) == Drain(k1, s.cfg.heartbeatTimeoutNs, s.event.now)
      && !Parse(k1.readAccum).bad && Apply(c, s).io.handled == c.io.handled + Parse(k1.readAccum).frames
  {
    hide Drain;
    hide Parse;
    hide Receive;
    hide Delivered;
    ReceiveAppends(c.readAccum, s.event.recvs);
    var k := WithKernel(c, s.clock, s.sends, s.verdicts);
    var k1 := k.(readAccum := c.readAccum + Delivered(s.event.recvs));
    DrainParses(k1, s.cfg.heartbeatTimeoutNs, s.event.now);
    var frames := Parse(k1.readAccum).frames;
    assert frames[..|frames|] == frames;
  }

  // ---- The initiator counts a timely PONG among others ----

  lemma {:induction false} CountsTimely(window: seq<uint64>, frames: seq<HeartbeatMessage>, timeoutNs: int, now: Time, k: nat)
    requires k < |frames| && Timely(frames[k], timeoutNs, now)
    requires frames[k].sequence !in WindowAfter(window, frames[..k])
    ensures frames[k] in EvidenceReads.Counting(window, frames, timeoutNs, now)
    decreases k
  {
    hide Remember;
    hide Timely;
    if k == 0 {
      assert frames[..0] == [];
    } else {
      var w := if frames[0].sequence in window then window else Remember(window, frames[0].sequence);
      WindowStep(window, frames, k);
      CountsTimely(w, frames[1..], timeoutNs, now, k - 1);
    }
  }

  lemma RttAmong(ms: seq<HeartbeatMessage>, m: HeartbeatMessage, now: Time)
    requires m in ms
    ensures now - m.timestampNs in Rtts(ms, now)
  {
    var i :| 0 <= i < |ms| && ms[i] == m;
    assert Rtts(ms, now)[i] == now - m.timestampNs;
  }

  // ---- What one attempt of a run keeps ----

  /** What was queued and handled stays so, on both sides. */
  predicate Continues(s: System, r: System) {
    && r.ini.feedId == s.ini.feedId
    && s.ini.io.queued <= r.ini.io.queued && s.ini.io.handled <= r.ini.io.handled
    && PeerConn(s).io.queued <= PeerConn(r).io.queued && PeerConn(s).io.handled <= PeerConn(r).io.handled
  }

  lemma {:induction false} DrainHandled(c: Conn, timeoutNs: int, now: Time)
    ensures c.io.handled <= Drain(c, timeoutNs, now).io.handled
    decreases |c.readAccum|
  {
    hide Decode;
    hide HandleMessage;
    if |c.readAccum| >= MESSAGE_SIZE && Decode(c.readAccum[..MESSAGE_SIZE]).Some? {
      var m := Decode(c.readAccum[..MESSAGE_SIZE]).value;
      var c1 := HandleMessage(TakeFrame(c, m), timeoutNs, m, now);
      HandlersLeaveInput(TakeFrame(c, m), timeoutNs, m, now);
      if c1.state != Failed {
        DrainHandled(c1, timeoutNs, now);
      }
    }
  }

  lemma ReadHandled(c: Conn, s: Step)
    requires s.event.Readable?
    ensures c.io.handled <= Apply(c, s).io.handled
  {
    hide Drain;
    hide Receive;
    var k := WithKernel(c, s.clock, s.sends, s.verdicts);
    DrainHandled(k.(readAccum := Receive(k.readAccum, s.event.recvs).0), s.cfg.heartbeatTimeoutNs, s.event.now);
  }

  lemma ContinuesIni(s: System, r: Conn)
    requires Grows(s.ini, r) && s.ini.io.handled <= r.io.handled
    ensures Continues(s, System(r, s.peer))
  {}

  lemma ContinuesPeer(s: System, r: Conn, peer: Peer)
    requires s.peer.Alive? && Grows(s.peer.conn, r) && s.peer.conn.io.handled <= r.io.handled
    requires !peer.Absent? && peer.conn.io.queued == r.io.queued && peer.conn.io.handled == r.io.handled
    ensures Continues(s, System(s.ini, peer))
  {}

  lemma SettledConn(before: Conn, after: Conn, pending: seq<Deferred>, tick: bool)
    ensures
      var peer := Settle(before, after, pending, tick);
      !peer.Absent? && peer.conn.io.queued == after.io.queued && peer.conn.io.handled == after.io.handled
  {}

  lemma IniContinues(s: System, step: Step)
    requires Inv(s) && Enabled(s, IniMove(step)) && !step.event.Reconnect?
    ensures Continues(s, Next(s, IniMove(step)))
  {
    hide Inv;
    hide Apply;
    hide Delivered;
    hide EncodeAll;
    hide Continues;
    hide IniState;
    hide Credit;
    hide PeerInv;
    InvHalves(s);
    if step.event.Readable? {
      IniReadable(s, step);
      ReadHandled(s.ini, step);
    } else {
      IniLocal(s.ini, step);
    }
    ContinuesIni(s, Apply(s.ini, step));
  }

  lemma InvHalves(s: System)
    requires Inv(s)
    ensures IniState(s.ini) && Credit(s.ini) && PeerInv(s)
  {
    hide IniState;
    hide Credit;
    hide PeerInv;
    hide EncodeAll;
  }

  lemma PeerContinues(s: System, step: Step)
    requires Inv(s) && Enabled(s, PeerMove(step))
    ensures Continues(s, Next(s, PeerMove(step)))
  {
    hide Inv;
    hide Apply;
    hide Delivered;
    hide EncodeAll;
    hide Continues;
    hide Settle;
    hide IniState;
    hide Credit;
    hide PeerInv;
    hide PeerAfter;
    hide PeerOk;
    InvHalves(s);
    var c := s.peer.conn;
    if step.event.Readable? {
      PeerReadable(s, step);
      ReadHandled(c, step);
    } else {
      PeerLocal(s, step);
      OnlyReadsRead(c, step);
    }
    var r := Apply(c, step);
    SettledConn(c, r, s.peer.pending, step.event.Tick?);
    ContinuesPeer(s, r, Settle(c, r, s.peer.pending, step.event.Tick?));
  }

  lemma FireContinues(s: System, i: nat, clock: Time, sends: seq<Send>)
    requires s.peer.Alive? && i < |s.peer.pending|
    ensures Continues(s, Next(s, Fire(i, clock, sends)))
  {
    hide SendPong;
    var k := WithKernel(s.peer.conn, clock, sends, []);
    var d := s.peer.pending[i];
    SendPongFrames(k, d.sequence, d.timestampNs);
    PongHandledSame(k, d);
  }

  lemma PongHandledSame(c: Conn, d: Deferred)
    ensures SendPong(c, d.sequence, d.timestampNs).io.handled == c.io.handled
  {
    hide QueueWrite;
  }

  lemma MoveContinues(s: System, m: Move)
    requires Inv(s) && Enabled(s, m) && !(m.IniMove? && m.step.event.Reconnect?)
    ensures Continues(s, Next(s, m))
  {
    match m {
      case IniMove(step) =>
        hide Inv;
        hide Next;
        hide Enabled;
        IniContinues(s, step);
      case PeerMove(step) =>
        hide Inv;
        hide Next;
        hide Enabled;
        PeerContinues(s, step);
      case Fire(i, clock, sends) =>
        hide Next;
        hide Inv;
        FireContinues(s, i, clock, sends);
      case AcceptPeer(_, _) =>
        hide Inv;
      case Kill =>
        hide Inv;
    }
  }

  /** The moves from `i` to `n` stay in one attempt. */
  predicate SameAttempt(moves: seq<Move>, i: nat, n: nat)
    requires i <= n <= |moves|
  {
    forall k :: i <= k < n ==> !(moves[k].IniMove? && moves[k].step.event.Reconnect?)
  }

  lemma {:induction false} RunContinues(states: seq<System>, moves: seq<Move>, i: nat, n: nat)
    requires IsRun(states, moves) && Inv(states[0]) && i <= n <= |moves| && SameAttempt(moves, i, n)
    ensures Continues(states[i], states[n])
    decreases n
  {
    hide Inv;
    hide Next;
    hide Enabled;
    if i < n {
      RunContinues(states, moves, i, n - 1);
      RunInv(states, moves, n - 1);
      MoveContinues(states[n - 1], moves[n - 1]);
    }
  }

  // ---- The three reads and writes of one heartbeat ----

  /** The PING step puts its frame next in the initiator's stream. */
  lemma PingQueued(s: System, step: Step)
    requires Inv(s) && step.event.PingDue? && Live(s.ini)
    ensures
      Next(s, IniMove(step)).ini.io.queued ==
      s.ini.io.queued + [Sealed(Message(PING, s.ini.feedId, s.ini.nextSequence, step.event.now))]
  {
    hide Inv;
    hide QueueWrite;
    hide Encode;
    hide Sealed;
    hide Message;
    InvHalves(s);
    IniFacts(s.ini);
  }

  /** The frames a healthy responder reads are PINGs, and those it handles are the initiator's, in order. */
  lemma PeerReadsPings(s: System, step: Step)
    requires Inv(s) && Enabled(s, PeerMove(step)) && step.event.Readable?
    requires s.peer.conn.state == Healthy && step.verdicts == []
    requires Next(s, PeerMove(step)).peer.Alive?
    ensures
      var c, r := s.peer.conn, Next(s, PeerMove(step)).peer.conn;
      && |c.io.handled| <= |r.io.handled| && r.io.handled <= s.ini.io.queued
      && r.io.queued == c.io.queued + Pongs(s.ini.feedId, r.io.handled[|c.io.handled|..])
  {
    hide Inv;
    hide Drain;
    hide Parse;
    hide Delivered;
    hide Receive;
    hide EncodeAll;
    hide Pongs;
    InvHalves(s);
    PeerReadable(s, step);
    var c := s.peer.conn;
    ReadIsDrain(c, step);
    var k1 := WithKernel(c, step.clock, step.sends, step.verdicts).(readAccum := c.readAccum + Delivered(step.event.recvs));
    var frames := Parse(k1.readAccum).frames;
    PeerHeardHello(s);
    PingsFrom(s, c.io.handled, frames);
    DrainVerdicts(k1, step.cfg.heartbeatTimeoutNs, step.event.now);
    RepliesAll(c.feedId, frames);
    assert (c.io.handled + frames)[|c.io.handled|..] == frames;
  }

  lemma PeerHeardHello(s: System)
    requires Inv(s) && s.peer.Alive? && s.peer.conn.state == Healthy
    ensures s.peer.conn.io.handled != [] && s.peer.conn.role == Responder && s.peer.conn.feedId == s.ini.feedId
    ensures FromInitiator(s.ini.io.queued, s.ini.feedId)
  {
    hide EncodeAll;
    hide FromInitiator;
    hide FromResponder;
    hide Credit;
    hide Echoes;
    hide ReadsFrom;
    InvHalves(s);
  }

  lemma PingsFrom(s: System, handled: seq<HeartbeatMessage>, frames: seq<HeartbeatMessage>)
    requires FromInitiator(s.ini.io.queued, s.ini.feedId) && handled != [] && handled + frames <= s.ini.io.queued
    ensures AllPings(frames)
  {
    hide Sealed;
    forall i | 0 <= i < |frames|
      ensures frames[i].kind == PING
    {
      assert (handled + frames)[|handled| + i] == frames[i];
    }
  }

  /** The frames a live initiator reads are PONGs, and those it handles are its peer's, in order. */
  lemma IniReadsPongs(s: System, step: Step)
    requires Inv(s) && Enabled(s, IniMove(step)) && step.event.Readable? && Live(s.ini)
    requires Next(s, IniMove(step)).ini.state != Failed
    ensures
      var c, r := s.ini, Next(s, IniMove(step)).ini;
      var p := Parse(c.readAccum + Delivered(step.event.recvs));
      && r.io.handled == c.io.handled + p.frames && r.io.handled <= PeerConn(s).io.queued
      && Filtered(WithKernel(c, step.clock, step.sends, step.verdicts), r, p, step.cfg.heartbeatTimeoutNs, step.event.now)
  {
    hide Inv;
    hide Drain;
    hide Parse;
    hide Delivered;
    hide Receive;
    hide EncodeAll;
    hide Filtered;
    InvHalves(s);
    IniReadable(s, step);
    var c := s.ini;
    ReadIsDrain(c, step);
    IniHeardAck(s);
    var p := Parse(c.readAccum + Delivered(step.event.recvs));
    PongsFrom(PeerConn(s).io.queued, c.feedId, c.io.handled, p.frames);
    var k := WithKernel(c, step.clock, step.sends, step.verdicts);
    DrainFilters(k.(readAccum := c.readAccum + Delivered(step.event.recvs)), step.cfg.heartbeatTimeoutNs, step.event.now);
    FilteredBefore(k, Apply(c, step), c.readAccum + Delivered(step.event.recvs), p, step.cfg.heartbeatTimeoutNs, step.event.now);
  }

  /** The buffer it starts from is not part of what the filter compares. */
  lemma FilteredBefore(c: Conn, r: Conn, accum: seq<byte>, p: Parsed, timeoutNs: int, now: Time)
    requires Filtered(c.(readAccum := accum), r, p, timeoutNs, now)
    ensures Filtered(c, r, p, timeoutNs, now)
  {
    hide EvidenceReads.Counting;
    hide WindowAfter;
    hide Rtts;
  }

  lemma IniHeardAck(s: System)
    requires Inv(s) && Live(s.ini)
    ensures s.ini.io.handled != [] && s.ini.role == Initiator
    ensures FromResponder(PeerConn(s).io.queued, s.ini.feedId)
  {
    hide EncodeAll;
    hide FromInitiator;
    hide FromResponder;
    hide Credit;
    InvHalves(s);
    InvWriter(s);
  }

  lemma PongsFrom(queued: seq<HeartbeatMessage>, feedId: uint32, handled: seq<HeartbeatMessage>, frames: seq<HeartbeatMessage>)
    requires FromResponder(queued, feedId) && handled != [] && handled + frames <= queued
    ensures AllPongs(frames)
  {
    hide Sealed;
    forall m | m in frames
      ensures m.kind == PONG
    {
      var i :| 0 <= i < |frames| && frames[i] == m;
      assert (handled + frames)[|handled| + i] == m;
    }
  }

  lemma PongParts(feedId: uint32, ping: HeartbeatMessage)
    ensures Pong(feedId, ping).sequence == ping.sequence && Pong(feedId, ping).timestampNs == ping.timestampNs
  {
    hide Checksum;
    hide Payload;
  }

  lemma SealedTimes(m: HeartbeatMessage)
    ensures Sealed(m).sequence == m.sequence && Sealed(m).timestampNs == m.timestampNs
  {
    hide Checksum;
    hide Payload;
  }

  /** Where in the responder's stream the answer to the initiator's `q`-th frame is, when `s` reads it. */
  function AnswerAt(s: System, q: nat): (r: int) {
    |PeerConn(s).io.queued| + q - |PeerConn(s).io.handled|
  }

  lemma AnswerQueued(s: System, r: System, step: Step, q: nat)
    requires s.peer.Alive? && r.peer.Alive? && s.peer.conn.state == Healthy && step.event.Readable? && step.verdicts == []
    requires Inv(s) && Enabled(s, PeerMove(step)) && r == Next(s, PeerMove(step))
    requires |s.peer.conn.io.handled| <= q < |r.peer.conn.io.handled|
    ensures q < |s.ini.io.queued| && 0 <= AnswerAt(s, q) < |r.peer.conn.io.queued|
    ensures r.peer.conn.io.queued[AnswerAt(s, q)] == Pong(s.ini.feedId, s.ini.io.queued[q])
  {
    hide Inv;
    hide Next;
    hide Enabled;
    hide Pong;
    PeerReadsPings(s, step);
  }

  /** What a heartbeat that counted leaves. */
  predicate Counted(before: Conn, after: Conn, v: Time, rtt: int) {
    && after.state == Healthy && after.consecutiveMissed == 0 && after.lastLivenessNs == v
    && before.io.rtts <= after.io.rtts && rtt in after.io.rtts[|before.io.rtts|..]
  }

  lemma FilteredCounts(c: Conn, r: Conn, p: Parsed, timeoutNs: int, now: Time, k: nat)
    requires Filtered(c, r, p, timeoutNs, now) && k < |p.frames| && Timely(p.frames[k], timeoutNs, now)
    requires p.frames[k].sequence !in WindowAfter(c.acked, p.frames[..k])
    ensures Counted(c, r, now, now - p.frames[k].timestampNs)
  {
    hide EvidenceReads.Counting;
    hide WindowAfter;
    hide Rtts;
    CountsTimely(c.acked, p.frames, timeoutNs, now, k);
    var good := EvidenceReads.Counting(c.acked, p.frames, timeoutNs, now);
    RttAmong(good, p.frames[k], now);
    assert r.io.rtts[|c.io.rtts|..] == Rtts(good, now);
  }

  /** Every heartbeat answered in time counts. In any run of the two-party system, within one attempt: move `i` is a ping
      step of a live initiator at t; in move `j` the responder, which answers at once, handles that PING among whatever
      else it reads; in move `l` the initiator handles the answer, among whatever else it reads, at v. If neither side
      fails in those moves, v - t is under the timeout, and the number is not in the window when the answer's turn
      comes, then the initiator is Healthy with no misses, liveness v, and v - t among the RTTs just recorded. */
  lemma EveryAnswerCounts(states: seq<System>, moves: seq<Move>, i: nat, j: nat, l: nat)
    requires IsRun(states, moves) && Inv(states[0]) && i < j < l < |moves| && SameAttempt(moves, i, l + 1)
    requires moves[i].IniMove? && moves[i].step.event.PingDue? && Live(states[i].ini)
    requires moves[j].PeerMove? && moves[j].step.event.Readable? && moves[j].step.verdicts == []
    requires states[j].peer.Alive? && states[j].peer.conn.state == Healthy && states[j + 1].peer.Alive?
    requires |states[j].peer.conn.io.handled| <= |states[i].ini.io.queued| < |states[j + 1].peer.conn.io.handled|
    requires moves[l].IniMove? && moves[l].step.event.Readable? && Live(states[l].ini) && states[l + 1].ini.state != Failed
    requires |states[l].ini.io.handled| <= AnswerAt(states[j], |states[i].ini.io.queued|) < |states[l + 1].ini.io.handled|
    requires 0 <= moves[l].step.event.now - moves[i].step.event.now < moves[l].step.cfg.heartbeatTimeoutNs
    requires states[i].ini.nextSequence !in
             WindowAfter(states[l].ini.acked,
                         states[l + 1].ini.io.handled[|states[l].ini.io.handled|..AnswerAt(states[j], |states[i].ini.io.queued|)])
    ensures Counted(states[l].ini, states[l + 1].ini, moves[l].step.event.now,
                    moves[l].step.event.now - moves[i].step.event.now)
  {
    hide Inv;
    hide Next;
    hide Enabled;
    hide Filtered;
    hide WindowAfter;
    hide Parse;
    hide Delivered;
    hide Pong;
    hide Sealed;
    hide Message;
    var q, t := |states[i].ini.io.queued|, moves[i].step.event.now;
    var at := AnswerAt(states[j], q);
    var ping := Sealed(Message(PING, states[i].ini.feedId, states[i].ini.nextSequence, t));
    RunInv(states, moves, i);
    RunInv(states, moves, j);
    RunInv(states, moves, l);
    PingQueued(states[i], moves[i].step);
    RunContinues(states, moves, i + 1, j);
    assert states[j].ini.io.queued[q] == states[i + 1].ini.io.queued[q] == ping;
    AnswerQueued(states[j], states[j + 1], moves[j].step, q);
    RunContinues(states, moves, j + 1, l);
    var pong := Pong(states[j].ini.feedId, ping);
    assert PeerConn(states[l]).io.queued[at] == states[j + 1].peer.conn.io.queued[at] == pong;
    IniReadsPongs(states[l], moves[l].step);
    var c, r := states[l].ini, states[l + 1].ini;
    var p := Parse(c.readAccum + Delivered(moves[l].step.event.recvs));
    var k := at - |c.io.handled|;
    assert r.io.handled[at] == pong && p.frames[k] == pong;
    assert r.io.handled[|c.io.handled|..at] == p.frames[..k];
    SealedTimes(Message(PING, states[i].ini.feedId, states[i].ini.nextSequence, t));
    MessageTimes(PING, states[i].ini.feedId, states[i].ini.nextSequence, t);
    PongParts(states[j].ini.feedId, ping);
    var kc := WithKernel(c, moves[l].step.clock, moves[l].step.sends, moves[l].step.verdicts);
    FilteredCounts(kc, r, p, moves[l].step.cfg.heartbeatTimeoutNs, moves[l].step.event.now, k);
  }

  lemma MessageTimes(kind: uint8, feedId: uint32, sequence: uint64, timestampNs: int64)
    ensures Message(kind, feedId, sequence, timestampNs).sequence == sequence
    ensures Message(kind, feedId, sequence, timestampNs).timestampNs == timestampNs
  {}
}
