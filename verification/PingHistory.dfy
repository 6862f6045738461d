/** What an initiator says, exactly: on every run the frames it has queued in the current attempt are one
    HELLO and then one PING per ping step, numbered from zero and dated with the time of that step. With
    the protocol's safety this makes every recorded RTT the distance from a particular ping step. */
module PingHistory {
  import opened Crc32
  import opened Heartbeat
  import opened Stats
  import opened ConnectionModel
  import opened ConnectionRuns
  import opened Detection
  import opened Protocol
  import opened ProtocolRuns

  function Wrapped(n: nat): (r: uint64) {
    n % 0x1_0000_0000_0000_0000
  }

  lemma WrapNext(n: nat)
    ensures NextSequence(Wrapped(n)) == Wrapped(n + 1)
  {}

  /** The times of the ping steps of the current attempt, after one more step. */
  function TimesAfter(c: Conn, s: Step, times: seq<Time>): (r: seq<Time>) {
    match s.event
    case Reconnect(_, _) => []
    case PingDue(now) => if c.role == Initiator && Live(c) then times + [now] else times
    case _ => times
  }

  function PingAt(feedId: uint32, n: nat, at: Time): (r: HeartbeatMessage) {
    Sealed(Message(PING, feedId, Wrapped(n), at))
  }

  /** The frames queued are a HELLO and the PINGs sent at `times`, in order. */
  predicate Numbered(c: Conn, times: seq<Time>) {
    && c.role == Initiator
    && c.nextSequence == Wrapped(|times|)
    && (if c.io.queued == [] then times == []
        else
          && |c.io.queued| == |times| + 1
          && (forall i :: 0 <= i < |times| ==> c.io.queued[i + 1] == PingAt(c.feedId, i, times[i])))
    && (c.state == Connecting ==> c.io.queued == [])
    && (c.io.queued == [] ==> c.state == Connecting || c.state == Failed)
  }

  /** A step that queues nothing and does not restart the attempt. */
  predicate Silent(c: Conn, r: Conn) {
    && r.role == c.role && r.feedId == c.feedId
    && r.nextSequence == c.nextSequence && r.io.queued == c.io.queued
    && (r.state == Connecting ==> c.state == Connecting)
    && (c.state == Connecting || c.state == Failed ==> r.state == c.state || r.state == Failed)
  }

  lemma SilentNumbered(c: Conn, r: Conn, times: seq<Time>)
    requires Numbered(c, times) && Silent(c, r)
    ensures Numbered(r, times)
  {
    hide PingAt;
    hide Wrapped;
  }

  lemma MessageSilent(c: Conn, timeoutNs: int, m: HeartbeatMessage, now: Time)
    requires c.role == Initiator
    ensures Silent(c, HandleMessage(c, timeoutNs, m, now))
  {
    hide QueueWrite;
    hide Remember;
    hide ConnectionStats.RecordPongReceived;
  }

  lemma {:induction false} DrainSilent(c: Conn, timeoutNs: int, now: Time)
    requires c.role == Initiator
    ensures Silent(c, Drain(c, timeoutNs, now))
    decreases |c.readAccum|
  {
    hide Decode;
    hide HandleMessage;
    if |c.readAccum| >= MESSAGE_SIZE && Decode(c.readAccum[..MESSAGE_SIZE]).Some? {
      var m := Decode(c.readAccum[..MESSAGE_SIZE]).value;
      var c0 := TakeFrame(c, m);
      var c1 := HandleMessage(c0, timeoutNs, m, now);
      MessageSilent(c0, timeoutNs, m, now);
      HandlersLeaveInput(c0, timeoutNs, m, now);
      if c1.state != Failed {
        DrainSilent(c1, timeoutNs, now);
      }
    }
  }

  lemma ReadSilent(c: Conn, s: Step)
    requires c.role == Initiator && s.event.Readable?
    ensures Silent(c, Apply(c, s))
  {
    hide Drain;
    hide Receive;
    var k := WithKernel(c, s.clock, s.sends, s.verdicts);
    DrainSilent(k.(readAccum := Receive(k.readAccum, s.event.recvs).0), s.cfg.heartbeatTimeoutNs, s.event.now);
  }

  /** Steps that neither queue, read nor reconnect. */
  lemma TimerSilent(c: Conn, s: Step)
    requires c.role == Initiator && (s.event.Hangup? || s.event.Tick? || s.event.NewBaseline? || s.event.PongDue?)
    ensures Silent(c, Apply(c, s))
  {
    hide QueueWrite;
  }

  lemma WritableNumbered(c: Conn, s: Step, times: seq<Time>)
    requires Numbered(c, times) && s.event.Writable?
    ensures Numbered(Apply(c, s), times)
  {
    hide QueueWrite;
    hide Flush;
    hide Encode;
    hide Sealed;
    hide PingAt;
    hide Wrapped;
    var k := WithKernel(c, s.clock, s.sends, s.verdicts);
    if c.state != Connecting {
      SilentNumbered(c, Flush(k), times);
    }
  }

  lemma PingNumbered(c: Conn, s: Step, times: seq<Time>)
    requires Numbered(c, times) && s.event.PingDue?
    ensures Numbered(Apply(c, s), TimesAfter(c, s, times))
  {
    hide QueueWrite;
    hide Encode;
    hide Sealed;
    hide Wrapped;
    hide NextSequence;
    WrapNext(|times|);
    if Live(c) {
      var now := s.event.now;
      var r := Apply(c, s);
      var all := times + [now];
      assert r.io.queued == c.io.queued + [PingAt(c.feedId, |times|, now)];
      forall i | 0 <= i < |all|
        ensures r.io.queued[i + 1] == PingAt(c.feedId, i, all[i])
      {
      }
    }
  }

  lemma ReconnectNumbered(c: Conn, s: Step, times: seq<Time>)
    requires Numbered(c, times) && s.event.Reconnect?
    ensures Numbered(Apply(c, s), [])
  {}

  lemma StepNumbered(c: Conn, s: Step, times: seq<Time>)
    requires Numbered(c, times)
    ensures Numbered(Apply(c, s), TimesAfter(c, s, times))
  {
    hide Apply;
    hide Numbered;
    NumberedRole(c, times);
    match s.event {
      case Writable(_, _) => WritableNumbered(c, s, times);
      case PingDue(_) => PingNumbered(c, s, times);
      case Reconnect(_, _) => ReconnectNumbered(c, s, times);
      case Readable(_, _) =>
        ReadSilent(c, s);
        SilentNumbered(c, Apply(c, s), times);
      case _ =>
        TimerSilent(c, s);
        SilentNumbered(c, Apply(c, s), times);
    }
  }

  lemma NumberedRole(c: Conn, times: seq<Time>)
    requires Numbered(c, times)
    ensures c.role == Initiator
  {}

  // ---- Over runs of the two-party system ----

  /** The times of the ping steps of the attempt in force after `n` moves. */
  function PingTimes(states: seq<System>, moves: seq<Move>, n: nat): (r: seq<Time>)
    requires |states| == |moves| + 1 && n < |states|
    decreases n
  {
    if n == 0 then []
    else if moves[n - 1].IniMove? then
      TimesAfter(states[n - 1].ini, moves[n - 1].step, PingTimes(states, moves, n - 1))
    else PingTimes(states, moves, n - 1)
  }

  lemma OthersMove(s: System, m: Move)
    requires !m.IniMove?
    ensures Next(s, m).ini == s.ini
  {
    hide Apply;
    hide SendPong;
  }

  /** The whole outbound history of the attempt. */
  lemma {:induction false} RunNumbered(fd: int, feedId: uint32, clock: Time, states: seq<System>, moves: seq<Move>, n: nat)
    requires IsRun(states, moves) && states[0] == Start(fd, feedId, clock) && n < |states|
    ensures Numbered(states[n].ini, PingTimes(states, moves, n))
    decreases n
  {
    hide Numbered;
    hide TimesAfter;
    hide Enabled;
    hide Apply;
    if n == 0 {
      StartNumbered(fd, feedId, clock);
    } else {
      RunNumbered(fd, feedId, clock, states, moves, n - 1);
      var s, m := states[n - 1], moves[n - 1];
      assert states[n] == Next(s, m);
      if m.IniMove? {
        StepNumbered(s.ini, m.step, PingTimes(states, moves, n - 1));
      } else {
        OthersMove(s, m);
      }
    }
  }

  lemma StartNumbered(fd: int, feedId: uint32, clock: Time)
    ensures Numbered(Start(fd, feedId, clock).ini, [])
  {}

  // ---- Every RTT has its ping ----

  lemma {:induction false} BeatSource(ms: seq<HeartbeatMessage>, kind: uint8, b: Beat)
    requires b in Beats(ms, kind)
    ensures exists i :: 0 <= i < |ms| && ms[i].kind == kind && b == Beat(ms[i].sequence, ms[i].timestampNs)
    decreases |ms|
  {
    var n := |ms| - 1;
    if ms[n].kind == kind && b == Beat(ms[n].sequence, ms[n].timestampNs) {
    } else {
      BeatSource(ms[..n], kind, b);
      var i :| 0 <= i < n && ms[..n][i].kind == kind && b == Beat(ms[..n][i].sequence, ms[..n][i].timestampNs);
      assert ms[i] == ms[..n][i];
    }
  }

  lemma {:induction false} EvidenceBeat(es: seq<Evidence>, e: Evidence)
    requires e in es
    ensures Beat(e.sequence, e.timestampNs) in AcceptedBeats(es)
    decreases |es|
  {
    var n := |es| - 1;
    if e != es[n] {
      EvidenceBeat(es[..n], e);
    }
  }

  lemma PingFields(feedId: uint32, n: nat, at: Time)
    ensures
      var m := PingAt(feedId, n, at);
      m.sequence == Wrapped(n) && m.timestampNs == at && m.kind == PING
  {
    hide Checksum;
    hide Payload;
  }

  /** The ping step behind one piece of evidence. */
  lemma PingBehind(s: System, times: seq<Time>, e: Evidence)
    requires Inv(s) && Numbered(s.ini, times) && e in s.ini.io.accepted
    ensures exists i :: 0 <= i < |times| && e.sequence == Wrapped(i) && e.rttNs == e.atNs - times[i]
  {
    hide Inv;
    hide Wrapped;
    hide Beats;
    hide AcceptedBeats;
    hide PingAt;
    hide FromInitiator;
    var c := s.ini;
    InvAuthentic(s);
    InvSpeech(s);
    EvidenceBeat(c.io.accepted, e);
    BeatSource(c.io.queued, PING, Beat(e.sequence, e.timestampNs));
    var k :| 0 <= k < |c.io.queued| && c.io.queued[k].kind == PING
          && Beat(e.sequence, e.timestampNs) == Beat(c.io.queued[k].sequence, c.io.queued[k].timestampNs);
    HelloFirst(c.io.queued, c.feedId);
    assert c.io.queued[(k - 1) + 1] == PingAt(c.feedId, k - 1, times[k - 1]);
    PingFields(c.feedId, k - 1, times[k - 1]);
  }

  lemma InvSpeech(s: System)
    requires Inv(s)
    ensures FromInitiator(s.ini.io.queued, s.ini.feedId)
  {
    hide PeerInv;
    hide EncodeAll;
    hide Credit;
  }

  /** Authenticity, down to the ping step: every RTT accepted in the attempt is the time from one of its
      ping steps, identified by its number, to the read that accepted it. */
  lemma EveryRttHasItsPing(fd: int, feedId: uint32, clock: Time, states: seq<System>, moves: seq<Move>, n: nat, e: Evidence)
    requires IsRun(states, moves) && states[0] == Start(fd, feedId, clock) && n < |states|
    requires e in states[n].ini.io.accepted
    ensures
      var times := PingTimes(states, moves, n);
      exists i :: 0 <= i < |times| && e.sequence == Wrapped(i) && e.rttNs == e.atNs - times[i]
  {
    hide Next;
    hide Enabled;
    hide Inv;
    hide Numbered;
    hide PingTimes;
    hide Wrapped;
    StartInv(fd, feedId, clock);
    RunInv(states, moves, n);
    RunNumbered(fd, feedId, clock, states, moves, n);
    PingBehind(states[n], PingTimes(states, moves, n), e);
  }

  lemma HelloFirst(ms: seq<HeartbeatMessage>, feedId: uint32)
    requires FromInitiator(ms, feedId) && ms != []
    ensures ms[0].kind == CONNECT_HELLO
  {
    hide Sealed;
  }
}
