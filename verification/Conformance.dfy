/** Handshake conformance: a connection that has not failed has seen nothing but what the protocol allows. In every
    attempt an initiator has handled the CONNECT_ACK for its own feed and then only PONGs, a responder the
    CONNECT_HELLO for its own feed and then only PINGs, whoever is at the other end; any other frame fails it. */
module Conformance {
  import opened Heartbeat
  import opened ConnectionModel
  import opened ConnectionRuns
  import opened Detection

  predicate IsOpening(m: HeartbeatMessage, role: Role, feedId: uint32) {
    m.feedId == feedId && m.kind == if role == Initiator then CONNECT_ACK else CONNECT_HELLO
  }

  predicate IsTalk(m: HeartbeatMessage, role: Role) {
    m.kind == if role == Initiator then PONG else PING
  }

  /** The frames handled in an attempt, as the protocol allows them. */
  predicate Conforms(handled: seq<HeartbeatMessage>, role: Role, feedId: uint32) {
    forall i :: 0 <= i < |handled| ==>
      if i == 0 then IsOpening(handled[i], role, feedId) else IsTalk(handled[i], role)
  }

  /** An attempt has handled nothing until its opening, and is not connected since any time until then. */
  predicate Conformant(c: Conn) {
    c.state != Failed ==>
      && Conforms(c.io.handled, c.role, c.feedId)
      && (if Live(c) then c.io.handled != [] else c.io.handled == [])
      && (Attempting(c) ==> c.stats.connectedSinceNs == 0)
  }

  lemma ConformsMore(handled: seq<HeartbeatMessage>, m: HeartbeatMessage, role: Role, feedId: uint32)
    requires Conforms(handled, role, feedId)
    ensures Conforms(handled + [m], role, feedId) <==>
            if handled == [] then IsOpening(m, role, feedId) else IsTalk(m, role)
  {
    hide IsOpening;
    hide IsTalk;
    var all := handled + [m];
    assert all[|handled|] == m;
  }

  lemma MessageConforms(c: Conn, timeoutNs: int, m: HeartbeatMessage, now: Time)
    requires c.state != Failed && Conformant(c) && IsKnownMessageType(m.kind) && |c.readAccum| >= MESSAGE_SIZE
    ensures Conformant(HandleMessage(TakeFrame(c, m), timeoutNs, m, now))
    ensures HandleMessage(TakeFrame(c, m), timeoutNs, m, now).role == c.role
  {
    hide QueueWrite;
    hide Remember;
    hide Encode;
    hide Sealed;
    hide Message;
    ConformsMore(c.io.handled, m, c.role, c.feedId);
    hide Conforms;
  }

  lemma {:induction false} DrainConforms(c: Conn, timeoutNs: int, now: Time)
    requires Conformant(c) && c.state != Failed
    ensures Conformant(Drain(c, timeoutNs, now))
    decreases |c.readAccum|
  {
    hide Decode;
    hide HandleMessage;
    hide Conforms;
    if |c.readAccum| >= MESSAGE_SIZE && Decode(c.readAccum[..MESSAGE_SIZE]).Some? {
      var m := Decode(c.readAccum[..MESSAGE_SIZE]).value;
      var c1 := HandleMessage(TakeFrame(c, m), timeoutNs, m, now);
      DecodedKnown(c.readAccum[..MESSAGE_SIZE]);
      MessageConforms(c, timeoutNs, m, now);
      HandlersLeaveInput(TakeFrame(c, m), timeoutNs, m, now);
      if c1.state != Failed {
        DrainConforms(c1, timeoutNs, now);
      }
    }
  }

  lemma ReadConforms(c: Conn, s: Step)
    requires Conformant(c) && c.state != Failed && s.event.Readable?
    ensures Conformant(Apply(c, s))
  {
    hide Drain;
    hide Receive;
    hide Conforms;
    var k := WithKernel(c, s.clock, s.sends, s.verdicts);
    DrainConforms(k.(readAccum := Receive(k.readAccum, s.event.recvs).0), s.cfg.heartbeatTimeoutNs, s.event.now);
  }

  lemma OtherConforms(c: Conn, s: Step)
    requires Conformant(c) && !s.event.Readable? && (c.state != Failed || s.event.Reconnect?)
    ensures Conformant(Apply(c, s))
  {
    hide QueueWrite;
    hide Flush;
    hide Message;
    hide Encode;
    hide Sealed;
  }

  /** Over every run of every connection, reconnects included and whoever is at the other end. */
  lemma {:induction false} RunConforms(fd: int, role: Role, feedId: uint32, clock: Time, steps: seq<Step>)
    ensures Conformant(Run(NewConn(fd, role, feedId, clock), steps))
    decreases |steps|
  {
    hide Apply;
    hide Conforms;
    if steps == [] {
      NewConforms(fd, role, feedId, clock);
    } else {
      hide Conformant;
      var front, last := steps[..|steps| - 1], steps[|steps| - 1];
      var p := Run(NewConn(fd, role, feedId, clock), front);
      RunConforms(fd, role, feedId, clock, front);
      if p.state == Failed && !last.event.Reconnect? {
        FailedAbsorbing(p, last);
        FailedConforms(Apply(p, last));
      } else if last.event.Readable? {
        ReadConforms(p, last);
      } else {
        OtherConforms(p, last);
      }
    }
  }

  lemma NewConforms(fd: int, role: Role, feedId: uint32, clock: Time)
    ensures Conformant(NewConn(fd, role, feedId, clock))
  {}

  lemma FailedConforms(c: Conn)
    requires c.state == Failed
    ensures Conformant(c)
  {}
}
