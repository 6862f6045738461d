/** The `Connection` class of src/connection.h and src/connection.cpp, updating its fields in place:
    the recv loop over a growing buffer, the drain loop with its moving offset, the send loop with its
    staging chunks, and the acknowledged-sequence ring. Each method is proved to have exactly the effect
    of the corresponding function in ConnectionModel.dfy on the value the object stands for. */
module ConnectionClass {
  import opened Crc32
  import opened Heartbeat
  import opened Rings
  import opened Stats
  import opened ConnectionModel

  class Connection {
    var fd: int
    const role: Role
    const feedId: uint32
    var state: State
    var stateEnteredNs: int
    var nextSequence: uint64
    var consecutiveMissed: nat
    var lastLivenessNs: int
    const ackedSequences: array<uint64>
    var ackedCount: nat
    var ackedNext: nat
    var readAccum: seq<byte>
    var writePending: seq<byte>
    var stats: ConnectionStats
    var io: Io

    ghost predicate Valid()
      reads this, ackedSequences
    {
      && ackedSequences.Length == ACKED_SEQUENCE_WINDOW
      && IsRing(ackedSequences[..], ackedCount, ackedNext)
    }

    /** The value this object stands for. The ring stands for its window. */
    ghost function View(): (r: Conn)
      requires Valid()
      reads this, ackedSequences
    {
      Conn(fd, role, feedId, state, stateEnteredNs, nextSequence, consecutiveMissed, lastLivenessNs,
           Window(ackedSequences[..], ackedCount, ackedNext), readAccum, writePending, stats, io)
    }

    constructor (fd: int, role: Role, feedId: uint32, clock: Time)
      ensures Valid() && View() == NewConn(fd, role, feedId, clock) && fresh(ackedSequences)
    {
      this.fd, this.role, this.feedId := fd, role, feedId;
      state := if role == Initiator then Connecting else Handshaking;
      stateEnteredNs := clock;
      nextSequence, consecutiveMissed, lastLivenessNs := 0, 0, 0;
      ackedSequences := new uint64[ACKED_SEQUENCE_WINDOW](_ => 0);
      ackedCount, ackedNext := 0, 0;
      readAccum, writePending := [], [];
      stats := NO_STATS;
      io := QUIET_IO.(clock := clock);
    }

    method TransitionTo(newState: State, now: int)
      requires Valid()
      modifies this`state, this`stateEnteredNs
      ensures Valid() && View() == ConnectionModel.TransitionTo(old(View()), newState, now)
    {
      state := newState;
      stateEnteredNs := now;
    }

    method FailWith(reason: Reason, now: int)
      requires Valid()
      modifies this`state, this`stateEnteredNs, this`io
      ensures Valid() && View() == ConnectionModel.FailWith(old(View()), reason, now)
    {
      io := io.(log := io.log + [reason]);
      TransitionTo(Failed, now);
    }

    // ---- The acknowledged-sequence ring ----

    method HasAckedSequence(sequence: uint64) returns (found: bool)
      requires Valid()
      ensures found <==> sequence in View().acked
    {
      ScanFindsWindow(ackedSequences[..], ackedCount, ackedNext);
      assert ackedSequences[..][..ackedCount] == ackedSequences[..ackedCount];
      for i := 0 to ackedCount
        invariant sequence !in ackedSequences[..i]
      {
        if ackedSequences[i] == sequence {
          assert ackedSequences[..ackedCount][i] == sequence;
          return true;
        }
        assert ackedSequences[..i + 1] == ackedSequences[..i] + [ackedSequences[i]];
      }
      return false;
    }

    method RememberAckedSequence(sequence: uint64)
      requires Valid()
      modifies this`ackedCount, this`ackedNext, ackedSequences
      ensures Valid() && View() == old(View()).(acked := Remember(old(View()).acked, sequence))
    {
      PushSlides(ackedSequences[..], ackedCount, ackedNext, sequence);
      ackedSequences[ackedNext] := sequence;
      assert ackedSequences[..] == old(ackedSequences[..])[ackedNext := sequence];
      ackedNext := NextCursor(ackedNext, ACKED_SEQUENCE_WINDOW);
      if ackedCount < ACKED_SEQUENCE_WINDOW {
        ackedCount := ackedCount + 1;
      }
    }

    // ---- Writing ----

    method FlushWriteBuffer()
      requires Valid()
      modifies this`writePending, this`state, this`stateEnteredNs, this`io
      ensures Valid() && View() == Flush(old(View()))
    {
      ghost var target := Flush(View());
      var stopped := false;
      while writePending != [] && !stopped
        invariant Valid()
        invariant if stopped then View() == target else Flush(View()) == target
        decreases !stopped, |writePending|
      {
        if io.sends == [] {
          return;  // the kernel has no room: EAGAIN
        }
        var chunk := Min(SEND_CHUNK, |writePending|);
        var answer := io.sends[0];
        io := io.(sends := io.sends[1..]);
        if answer.Accepted? && answer.n > 0 {
          var n := Min(answer.n, chunk);
          io := io.(sent := io.sent + writePending[..n]);
          writePending := writePending[n..];
          stopped := n < chunk;  // short write: the socket send buffer is full
        } else {
          stopped := true;
          if !answer.SendWouldBlock? {
            FailWith(SocketError, io.clock);
          }
        }
      }
    }

    method QueueWrite(m: HeartbeatMessage)
      requires Valid()
      modifies this`writePending, this`state, this`stateEnteredNs, this`io
      ensures Valid() && View() == ConnectionModel.QueueWrite(old(View()), m)
    {
      hide Encode;
      hide Sealed;
      var wasEmpty := writePending == [];
      writePending := writePending + Encode(m);
      io := io.(queued := io.queued + [Sealed(m)]);
      assert View() == Enqueue(old(View()), m);
      if |writePending| > MAX_WRITE_PENDING_BYTES {
        FailWith(WriteOverflow, io.clock);
        return;
      }
      if wasEmpty {
        FlushWriteBuffer();
      }
    }

    method SendPong(sequence: uint64, timestampNs: int64)
      requires Valid()
      modifies this`writePending, this`state, this`stateEnteredNs, this`io
      ensures Valid() && View() == ConnectionModel.SendPong(old(View()), sequence, timestampNs)
    {
      hide ConnectionModel.QueueWrite;
      hide Encode;
      hide Sealed;
      if role != Responder || state != Healthy {
        return;
      }
      QueueWrite(Message(PONG, feedId, sequence, timestampNs));
    }

    method SendPing(now: Time)
      requires Valid()
      modifies this`writePending, this`state, this`stateEnteredNs, this`io, this`nextSequence, this`stats
      ensures Valid() && View() == ConnectionModel.SendPing(old(View()), now)
    {
      hide ConnectionModel.QueueWrite;
      hide Encode;
      hide Sealed;
      if role != Initiator || (state != Healthy && state != Degraded) {
        return;
      }
      var ping := Message(PING, feedId, nextSequence, now);
      nextSequence := NextSequence(nextSequence);
      QueueWrite(ping);
      stats := stats.RecordPingSent();
    }

    method OnWritable(now: Time, connectOk: bool)
      requires Valid()
      modifies this`writePending, this`state, this`stateEnteredNs, this`io
      ensures Valid() && View() == ConnectionModel.OnWritable(old(View()), now, connectOk)
    {
      hide ConnectionModel.QueueWrite;
      hide Flush;
      hide Encode;
      hide Sealed;
      if state == Connecting {
        if !connectOk {
          FailWith(SocketError, now);
          return;
        }
        TransitionTo(Handshaking, now);
        if role == Initiator {
          QueueWrite(Message(CONNECT_HELLO, feedId, 0, now));
        }
        return;
      }
      FlushWriteBuffer();
    }

    method OnHangupOrError(now: Time)
      requires Valid()
      modifies this`state, this`stateEnteredNs, this`io
      ensures Valid() && View() == ConnectionModel.OnHangupOrError(old(View()), now)
    {
      FailWith(SocketError, now);
    }

    // ---- Handlers ----

    method HandleConnectHello(m: HeartbeatMessage, now: Time)
      requires Valid()
      modifies this`writePending, this`state, this`stateEnteredNs, this`io, this`lastLivenessNs, this`stats
      ensures Valid() && View() == ConnectionModel.HandleConnectHello(old(View()), m, now)
    {
      hide ConnectionModel.QueueWrite;
      hide Encode;
      hide Sealed;
      if role != Responder || state != Handshaking {
        FailWith(UnexpectedHello, now);
        return;
      }
      if m.feedId != feedId {
        FailWith(HelloMismatch, now);
        return;
      }
      QueueWrite(Message(CONNECT_ACK, feedId, 0, now));
      lastLivenessNs := now;
      stats := stats.(connectedSinceNs := now);
      TransitionTo(Healthy, now);
    }

    method HandleConnectAck(m: HeartbeatMessage, now: Time)
      requires Valid()
      modifies this`state, this`stateEnteredNs, this`io, this`lastLivenessNs, this`stats
      ensures Valid() && View() == ConnectionModel.HandleConnectAck(old(View()), m, now)
    {
      if role != Initiator || state != Handshaking {
        FailWith(UnexpectedAck, now);
        return;
      }
      if m.feedId != feedId {
        FailWith(AckMismatch, now);
        return;
      }
      lastLivenessNs := now;
      stats := stats.(connectedSinceNs := now);
      TransitionTo(Healthy, now);
    }

    method HandlePing(m: HeartbeatMessage, now: Time)
      requires Valid()
      modifies this`writePending, this`state, this`stateEnteredNs, this`io, this`lastLivenessNs
      ensures Valid() && View() == ConnectionModel.HandlePing(old(View()), m, now)
    {
      hide ConnectionModel.SendPong;
      if role != Responder || state != Healthy {
        FailWith(UnexpectedPing, now);
        return;
      }
      lastLivenessNs := now;
      if io.verdicts != [] {
        var verdict := io.verdicts[0];
        io := io.(verdicts := io.verdicts[1..]);
        if verdict.Defer? {
          io := io.(deferred := io.deferred + [Deferred(verdict.fireAtNs, m.sequence, m.timestampNs)]);
        }
        if !verdict.Reply? {
          return;
        }
      }
      SendPong(m.sequence, m.timestampNs);
    }

    /** The PONG counts: fresh liveness, no misses, one more RTT, and out of Degraded. */
    method AcceptEvidence(m: HeartbeatMessage, now: Time)
      requires Valid()
      modifies this`state, this`stateEnteredNs, this`io, this`lastLivenessNs, this`consecutiveMissed, this`stats
      ensures Valid() && View() == Accept(old(View()), m, now)
    {
      hide Window;
      hide ConnectionStats.RecordPongReceived;
      var rtt := now - m.timestampNs;
      lastLivenessNs := now;
      consecutiveMissed := 0;
      stats := stats.RecordPongReceived(rtt);
      io := io.(accepted := io.accepted + [Evidence(m.sequence, m.timestampNs, now, rtt)], rtts := io.rtts + [rtt]);
      if state == Degraded {
        TransitionTo(Healthy, now);
      }
    }

    method HandlePong(timeoutNs: int, m: HeartbeatMessage, now: Time)
      requires Valid()
      modifies this`state, this`stateEnteredNs, this`io, this`lastLivenessNs, this`consecutiveMissed, this`stats,
               this`ackedCount, this`ackedNext, ackedSequences
      ensures Valid() && View() == ConnectionModel.HandlePong(old(View()), timeoutNs, m, now)
    {
      hide Remember;
      hide Window;
      hide Accept;
      if role != Initiator || (state != Healthy && state != Degraded) {
        FailWith(UnexpectedPong, now);
        return;
      }
      var duplicate := HasAckedSequence(m.sequence);
      if duplicate {
        return;
      }
      RememberAckedSequence(m.sequence);
      var rtt := now - m.timestampNs;
      if rtt >= timeoutNs || rtt < 0 {
        return;
      }
      AcceptEvidence(m, now);
    }

    method HandleMessage(timeoutNs: int, m: HeartbeatMessage, now: Time)
      requires Valid()
      modifies this`writePending, this`state, this`stateEnteredNs, this`io, this`lastLivenessNs,
               this`consecutiveMissed, this`stats, this`ackedCount, this`ackedNext, ackedSequences
      ensures Valid() && View() == ConnectionModel.HandleMessage(old(View()), timeoutNs, m, now)
    {
      hide ConnectionModel.HandleConnectHello;
      hide ConnectionModel.HandleConnectAck;
      hide ConnectionModel.HandlePing;
      hide ConnectionModel.HandlePong;
      if m.kind == CONNECT_HELLO {
        HandleConnectHello(m, now);
      } else if m.kind == CONNECT_ACK {
        HandleConnectAck(m, now);
      } else if m.kind == PING {
        HandlePing(m, now);
      } else if m.kind == PONG {
        HandlePong(timeoutNs, m, now);
      } else if m.kind == DISCONNECT {
        FailWith(PeerClosed, now);
      }
    }

    // ---- Reading ----

    /** The object with the first `offset` accumulated bytes taken as consumed. */
    ghost function Ahead(offset: nat): (r: Conn)
      requires Valid() && offset <= |readAccum|
      reads this, ackedSequences
    {
      View().(readAccum := readAccum[offset..])
    }

    /** Parses frame after frame behind a moving offset and erases the consumed prefix once. */
    method DrainReadBuffer(timeoutNs: int, now: Time)
      requires Valid()
      modifies this`readAccum, this`writePending, this`state, this`stateEnteredNs, this`io, this`lastLivenessNs,
               this`consecutiveMissed, this`stats, this`ackedCount, this`ackedNext, ackedSequences
      ensures Valid() && View() == Drain(old(View()), timeoutNs, now)
    {
      hide Decode;
      hide ConnectionModel.HandleMessage;
      ghost var target := Drain(View(), timeoutNs, now);
      var offset := 0;
      assert readAccum[0..] == readAccum;
      while |readAccum| - offset >= MESSAGE_SIZE
        invariant Valid() && offset <= |readAccum| && readAccum == old(readAccum)
        invariant Drain(Ahead(offset), timeoutNs, now) == target
      {
        ghost var before := Ahead(offset);
        var wire := readAccum[offset..offset + MESSAGE_SIZE];
        assert before.readAccum[..MESSAGE_SIZE] == wire;
        assert before.readAccum[MESSAGE_SIZE..] == readAccum[offset + MESSAGE_SIZE..];
        offset := offset + MESSAGE_SIZE;
        var decoded := Decode(wire);
        if decoded.None? {
          FailWith(CorruptFrame, now);
          readAccum := [];
          return;
        }
        var m := decoded.value;
        io := io.(handled := io.handled + [m]);
        HandledAhead(View(), readAccum[offset..], timeoutNs, m, now);
        HandleMessage(timeoutNs, m, now);
        assert Ahead(offset) == ConnectionModel.HandleMessage(TakeFrame(before, m), timeoutNs, m, now);
        if state == Failed {
          readAccum := [];
          return;
        }
      }
      if offset > 0 {
        readAccum := readAccum[offset..];
      } else {
        assert readAccum[0..] == readAccum;
      }
    }

    method OnReadable(timeoutNs: int, now: Time, recvs: seq<Recv>)
      requires Valid()
      modifies this`readAccum, this`writePending, this`state, this`stateEnteredNs, this`io, this`lastLivenessNs,
               this`consecutiveMissed, this`stats, this`ackedCount, this`ackedNext, ackedSequences
      ensures Valid() && View() == ConnectionModel.OnReadable(old(View()), timeoutNs, now, recvs)
    {
      hide Drain;
      var peerClosed, socketError := false, false;
      var i := 0;
      var more := true;
      ghost var result := Receive(readAccum, recvs);
      assert recvs[0..] == recvs;
      while more && i < |recvs|
        invariant i <= |recvs| && Valid()
        invariant View() == old(View()).(readAccum := readAccum)
        invariant more ==> !peerClosed && !socketError && Receive(readAccum, recvs[i..]) == result
        invariant !more ==> result == (readAccum, if peerClosed then Closed else if socketError then Errored else Drained)
        decreases |recvs| - i, more
      {
        var answer := recvs[i];
        assert recvs[i..][1..] == recvs[i + 1..];
        i := i + 1;
        match answer {
          case Data(bytes) =>
            readAccum := readAccum + bytes;
            if |readAccum| > MAX_READ_ACCUM_BYTES {
              FailWith(ReadOverflow, now);
              return;
            }
          case Eof =>
            peerClosed, more := true, false;
          case RecvWouldBlock =>
            more := false;
          case RecvError =>
            socketError, more := true, false;
        }
      }
      assert more ==> recvs[i..] == [];
      assert result == (readAccum, if peerClosed then Closed else if socketError then Errored else Drained);
      DrainReadBuffer(timeoutNs, now);
      if state == Failed {
        return;
      }
      if peerClosed {
        FailWith(PeerClosed, now);
      } else if socketError {
        FailWith(SocketError, now);
      }
    }

    // ---- Time ----

    /** One miss is charged one timeout. */
    method CountMiss(timeoutNs: int)
      requires Valid()
      modifies this`lastLivenessNs, this`consecutiveMissed, this`stats
      ensures Valid()
      ensures View() == old(View()).(consecutiveMissed := old(consecutiveMissed) + 1,
                                     lastLivenessNs := old(lastLivenessNs) + timeoutNs,
                                     stats := old(stats).RecordMissed())
    {
      hide ConnectionStats.RecordMissed;
      hide Window;
      consecutiveMissed := consecutiveMissed + 1;
      lastLivenessNs := lastLivenessNs + timeoutNs;
      stats := stats.RecordMissed();
    }

    method CheckTimeout(cfg: Config, now: Time) returns (failedNow: bool)
      requires Valid()
      modifies this`state, this`stateEnteredNs, this`lastLivenessNs, this`consecutiveMissed, this`stats
      ensures Valid() && (View(), failedNow) == ConnectionModel.CheckTimeout(old(View()), cfg, now)
    {
      hide Window;
      hide ConnectionStats.RecordMissed;
      match state {
        case Connecting | Handshaking =>
          if now - stateEnteredNs >= cfg.heartbeatTimeoutNs {
            TransitionTo(Failed, now);
            return true;
          }
          return false;
        case Healthy | Degraded =>
          if now - lastLivenessNs < cfg.heartbeatTimeoutNs {
            return false;
          }
          if role == Initiator {
            CountMiss(cfg.heartbeatTimeoutNs);
            if consecutiveMissed >= cfg.maxMissedHeartbeats {
              TransitionTo(Failed, now);
              return true;
            }
            TransitionTo(Degraded, now);
            return false;
          }
          TransitionTo(Failed, now);
          return true;
        case Failed =>
          return false;
      }
    }

    method ResetLivenessBaseline(now: Time)
      requires Valid()
      modifies this`lastLivenessNs
      ensures Valid() && View() == ConnectionModel.ResetLivenessBaseline(old(View()), now)
    {
      lastLivenessNs := now;
    }

    /** Forgets the attempt's traffic: buffers, sequence numbers, acknowledged ring and its record. */
    method ClearAttempt()
      requires Valid()
      modifies this`readAccum, this`writePending, this`nextSequence, this`ackedCount, this`ackedNext, this`io
      ensures Valid()
      ensures View() == old(View()).(readAccum := [], writePending := [], nextSequence := 0, acked := [],
                                     io := old(io).(queued := [], sent := [], handled := [], accepted := []))
    {
      assert Window(ackedSequences[..], 0, 0) == [];
      hide Window;
      readAccum, writePending := [], [];
      nextSequence := 0;
      ackedCount, ackedNext := 0, 0;
      io := io.(queued := [], sent := [], handled := [], accepted := []);
    }

    /** Restarts the miss count and the liveness baseline, and counts a reconnect. */
    method RestartCounters(now: Time)
      requires Valid()
      modifies this`consecutiveMissed, this`lastLivenessNs, this`stats
      ensures Valid()
      ensures View() == old(View()).(consecutiveMissed := 0, lastLivenessNs := now,
                                     stats := old(stats).(connectedSinceNs := 0).RecordReconnect())
    {
      hide ConnectionStats.RecordReconnect;
      hide Window;
      consecutiveMissed := 0;
      lastLivenessNs := now;
      stats := stats.(connectedSinceNs := 0).RecordReconnect();
    }

    method Rebind(newFd: int, now: Time)
      requires Valid()
      modifies this
      ensures Valid() && View() == ConnectionModel.Rebind(old(View()), newFd, now)
    {
      hide ConnectionStats.RecordReconnect;
      hide Window;
      fd := newFd;
      ClearAttempt();
      RestartCounters(now);
      TransitionTo(if role == Initiator then Connecting else Handshaking, now);
    }
  }

  /** Handlers do not look at the unparsed bytes, so it does not matter when those are erased. */
  lemma HandledAhead(c: Conn, rest: seq<byte>, timeoutNs: int, m: HeartbeatMessage, now: Time)
    ensures HandleMessage(c.(readAccum := rest), timeoutNs, m, now)
         == HandleMessage(c, timeoutNs, m, now).(readAccum := rest)
  {
    hide QueueWrite;
    hide Encode;
    hide Sealed;
    hide Remember;
    hide ConnectionStats.RecordPongReceived;
    hide Message;
    QueueAhead(c, rest, Message(CONNECT_ACK, c.feedId, 0, now));
    var c1 := c.(lastLivenessNs := now);
    var c2 := if c1.io.verdicts == [] then c1 else c1.(io := c1.io.(verdicts := c1.io.verdicts[1..]));
    QueueAhead(c2, rest, Message(PONG, c.feedId, m.sequence, m.timestampNs));
  }

  lemma QueueAhead(c: Conn, rest: seq<byte>, m: HeartbeatMessage)
    ensures QueueWrite(c.(readAccum := rest), m) == QueueWrite(c, m).(readAccum := rest)
  {
    hide Encode;
    hide Sealed;
    hide Flush;
    FlushAhead(Enqueue(c, m), rest);
  }

  lemma {:induction false} FlushAhead(c: Conn, rest: seq<byte>)
    ensures Flush(c.(readAccum := rest)) == Flush(c).(readAccum := rest)
    decreases |c.writePending|
  {
    if c.writePending != [] && c.io.sends != [] && c.io.sends[0].Accepted? && c.io.sends[0].n > 0 {
      var chunk := Min(SEND_CHUNK, |c.writePending|);
      var k := Min(c.io.sends[0].n, chunk);
      if k == chunk {
        var c1 := c.(io := c.io.(sends := c.io.sends[1..]));
        FlushAhead(c1.(writePending := c1.writePending[k..],
                       io := c1.io.(sent := c1.io.sent + c1.writePending[..k])), rest);
      }
    }
  }
}
