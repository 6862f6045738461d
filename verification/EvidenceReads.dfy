/** The evidence filter over whole reads: of the PONGs one read delivers, exactly those that are neither repeated
    within the window, nor a timeout old, nor dated in the future count, each with its own RTT; and a read that
    delivers none of those leaves state, misses, liveness and statistics exactly as they were. */
module EvidenceReads {
  import opened Heartbeat
  import opened ConnectionModel
  import opened Detection
  import opened Reassembly

  /** A PONG that can still be evidence at `now`. */
  predicate Timely(m: HeartbeatMessage, timeoutNs: int, now: Time) {
    0 <= now - m.timestampNs < timeoutNs
  }

  /** The PONGs of `frames` that count, given the window of sequences already processed. */
  function Counting(window: seq<uint64>, frames: seq<HeartbeatMessage>, timeoutNs: int, now: Time): (r: seq<HeartbeatMessage>)
    decreases |frames|
  {
    if frames == [] then []
    else
      var m := frames[0];
      if m.sequence in window then Counting(window, frames[1..], timeoutNs, now)
      else
        var rest := Counting(Remember(window, m.sequence), frames[1..], timeoutNs, now);
        if Timely(m, timeoutNs, now) then [m] + rest else rest
  }

  /** The window after them, whether they count or not. */
  function WindowAfter(window: seq<uint64>, frames: seq<HeartbeatMessage>): (r: seq<uint64>)
    decreases |frames|
  {
    if frames == [] then window
    else if frames[0].sequence in window then WindowAfter(window, frames[1..])
    else WindowAfter(Remember(window, frames[0].sequence), frames[1..])
  }

  function Rtts(ms: seq<HeartbeatMessage>, now: Time): (r: seq<int>) {
    seq(|ms|, i requires 0 <= i < |ms| => now - ms[i].timestampNs)
  }

  predicate AllPongs(frames: seq<HeartbeatMessage>) {
    forall m :: m in frames ==> m.kind == PONG
  }

  /** `c` with nothing changed but what reading useless PONGs changes. */
  function Skipped(c: Conn, p: Parsed): (r: Conn) {
    c.(readAccum := p.rest, acked := WindowAfter(c.acked, p.frames), io := c.io.(handled := c.io.handled + p.frames))
  }

  /** What a read of the PONGs `frames` does to a live initiator. */
  ghost predicate Filtered(c: Conn, r: Conn, p: Parsed, timeoutNs: int, now: Time) {
    var good := Counting(c.acked, p.frames, timeoutNs, now);
    && r.role == Initiator && Live(r) && r.readAccum == p.rest
    && r.acked == WindowAfter(c.acked, p.frames)
    && r.io.rtts == c.io.rtts + Rtts(good, now)
    && r.stats.heartbeatsAcked == c.stats.heartbeatsAcked + |good|
    && (good == [] ==> r == Skipped(c, p))
    && (good != [] ==> r.state == Healthy && r.consecutiveMissed == 0 && r.lastLivenessNs == now)
  }

  lemma OnePong(c: Conn, timeoutNs: int, m: HeartbeatMessage, now: Time)
    requires c.role == Initiator && Live(c) && m.kind == PONG
    ensures
      var r := HandleMessage(c, timeoutNs, m, now);
      var counts := m.sequence !in c.acked && Timely(m, timeoutNs, now);
      && r.role == Initiator && Live(r) && r.readAccum == c.readAccum
      && r.acked == (if m.sequence in c.acked then c.acked else Remember(c.acked, m.sequence))
      && r.io.rtts == (if counts then c.io.rtts + [now - m.timestampNs] else c.io.rtts)
      && r.stats.heartbeatsAcked == c.stats.heartbeatsAcked + (if counts then 1 else 0)
      && (counts ==> r.state == Healthy && r.consecutiveMissed == 0 && r.lastLivenessNs == now)
      && (!counts ==> r == c.(acked := r.acked))
  {
    hide Remember;
  }

  lemma RttsOne(m: HeartbeatMessage, rest: seq<HeartbeatMessage>, now: Time)
    ensures Rtts([m] + rest, now) == [now - m.timestampNs] + Rtts(rest, now)
  {}

  /** One more frame in front of a filtered rest. */
  lemma FilterStep(c: Conn, c1: Conn, r: Conn, m: HeartbeatMessage, p: Parsed, timeoutNs: int, now: Time)
    requires c.role == Initiator && Live(c) && m.kind == PONG && |c.readAccum| >= MESSAGE_SIZE
    requires c1 == HandleMessage(TakeFrame(c, m), timeoutNs, m, now) && Filtered(c1, r, p, timeoutNs, now)
    ensures Filtered(c, r, p.(frames := [m] + p.frames), timeoutNs, now)
  {
    hide HandleMessage;
    hide Remember;
    hide Rtts;
    hide Timely;
    OnePong(TakeFrame(c, m), timeoutNs, m, now);
    var all := [m] + p.frames;
    assert all[1..] == p.frames;
    RttsOne(m, Counting(c1.acked, p.frames, timeoutNs, now), now);
    assert c.io.handled + [m] + p.frames == c.io.handled + all;
  }

  lemma {:induction false} DrainFilters(c: Conn, timeoutNs: int, now: Time)
    requires c.role == Initiator && Live(c)
    requires !Parse(c.readAccum).bad && AllPongs(Parse(c.readAccum).frames)
    ensures Filtered(c, Drain(c, timeoutNs, now), Parse(c.readAccum), timeoutNs, now)
    decreases |c.readAccum|
  {
    hide Decode;
    hide HandleMessage;
    hide Remember;
    hide Timely;
    if |c.readAccum| < MESSAGE_SIZE {
      assert c.io.handled + [] == c.io.handled && c.io.rtts + [] == c.io.rtts;
    } else {
      var m := Decode(c.readAccum[..MESSAGE_SIZE]).value;
      var p := Parse(c.readAccum[MESSAGE_SIZE..]);
      assert ([m] + p.frames)[0] == m;
      assert forall x :: x in p.frames ==> x in [m] + p.frames;
      var c0 := TakeFrame(c, m);
      var c1 := HandleMessage(c0, timeoutNs, m, now);
      OnePong(c0, timeoutNs, m, now);
      DrainFilters(c1, timeoutNs, now);
      hide Filtered;
      FilterStep(c, c1, Drain(c1, timeoutNs, now), m, p, timeoutNs, now);
    }
  }

  /** Exactly which PONGs of a read are evidence. A live initiator that reads nothing but whole PONGs counts those
      `Counting` names, in order, each with its own RTT; it ends Healthy with fresh liveness if there are any, and
      is otherwise unchanged but for its window and its buffer. An end of stream or a socket error in the same call
      fails it only after that. */
  lemma ReadsFilterEvidence(c: Conn, timeoutNs: int, now: Time, recvs: seq<Recv>)
    requires c.role == Initiator && Live(c) && Receive(c.readAccum, recvs).1 != Overflowed
    requires !Parse(c.readAccum + Delivered(recvs)).bad && AllPongs(Parse(c.readAccum + Delivered(recvs)).frames)
    ensures
      var d := Drain(c.(readAccum := c.readAccum + Delivered(recvs)), timeoutNs, now);
      && Filtered(c, d, Parse(c.readAccum + Delivered(recvs)), timeoutNs, now)
      && OnReadable(c, timeoutNs, now, recvs) ==
         match Receive(c.readAccum, recvs).1
         case Closed => FailWith(d, PeerClosed, now)
         case Errored => FailWith(d, SocketError, now)
         case _ => d
  {
    hide Drain;
    hide Parse;
    hide Receive;
    hide Delivered;
    hide Counting;
    hide WindowAfter;
    ReceiveAppends(c.readAccum, recvs);
    DrainFilters(c.(readAccum := c.readAccum + Delivered(recvs)), timeoutNs, now);
  }

  /** No PONG of `frames` counts. */
  predicate AllUseless(window: seq<uint64>, frames: seq<HeartbeatMessage>, timeoutNs: int, now: Time) {
    forall i :: 0 <= i < |frames| ==>
      !Timely(frames[i], timeoutNs, now) || frames[i].sequence in WindowAfter(window, frames[..i])
  }

  lemma {:induction false} WindowStep(window: seq<uint64>, frames: seq<HeartbeatMessage>, i: nat)
    requires 0 < i <= |frames|
    ensures
      var w := if frames[0].sequence in window then window else Remember(window, frames[0].sequence);
      WindowAfter(window, frames[..i]) == WindowAfter(w, frames[1..][..i - 1])
  {
    hide Remember;
    assert frames[..i][1..] == frames[1..][..i - 1];
  }

  /** `Counting` is empty exactly when every PONG is late, early or a repeat at the point where it is read. */
  lemma {:induction false} NothingCounts(window: seq<uint64>, frames: seq<HeartbeatMessage>, timeoutNs: int, now: Time)
    ensures Counting(window, frames, timeoutNs, now) == [] <==> AllUseless(window, frames, timeoutNs, now)
    decreases |frames|
  {
    hide Remember;
    hide Timely;
    if frames != [] {
      var m, rest := frames[0], frames[1..];
      var w := if m.sequence in window then window else Remember(window, m.sequence);
      NothingCounts(w, rest, timeoutNs, now);
      assert WindowAfter(window, frames[..0]) == window;
      forall i | 0 < i < |frames|
        ensures WindowAfter(window, frames[..i]) == WindowAfter(w, rest[..i - 1]) && frames[i] == rest[i - 1]
      {
        WindowStep(window, frames, i);
      }
      hide WindowAfter;
      if AllUseless(w, rest, timeoutNs, now) && (m.sequence in window || !Timely(m, timeoutNs, now)) {
        forall i | 0 <= i < |frames|
          ensures !Timely(frames[i], timeoutNs, now) || frames[i].sequence in WindowAfter(window, frames[..i])
        {
          if i > 0 {
            assert frames[i] == rest[i - 1];
          }
        }
      }
      if AllUseless(window, frames, timeoutNs, now) {
        forall j | 0 <= j < |rest|
          ensures !Timely(rest[j], timeoutNs, now) || rest[j].sequence in WindowAfter(w, rest[..j])
        {
          assert frames[j + 1] == rest[j];
        }
      }
    }
  }

  /** A whole read leaves state, misses, liveness and statistics as they were if and only if each of its PONGs is a
      duplicate in the window at that point, a timeout old, or dated in the future. */
  lemma UselessReads(c: Conn, timeoutNs: int, now: Time, recvs: seq<Recv>)
    requires c.role == Initiator && Live(c) && Receive(c.readAccum, recvs).1 == Drained
    requires !Parse(c.readAccum + Delivered(recvs)).bad && AllPongs(Parse(c.readAccum + Delivered(recvs)).frames)
    ensures
      var frames := Parse(c.readAccum + Delivered(recvs)).frames;
      var r := OnReadable(c, timeoutNs, now, recvs);
      AllUseless(c.acked, frames, timeoutNs, now) <==>
        && r.state == c.state && r.stateEnteredNs == c.stateEnteredNs
        && r.consecutiveMissed == c.consecutiveMissed && r.lastLivenessNs == c.lastLivenessNs
        && r.stats == c.stats && r.io.rtts == c.io.rtts
  {
    hide OnReadable;
    hide Parse;
    hide Receive;
    hide Delivered;
    hide AllUseless;
    hide Counting;
    hide WindowAfter;
    hide Rtts;
    var p := Parse(c.readAccum + Delivered(recvs));
    ReadsFilterEvidence(c, timeoutNs, now, recvs);
    NothingCounts(c.acked, p.frames, timeoutNs, now);
    NoRtts(now);
  }

  lemma NoRtts(now: Time)
    ensures Rtts([], now) == []
  {}
}
