/** One feed's slot in the monitor (src/feed_monitor.h, src/feed_monitor.cpp): its connection together
    with the reconnect scheduler around it, as functions of one event, tick or command. Proved here, over
    every run of a slot: capped exponential backoff, the retry budget, and that a scheduled reconnect or
    giving up means the connection has failed. */
module Slots {
  import opened Heartbeat
  import opened Stats
  import opened ConnectionModel

  // ---- Backoff ----

  const MAX_DOUBLINGS: nat := 30

  function Pow2(n: nat): (r: nat)
    ensures r >= 1
  {
    if n == 0 then 1 else 2 * Pow2(n - 1)
  }

  function Doubled(base: nat, n: nat): (r: nat) {
    base * Pow2(n)
  }

  /** The delay before jitter: base * 2^min(attempt, 30), capped. */
  function Backoff(base: nat, maxDelay: nat, attempt: nat): (r: nat) {
    Min(Doubled(base, Min(attempt, MAX_DOUBLINGS)), maxDelay)
  }

  lemma {:induction false} Pow2Monotone(a: nat, b: nat)
    requires a <= b
    ensures Pow2(a) <= Pow2(b)
    decreases b
  {
    if a < b {
      Pow2Monotone(a, b - 1);
    }
  }

  lemma DoubledMonotone(base: nat, a: nat, b: nat)
    requires a <= b
    ensures Doubled(base, a) <= Doubled(base, b)
  {
    Pow2Monotone(a, b);
    ScaleMonotone(base, Pow2(a), Pow2(b));
  }

  lemma ScaleMonotone(base: nat, x: nat, y: nat)
    requires x <= y
    ensures base * x <= base * y
  {}

  lemma DoubledStep(base: nat, n: nat)
    ensures Doubled(base, 0) == base
    ensures Doubled(base, n + 1) == 2 * Doubled(base, n)
  {
    assert base * Pow2(n + 1) == 2 * (base * Pow2(n));
  }

  lemma BackoffMonotone(base: nat, maxDelay: nat, a: nat, b: nat)
    requires a <= b
    ensures Backoff(base, maxDelay, a) <= Backoff(base, maxDelay, b) <= maxDelay
  {
    DoubledMonotone(base, Min(a, MAX_DOUBLINGS), Min(b, MAX_DOUBLINGS));
  }

  /** The doubling loop stops early once the cap is reached, never leaves int64 when the cap is at most
      2^62, and still computes the closed form. */
  method BackoffLoop(base: nat, maxDelay: nat, attempt: nat) returns (delay: int64)
    requires base < 0x8000_0000_0000_0000 && maxDelay <= 0x4000_0000_0000_0000
    ensures delay == Backoff(base, maxDelay, attempt)
  {
    hide Doubled;
    var capped := Min(attempt, MAX_DOUBLINGS);
    delay := base;
    var i := 0;
    DoubledStep(base, 0);
    while i < capped && delay < maxDelay
      invariant 0 <= i <= capped
      invariant delay == Doubled(base, i)
    {
      DoubledStep(base, i);
      delay := delay * 2;
      i := i + 1;
    }
    DoubledMonotone(base, i, capped);
    delay := if delay <= maxDelay then delay else maxDelay;
  }

  /** C++ conversion of a double to an integer: toward zero. */
  function Truncate(x: real): (r: int) {
    if x >= 0.0 then x.Floor else -((-x).Floor)
  }

  function Jittered(delay: int, jitter: real): (r: int) {
    Truncate(delay as real * (1.0 + jitter))
  }

  type Jitter = j: real | -0.25 <= j <= 0.25

  lemma Distribute(d: real, a: real, j: real)
    ensures d * (a + j) == a * d + d * j
  {}

  /** Jitter keeps the delay between 3/4 and 5/4 of the backoff, up to truncation. */
  lemma JitterBounds(delay: nat, jitter: Jitter)
    ensures 0 <= Jittered(delay, jitter)
    ensures 0.75 * (delay as real) - 1.0 < Jittered(delay, jitter) as real <= 1.25 * (delay as real)
  {
    var d := delay as real;
    var x := d * (1.0 + jitter);
    Distribute(d, 1.0, jitter);
    Distribute(d, 0.25, jitter);
    Distribute(d, 0.25, -jitter);
    assert d * (-jitter) == -(d * jitter);
    Stats.ProductNonNegative(d, 0.25 + jitter);
    Stats.ProductNonNegative(d, 0.25 + -jitter);
    assert 0.75 * d <= x <= 1.25 * d;
    assert Jittered(delay, jitter) == x.Floor;
    assert x.Floor as real <= x < x.Floor as real + 1.0;
  }

  lemma ProductMonotone(d: nat, j: real, k: real)
    requires j <= k
    ensures d as real * (1.0 + j) <= d as real * (1.0 + k)
  {
    Distribute(d as real, 1.0, j);
    Distribute(d as real, 1.0, k);
    NonNegativeProduct(d as real, k - j);
    Distribute(d as real, k, -j);
  }

  lemma NonNegativeProduct(x: real, y: real)
    requires 0.0 <= x && 0.0 <= y
    ensures 0.0 <= x * y
  {}

  /** The delay follows the jitter: more jitter never means less delay, and the two ends of its range are 3/4 and 5/4 of
      the backoff, truncated. */
  lemma JitterFollows(delay: nat, j: Jitter, k: Jitter)
    requires j <= k
    ensures Jittered(delay, -0.25) == 3 * delay / 4 <= Jittered(delay, j) <= Jittered(delay, k)
         <= Jittered(delay, 0.25) == 5 * delay / 4
  {
    hide Jittered;
    JitterMonotone(delay, -0.25, j);
    JitterMonotone(delay, j, k);
    JitterMonotone(delay, k, 0.25);
    Quarters(delay);
  }

  lemma TruncateMonotone(x: real, y: real)
    requires 0.0 <= x <= y
    ensures Truncate(x) <= Truncate(y)
  {}

  lemma JitterMonotone(delay: nat, j: Jitter, k: Jitter)
    requires j <= k
    ensures Jittered(delay, j) <= Jittered(delay, k)
  {
    ProductMonotone(delay, j, k);
    NonNegativeProduct(delay as real, 1.0 + j);
    TruncateMonotone(delay as real * (1.0 + j), delay as real * (1.0 + k));
  }

  lemma Quarters(delay: nat)
    ensures Jittered(delay, -0.25) == 3 * delay / 4
    ensures Jittered(delay, 0.25) == 5 * delay / 4
  {
    assert delay as real * 0.75 == (3 * delay) as real / 4.0;
    assert delay as real * 1.25 == (5 * delay) as real / 4.0;
    FloorQuarter(3 * delay);
    FloorQuarter(5 * delay);
  }

  lemma FloorQuarter(x: nat)
    ensures (x as real / 4.0).Floor == x / 4
  {
    assert x == 4 * (x / 4) + x % 4;
  }

  // ---- The slot ----

  /** `alerts` counts the failure alerts emitted for the slot and `forced` the effective manual
      reconnects; the source prints the one and performs the other without counting. */
  datatype Slot = Slot(
    conn: Conn,
    reconnectAttempts: nat,
    reconnectReadyAtNs: int,
    giveUp: bool,
    nextPingDueNs: int,
    alerts: nat,
    forced: nat)

  /** What the kernel, the clock and the random generator answer while one slot is served. */
  datatype Answer = Answer(socket: Option<nat>, clock: Time, jitter: Jitter, sends: seq<Send>)

  /** One epoll event on a connection, with what its socket calls will return. */
  datatype SockEvent = SockEvent(hangup: bool, writable: bool, readable: bool, connectOk: bool, recvs: seq<Recv>)

  predicate ConfigOk(cfg: Config) {
    && 0 <= cfg.reconnectBaseDelayNs < 0x8000_0000_0000_0000
    && 0 <= cfg.reconnectMaxDelayNs <= 0x4000_0000_0000_0000
  }

  function NewSlot(fd: int, feedId: uint32, clock: Time): (r: Slot) {
    Slot(NewConn(fd, Initiator, feedId, clock), 0, -1, false, 0, 0, 0)
  }

  function ScheduleReconnect(s: Slot, cfg: Config, now: Time, jitter: Jitter): (r: Slot)
    requires ConfigOk(cfg)
  {
    if cfg.maxReconnectAttempts >= 0 && s.reconnectAttempts >= cfg.maxReconnectAttempts then s.(giveUp := true)
    else
      var delay := Backoff(cfg.reconnectBaseDelayNs, cfg.reconnectMaxDelayNs, s.reconnectAttempts);
      s.(reconnectReadyAtNs := now + Jittered(delay, jitter), reconnectAttempts := s.reconnectAttempts + 1)
  }

  /** `on_connection_failed`, less its index bookkeeping: one alert, then schedule. */
  function FailSlot(s: Slot, cfg: Config, a: Answer): (r: Slot)
    requires ConfigOk(cfg)
  {
    ScheduleReconnect(s.(alerts := s.alerts + 1), cfg, a.clock, a.jitter)
  }

  function EventConn(c: Conn, cfg: Config, ev: SockEvent, now: Time, a: Answer): (r: Conn) {
    var c0 := WithKernel(c, a.clock, a.sends, []);
    if ev.hangup then OnHangupOrError(c0, now)
    else
      var c1 := if ev.writable then OnWritable(c0, now, ev.connectOk) else c0;
      if c1.state != Failed && ev.readable then OnReadable(c1, cfg.heartbeatTimeoutNs, now, ev.recvs) else c1
  }

  function EventSlot(s: Slot, cfg: Config, ev: SockEvent, now: Time, a: Answer): (r: Slot)
    requires ConfigOk(cfg)
  {
    var s1 := s.(conn := EventConn(s.conn, cfg, ev, now, a));
    if s1.conn.state == Failed then FailSlot(s1, cfg, a) else s1
  }

  /** The PING a tick sends when one is due. */
  function PingSlot(s: Slot, cfg: Config, now: Time, a: Answer): (r: Slot) {
    if now < s.nextPingDueNs then s
    else s.(conn := SendPing(WithKernel(s.conn, a.clock, a.sends, []), now),
            nextPingDueNs := now + cfg.heartbeatIntervalNs)
  }

  function CheckSlot(s: Slot, cfg: Config, now: Time, a: Answer): (r: Slot)
    requires ConfigOk(cfg)
  {
    var (c, failedNow) := CheckTimeout(s.conn, cfg, now);
    if failedNow then FailSlot(s.(conn := c), cfg, a) else s.(conn := c)
  }

  predicate ReconnectDue(s: Slot, now: Time) {
    s.conn.state == Failed && !s.giveUp && s.reconnectReadyAtNs >= 0 && now >= s.reconnectReadyAtNs
  }

  /** `initiate_connect` on socket `fd`, or another wait when no socket could be created. */
  function ConnectSlot(s: Slot, cfg: Config, now: Time, a: Answer, fd: int): (r: Slot)
    requires ConfigOk(cfg)
  {
    var s1 := s.(reconnectReadyAtNs := -1);
    if a.socket.None? then ScheduleReconnect(s1, cfg, now, a.jitter)
    else s1.(conn := Rebind(s1.conn, fd, now))
  }

  predicate IsLive(c: Conn) {
    c.state == Healthy || c.state == Degraded
  }

  /** One timer tick on one slot; `fd` is the socket it gets if it reconnects. */
  function TickSlot(s: Slot, cfg: Config, now: Time, a: Answer, fd: int): (r: Slot)
    requires ConfigOk(cfg)
  {
    if IsLive(s.conn) then CheckSlot(PingSlot(s, cfg, now, a), cfg, now, a)
    else if s.conn.state == Connecting || s.conn.state == Handshaking then CheckSlot(s, cfg, now, a)
    else if ReconnectDue(s, now) then ConnectSlot(s, cfg, now, a, fd)
    else s
  }

  /** The tick's own PING is refused: one is due on a live connection, and either its frame crosses the cap, or it is
      the only one and the kernel will not take it. */
  predicate PingFails(s: Slot, cfg: Config, now: Time, a: Answer) {
    IsLive(s.conn) && now >= s.nextPingDueNs && Refused(s.conn.writePending, a.sends)
  }

  /** That is exactly when the tick's own PING fails the connection, which `check_timeout` then does not report. */
  lemma PingFailsExactly(s: Slot, cfg: Config, now: Time, a: Answer)
    requires s.conn.role == Initiator && IsLive(s.conn)
    ensures PingFails(s, cfg, now, a) <==> PingSlot(s, cfg, now, a).conn.state == Failed
  {
    hide QueueWrite;
    hide Refused;
    hide Encode;
    hide Sealed;
    var k := WithKernel(s.conn, a.clock, a.sends, []);
    QueueWriteFails(k.(nextSequence := NextSequence(k.nextSequence)), Message(PING, k.feedId, k.nextSequence, now));
  }

  function ForceDisconnectSlot(s: Slot, cfg: Config, a: Answer): (r: Slot)
    requires ConfigOk(cfg)
  {
    if s.conn.state == Failed then s else FailSlot(s.(conn := OnHangupOrError(s.conn, a.clock)), cfg, a)
  }

  function ForceReconnectSlot(s: Slot): (r: Slot) {
    if s.conn.state != Failed then s
    else s.(giveUp := false, reconnectAttempts := 0, reconnectReadyAtNs := 0, forced := s.forced + 1)
  }

  function BaselineSlot(s: Slot, now: Time): (r: Slot) {
    s.(conn := ResetLivenessBaseline(s.conn, now))
  }

  // ---- What operations on the connection keep ----

  predicate SameIdentity(c: Conn, r: Conn) {
    r.fd == c.fd && r.feedId == c.feedId && r.role == c.role && r.stats.reconnects == c.stats.reconnects
  }

  lemma MessageIdentity(c: Conn, timeoutNs: int, m: HeartbeatMessage, now: Time)
    ensures SameIdentity(c, HandleMessage(c, timeoutNs, m, now))
  {
    hide QueueWrite;
    hide Encode;
    hide Sealed;
    hide Message;
    hide Remember;
    var c1 := c.(lastLivenessNs := now);
    var c2 := if c1.io.verdicts == [] then c1 else c1.(io := c1.io.(verdicts := c1.io.verdicts[1..]));
    QueueWriteFrames(c, Message(CONNECT_ACK, c.feedId, 0, now));
    QueueWriteFrames(c2, Message(PONG, c.feedId, m.sequence, m.timestampNs));
  }

  lemma {:induction false} DrainIdentity(c: Conn, timeoutNs: int, now: Time)
    ensures SameIdentity(c, Drain(c, timeoutNs, now))
    decreases |c.readAccum|
  {
    hide Decode;
    hide HandleMessage;
    if |c.readAccum| >= MESSAGE_SIZE && Decode(c.readAccum[..MESSAGE_SIZE]).Some? {
      var m := Decode(c.readAccum[..MESSAGE_SIZE]).value;
      var c1 := HandleMessage(TakeFrame(c, m), timeoutNs, m, now);
      MessageIdentity(TakeFrame(c, m), timeoutNs, m, now);
      HandlersLeaveInput(TakeFrame(c, m), timeoutNs, m, now);
      if c1.state != Failed {
        DrainIdentity(c1, timeoutNs, now);
      }
    }
  }

  lemma WritableIdentity(c: Conn, now: Time, ok: bool)
    ensures SameIdentity(c, OnWritable(c, now, ok))
    ensures c.state == Failed ==> OnWritable(c, now, ok).state == Failed
  {
    hide QueueWrite;
    hide Flush;
    hide Encode;
    hide Sealed;
  }

  lemma ReadableIdentity(c: Conn, timeoutNs: int, now: Time, recvs: seq<Recv>)
    ensures SameIdentity(c, OnReadable(c, timeoutNs, now, recvs))
  {
    hide Drain;
    hide Receive;
    DrainIdentity(c.(readAccum := Receive(c.readAccum, recvs).0), timeoutNs, now);
  }

  lemma EventIdentity(c: Conn, cfg: Config, ev: SockEvent, now: Time, a: Answer)
    ensures SameIdentity(c, EventConn(c, cfg, ev, now, a))
    ensures c.state == Failed ==> EventConn(c, cfg, ev, now, a).state == Failed
  {
    hide OnReadable;
    hide OnWritable;
    var c0 := WithKernel(c, a.clock, a.sends, []);
    WritableIdentity(c0, now, ev.connectOk);
    ReadableIdentity(c0, cfg.heartbeatTimeoutNs, now, ev.recvs);
    ReadableIdentity(OnWritable(c0, now, ev.connectOk), cfg.heartbeatTimeoutNs, now, ev.recvs);
  }

  lemma PingIdentity(s: Slot, cfg: Config, now: Time, a: Answer)
    ensures
      var r := PingSlot(s, cfg, now, a);
      && SameIdentity(s.conn, r.conn)
      && (r.conn.state == s.conn.state || r.conn.state == Failed)
      && r == s.(conn := r.conn, nextPingDueNs := r.nextPingDueNs)
  {
    hide QueueWrite;
    hide Encode;
    hide Sealed;
    hide Message;
    var c := WithKernel(s.conn, a.clock, a.sends, []);
    QueueWriteFrames(c.(nextSequence := NextSequence(c.nextSequence)), Message(PING, c.feedId, c.nextSequence, now));
  }

  lemma CheckIdentity(c: Conn, cfg: Config, now: Time)
    ensures
      var (r, failedNow) := CheckTimeout(c, cfg, now);
      && SameIdentity(c, r)
      && (failedNow <==> c.state != Failed && r.state == Failed)
      && r.writePending == c.writePending
      && (r.state == Connecting <==> c.state == Connecting && !failedNow)
  {}

  // ---- Invariants of one slot ----

  predicate Pending(s: Slot) {
    s.reconnectReadyAtNs >= 0
  }

  /** A scheduled reconnect or giving up means the connection has failed, and they exclude each other. */
  predicate PendingMeansFailed(s: Slot) {
    && (Pending(s) || s.giveUp ==> s.conn.state == Failed)
    && !(Pending(s) && s.giveUp)
  }

  /** Reconnects done and scheduled are paid for by attempts and by manual reconnects. */
  predicate WithinBudget(s: Slot, m: int) {
    m >= 0 ==>
      && s.reconnectAttempts <= m
      && s.conn.stats.reconnects + (if Pending(s) then 1 else 0) <= s.reconnectAttempts + s.forced * (m + 1)
  }

  /** Everything that holds of a slot; `stuck` marks one that failed inside a tick's PING and has not
      been noticed yet. */
  predicate SlotOk(s: Slot, stuck: bool, cfg: Config) {
    && s.conn.role == Initiator && s.conn.fd >= 0
    && PendingMeansFailed(s)
    && WithinBudget(s, cfg.maxReconnectAttempts)
    && (stuck ==> s.conn.state == Failed && !Pending(s) && !s.giveUp)
    && (s.conn.state == Failed && !stuck ==> Pending(s) || s.giveUp)
    && s.alerts == s.conn.stats.reconnects + (if s.conn.state == Failed && !stuck then 1 else 0)
  }

  lemma NewSlotOk(fd: nat, feedId: uint32, clock: Time, cfg: Config)
    ensures SlotOk(NewSlot(fd, feedId, clock), false, cfg)
  {}

  /** Scheduling keeps the budget and ends in a pending reconnect or in giving up. */
  lemma ScheduleKeeps(s: Slot, cfg: Config, now: Time, jitter: Jitter)
    requires ConfigOk(cfg) && WithinBudget(s, cfg.maxReconnectAttempts)
    requires s.conn.state == Failed && !Pending(s) && !s.giveUp
    ensures
      var r := ScheduleReconnect(s, cfg, now, jitter);
      && r.conn == s.conn && r.alerts == s.alerts && r.forced == s.forced
      && PendingMeansFailed(r) && (Pending(r) || r.giveUp)
      && WithinBudget(r, cfg.maxReconnectAttempts)
  {
    hide Backoff;
    hide Jittered;
    JitterBounds(Backoff(cfg.reconnectBaseDelayNs, cfg.reconnectMaxDelayNs, s.reconnectAttempts), jitter);
  }

  /** A slot whose connection has just failed, or was stuck, becomes a handled failure. */
  lemma FailKeeps(s: Slot, cfg: Config, a: Answer)
    requires ConfigOk(cfg) && SlotOk(s.(conn := s.conn.(state := Failed)), true, cfg) && s.conn.state == Failed
    ensures SlotOk(FailSlot(s, cfg, a), false, cfg) && FailSlot(s, cfg, a).conn == s.conn
  {
    hide ScheduleReconnect;
    ScheduleKeeps(s.(alerts := s.alerts + 1), cfg, a.clock, a.jitter);
  }

  lemma EventKeeps(s: Slot, stuck: bool, cfg: Config, ev: SockEvent, now: Time, a: Answer)
    requires ConfigOk(cfg) && SlotOk(s, stuck, cfg) && (s.conn.state == Failed ==> stuck)
    ensures
      var r := EventSlot(s, cfg, ev, now, a);
      SlotOk(r, false, cfg) && SameIdentity(s.conn, r.conn)
  {
    hide EventConn;
    hide FailSlot;
    EventIdentity(s.conn, cfg, ev, now, a);
    var s1 := s.(conn := EventConn(s.conn, cfg, ev, now, a));
    if s1.conn.state == Failed {
      FailKeeps(s1, cfg, a);
    }
  }

  lemma CheckKeeps(s: Slot, cfg: Config, now: Time, a: Answer)
    requires ConfigOk(cfg) && SlotOk(s, false, cfg) && s.conn.state != Failed
    ensures
      var r := CheckSlot(s, cfg, now, a);
      && SlotOk(r, false, cfg) && SameIdentity(s.conn, r.conn)
      && (r.conn.state != Failed ==> (WantsWrite(r.conn) <==> WantsWrite(s.conn)))
  {
    hide CheckTimeout;
    hide FailSlot;
    CheckIdentity(s.conn, cfg, now);
    var (c, failedNow) := CheckTimeout(s.conn, cfg, now);
    if failedNow {
      FailKeeps(s.(conn := c), cfg, a);
    }
  }

  /** A tick on a live slot: handled as usual, or left stuck exactly when its own PING failed it. */
  lemma LiveTickKeeps(s: Slot, cfg: Config, now: Time, a: Answer, fd: int)
    requires ConfigOk(cfg) && SlotOk(s, false, cfg) && IsLive(s.conn)
    ensures
      var r := TickSlot(s, cfg, now, a, fd);
      && SlotOk(r, PingFails(s, cfg, now, a), cfg) && SameIdentity(s.conn, r.conn)
      && (PingFails(s, cfg, now, a) ==> r == PingSlot(s, cfg, now, a))
      && (r.conn.state != Failed ==> (WantsWrite(r.conn) <==> WantsWrite(PingSlot(s, cfg, now, a).conn)))
  {
    hide PingSlot;
    hide FailSlot;
    hide Refused;
    PingIdentity(s, cfg, now, a);
    PingFailsExactly(s, cfg, now, a);
    var p := PingSlot(s, cfg, now, a);
    if p.conn.state == Failed {
      CheckIdentity(p.conn, cfg, now);
      FailedCheck(p.conn, cfg, now);
    } else {
      hide CheckSlot;
      CheckKeeps(p, cfg, now, a);
    }
  }

  lemma FailedCheck(c: Conn, cfg: Config, now: Time)
    requires c.state == Failed
    ensures CheckTimeout(c, cfg, now) == (c, false)
  {}

  lemma ConnectKeeps(s: Slot, cfg: Config, now: Time, a: Answer, fd: nat)
    requires ConfigOk(cfg) && SlotOk(s, false, cfg) && ReconnectDue(s, now)
    ensures
      var r := ConnectSlot(s, cfg, now, a, fd);
      && SlotOk(r, false, cfg) && r.conn.feedId == s.conn.feedId
      && (if a.socket.None? then r.conn == s.conn else r.conn.fd == fd && r.conn.state == Connecting)
  {
    hide ScheduleReconnect;
    ScheduleKeeps(s.(reconnectReadyAtNs := -1), cfg, now, a.jitter);
  }

  lemma CommandsKeep(s: Slot, stuck: bool, cfg: Config, now: Time, a: Answer)
    requires ConfigOk(cfg) && SlotOk(s, stuck, cfg)
    ensures
      var d := ForceDisconnectSlot(s, cfg, a);
      && SlotOk(d, stuck, cfg) && SameIdentity(s.conn, d.conn)
    ensures !stuck ==> SlotOk(ForceReconnectSlot(s), false, cfg)
    ensures SlotOk(BaselineSlot(s, now), stuck, cfg)
  {
    hide FailSlot;
    if s.conn.state != Failed {
      FailKeeps(s.(conn := OnHangupOrError(s.conn, a.clock)), cfg, a);
    }
    BudgetReset(s.reconnectAttempts, s.forced, cfg.maxReconnectAttempts);
  }

  lemma BudgetReset(attempts: nat, forced: nat, m: int)
    requires m >= 0 ==> attempts <= m
    ensures m >= 0 ==> attempts + forced * (m + 1) + 1 <= (forced + 1) * (m + 1)
  {}

  // ---- Every run of one slot ----

  datatype SlotEvent =
    | Sock(ev: SockEvent, now: Time, a: Answer)
    | TimerTick(now: Time, a: Answer, fd: nat)
    | ForceDisconnect(a: Answer)
    | ForceReconnect
    | Baseline(now: Time)

  function SlotStep(s: Slot, cfg: Config, e: SlotEvent): (r: Slot)
    requires ConfigOk(cfg)
  {
    match e
    case Sock(ev, now, a) => EventSlot(s, cfg, ev, now, a)
    case TimerTick(now, a, fd) => TickSlot(s, cfg, now, a, fd)
    case ForceDisconnect(a) => ForceDisconnectSlot(s, cfg, a)
    case ForceReconnect => ForceReconnectSlot(s)
    case Baseline(now) => BaselineSlot(s, now)
  }

  /** One event, under the configuration in force when it happens. */
  datatype Turn = Turn(cfg: Config, event: SlotEvent)

  /** The configuration may change between events, except for the retry limit. */
  predicate Turns(turns: seq<Turn>, m: int) {
    forall i :: 0 <= i < |turns| ==> ConfigOk(turns[i].cfg) && turns[i].cfg.maxReconnectAttempts == m
  }

  function SlotRun(s: Slot, m: int, turns: seq<Turn>): (r: Slot)
    requires Turns(turns, m)
    decreases |turns|
  {
    if turns == [] then s
    else
      var last := turns[|turns| - 1];
      SlotStep(SlotRun(s, m, turns[..|turns| - 1]), last.cfg, last.event)
  }

  /** What survives even events delivered to the wrong slot and failures nobody noticed. */
  predicate Robust(s: Slot, m: int) {
    && (Pending(s) || s.giveUp ==> s.conn.state == Failed)
    && WithinBudget(s, m)
  }

  lemma ScheduleRobust(s: Slot, cfg: Config, now: Time, jitter: Jitter)
    requires ConfigOk(cfg) && WithinBudget(s, cfg.maxReconnectAttempts) && s.conn.state == Failed
    ensures Robust(ScheduleReconnect(s, cfg, now, jitter), cfg.maxReconnectAttempts)
    ensures ScheduleReconnect(s, cfg, now, jitter).forced == s.forced
  {
    hide Backoff;
    hide Jittered;
  }

  lemma TickRobust(s: Slot, cfg: Config, now: Time, a: Answer, fd: int)
    requires ConfigOk(cfg) && Robust(s, cfg.maxReconnectAttempts)
    ensures Robust(TickSlot(s, cfg, now, a, fd), cfg.maxReconnectAttempts)
    ensures TickSlot(s, cfg, now, a, fd).forced == s.forced
  {
    hide PingSlot;
    hide ScheduleReconnect;
    hide CheckTimeout;
    PingIdentity(s, cfg, now, a);
    var p := if IsLive(s.conn) then PingSlot(s, cfg, now, a) else s;
    CheckIdentity(p.conn, cfg, now);
    var c := CheckTimeout(p.conn, cfg, now).0;
    if c.state == Failed {
      ScheduleRobust(p.(conn := c, alerts := p.alerts + 1), cfg, a.clock, a.jitter);
    }
    if s.conn.state == Failed {
      ScheduleRobust(s.(reconnectReadyAtNs := -1), cfg, now, a.jitter);
    }
  }

  lemma StepRobust(s: Slot, cfg: Config, e: SlotEvent)
    requires ConfigOk(cfg) && Robust(s, cfg.maxReconnectAttempts)
    ensures Robust(SlotStep(s, cfg, e), cfg.maxReconnectAttempts)
    ensures SlotStep(s, cfg, e).forced ==
            s.forced + if e.ForceReconnect? && s.conn.state == Failed then 1 else 0
  {
    hide EventConn;
    hide TickSlot;
    hide ScheduleReconnect;
    match e {
      case Sock(ev, now, a) =>
        EventIdentity(s.conn, cfg, ev, now, a);
        var s1 := s.(conn := EventConn(s.conn, cfg, ev, now, a));
        if s1.conn.state == Failed {
          ScheduleRobust(s1.(alerts := s1.alerts + 1), cfg, a.clock, a.jitter);
        }
      case TimerTick(now, a, fd) => TickRobust(s, cfg, now, a, fd);
      case ForceDisconnect(a) =>
        if s.conn.state != Failed {
          ScheduleRobust(s.(conn := OnHangupOrError(s.conn, a.clock), alerts := s.alerts + 1), cfg, a.clock, a.jitter);
        }
      case ForceReconnect => BudgetReset(s.reconnectAttempts, s.forced, cfg.maxReconnectAttempts);
      case Baseline(now) =>
    }
  }

  lemma {:induction false} RunRobust(fd: nat, feedId: uint32, clock: Time, m: int, turns: seq<Turn>)
    requires Turns(turns, m)
    ensures Robust(SlotRun(NewSlot(fd, feedId, clock), m, turns), m)
    decreases |turns|
  {
    hide SlotStep;
    if turns != [] {
      var front, last := turns[..|turns| - 1], turns[|turns| - 1];
      RunRobust(fd, feedId, clock, m, front);
      StepRobust(SlotRun(NewSlot(fd, feedId, clock), m, front), last.cfg, last.event);
    }
  }

  /** The effective manual reconnects of a run: those that found the connection failed. */
  function Effective(s: Slot, m: int, turns: seq<Turn>): (r: nat)
    requires Turns(turns, m)
    decreases |turns|
  {
    if turns == [] then 0
    else
      var front := turns[..|turns| - 1];
      Effective(s, m, front)
      + if turns[|turns| - 1].event.ForceReconnect? && SlotRun(s, m, front).conn.state == Failed then 1 else 0
  }

  lemma {:induction false} RunForced(fd: nat, feedId: uint32, clock: Time, m: int, turns: seq<Turn>)
    requires Turns(turns, m)
    ensures SlotRun(NewSlot(fd, feedId, clock), m, turns).forced == Effective(NewSlot(fd, feedId, clock), m, turns)
    decreases |turns|
  {
    hide SlotStep;
    if turns != [] {
      var front, last := turns[..|turns| - 1], turns[|turns| - 1];
      RunForced(fd, feedId, clock, m, front);
      RunRobust(fd, feedId, clock, m, front);
      StepRobust(SlotRun(NewSlot(fd, feedId, clock), m, front), last.cfg, last.event);
    }
  }

  /** Retry budget. With max_reconnect_attempts = m >= 0, a run with k effective manual reconnects
      rebinds the connection at most (k + 1) * m + k times; and on every run, budget or not, a pending
      reconnect time or having given up implies the connection has failed. */
  lemma RetryBudget(fd: nat, feedId: uint32, clock: Time, m: int, turns: seq<Turn>)
    requires Turns(turns, m)
    ensures
      var s := SlotRun(NewSlot(fd, feedId, clock), m, turns);
      var k := Effective(NewSlot(fd, feedId, clock), m, turns);
      && (m >= 0 ==> s.conn.stats.reconnects <= (k + 1) * m + k)
      && (Pending(s) || s.giveUp ==> s.conn.state == Failed)
  {
    hide SlotRun;
    hide Effective;
    hide NewSlot;
    RunRobust(fd, feedId, clock, m, turns);
    RunForced(fd, feedId, clock, m, turns);
    BudgetSum(Effective(NewSlot(fd, feedId, clock), m, turns), m);
  }

  lemma BudgetSum(k: nat, m: int)
    ensures (k + 1) * m + k == m + k * (m + 1)
  {}
}
