/**
 * The teleoperation controller (pkg/teleop/teleop.go): each control step reads
 * the leader arm, optionally mirrors the positions, writes them to the follower
 * and publishes a State. The Go channels become sequential state: the one-slot
 * state channel is an Option and the ten-slot log channel a bounded sequence.
 * Bus calls, the clock and context cancellation are inputs.
 */
module Teleop {
  import opened Wrappers
  import opened Motors
  import opened Calibrations
  import opened Arms

  /** Normalized joint positions keyed by motor name. */
  type Positions = map<MotorName, real>

  /** Control frequency used when the configured one is not positive. */
  const DefaultHz: int := 60

  /** Capacity of the log channel; a message that finds it full is dropped. */
  const LogCapacity: nat := 10

  /**
   * A published state. `positions` is None where Go leaves the map nil (on a read
   * error); `timestamp` is an opaque clock reading.
   */
  datatype State = State(positions: Option<Positions>, timestamp: int, error: Option<string>)

  /** A log message with the clock reading it is stamped with (shown as "[15:04:05] text"). */
  datatype LogLine = LogLine(at: int, text: string)

  /** The inputs of one ticker tick: the clock, the leader's bus read and the follower's bus write. */
  datatype Tick = Tick(at: int, read: Result<map<int, int>>, write: Outcome)

  /** The frequency the controller runs at. */
  function EffectiveHz(hz: int): (r: int)
    ensures r > 0
    ensures hz > 0 ==> r == hz
    ensures hz <= 0 ==> r == DefaultHz
  {
    if hz <= 0 then DefaultHz else hz
  }

  /** Nanoseconds in a second: `time.Second`. */
  const NanosPerSecond: int := 1_000_000_000

  /** What `time.NewTicker` panics with when given an interval that is not positive. */
  const TickerPanic := "non-positive interval for NewTicker"

  /** The ticker interval in nanoseconds, `time.Second / time.Duration(hz)`, which truncates. */
  function TickInterval(hz: int): (d: int)
    requires hz > 0
    ensures 0 <= d && d * hz <= NanosPerSecond < (d + 1) * hz
    ensures d == 0 <==> hz > NanosPerSecond
  {
    NanosPerSecond / hz
  }

  /** The default rate ticks every 16666666 ns; any rate up to 10^9 Hz gives a usable ticker. */
  lemma TickIntervalExamples(hz: int)
    requires 0 < hz <= NanosPerSecond
    ensures TickInterval(DefaultHz) == 16_666_666
    ensures TickInterval(EffectiveHz(hz)) > 0
    ensures TickInterval(EffectiveHz(NanosPerSecond + 1)) == 0
  {
  }

  // ---------------------------------------------------------------------------
  // Mirroring

  /** A joint whose sign is inverted when mirroring (servos 1 and 5). */
  predicate IsMirroredJoint(name: MotorName) {
    name == ShoulderPan || name == WristRoll
  }

  /** The mirrored value of one entry. */
  function MirrorValue(name: MotorName, pos: real): real {
    if IsMirroredJoint(name) then -pos else pos
  }

  /** The mirrored positions: the same motors, with shoulder_pan and wrist_roll negated. */
  function Mirrored(p: Positions): (m: Positions)
    ensures m.Keys == p.Keys
  {
    map n | n in p :: MirrorValue(n, p[n])
  }

  /** The positions the follower is commanded to. */
  function FollowerTargets(mirror: bool, p: Positions): Positions {
    if mirror then Mirrored(p) else p
  }

  /** Mirroring twice gives back the original positions. */
  lemma MirroredInvolution(p: Positions)
    ensures Mirrored(Mirrored(p)) == p
  {
    var m := Mirrored(p);
    assert forall n :: n in p ==> Mirrored(m)[n] == p[n];
  }

  /**
   * Mirroring negates exactly shoulder_pan and wrist_roll, copies every other
   * entry, and keeps the key set.
   */
  lemma MirroredEntries(p: Positions)
    ensures Mirrored(p).Keys == p.Keys
    ensures ShoulderPan in p ==> Mirrored(p)[ShoulderPan] == -p[ShoulderPan]
    ensures WristRoll in p ==> Mirrored(p)[WristRoll] == -p[WristRoll]
    ensures forall n :: n in p && !IsMirroredJoint(n) ==> Mirrored(p)[n] == p[n]
    ensures forall n :: n in p && Mirrored(p)[n] != p[n] ==> IsMirroredJoint(n) && p[n] != 0.0
  {
  }

  /** With mirroring off, the follower targets are the leader positions. */
  lemma UnmirroredTargets(p: Positions)
    ensures FollowerTargets(false, p) == p
    ensures FollowerTargets(true, p).Keys == p.Keys
  {
  }

  lemma MirroredExample()
    ensures Mirrored(map[ShoulderPan := 10.0, ElbowFlex := 5.0, WristRoll := -3.0])
         == map[ShoulderPan := -10.0, ElbowFlex := 5.0, WristRoll := 3.0]
  {
    var p := map[ShoulderPan := 10.0, ElbowFlex := 5.0, WristRoll := -3.0];
    var q := map[ShoulderPan := -10.0, ElbowFlex := 5.0, WristRoll := 3.0];
    assert Mirrored(p).Keys == q.Keys;
    assert ElbowFlex != ShoulderPan && ElbowFlex != WristRoll;
  }

  /** The mirroring loop of `step`: fills a new map entry by entry, in any order. */
  method MirrorPositions(positions: Positions) returns (m: Positions)
    ensures m == Mirrored(positions)
  {
    m := map[];
    var remaining := positions.Keys;
    while remaining != {}
      invariant remaining <= positions.Keys
      invariant m.Keys == positions.Keys - remaining
      invariant forall n :: n in m ==> m[n] == MirrorValue(n, positions[n])
      decreases remaining
    {
      var name :| name in remaining;
      if name == ShoulderPan || name == WristRoll {
        m := m[name := -positions[name]];
      } else {
        m := m[name := positions[name]];
      }
      remaining := remaining - {name};
    }
  }

  // ---------------------------------------------------------------------------
  // The log channel and error texts

  /** Non-blocking send on the log channel: appended when there is room, dropped otherwise. */
  function Enqueue(queue: seq<LogLine>, line: LogLine): seq<LogLine> {
    if |queue| < LogCapacity then queue + [line] else queue
  }

  /** The queue never exceeds its capacity, and queued messages are never lost or reordered. */
  lemma EnqueueBounded(queue: seq<LogLine>, line: LogLine)
    requires |queue| <= LogCapacity
    ensures |Enqueue(queue, line)| <= LogCapacity
    ensures queue <= Enqueue(queue, line)
  {
  }

  /** A message is dropped exactly when the queue is full; otherwise it becomes the last one. */
  lemma EnqueueDropsOnlyWhenFull(queue: seq<LogLine>, line: LogLine)
    ensures Enqueue(queue, line) == queue <==> |queue| >= LogCapacity
    ensures |queue| < LogCapacity ==> Enqueue(queue, line)[|queue|] == line
  {
    if |queue| < LogCapacity {
      assert |Enqueue(queue, line)| == |queue| + 1;
    }
  }

  /**
   * Decimal digits of a natural number, as `%d` prints it: the digits spell n,
   * with no leading zero.
   */
  function Decimal(n: nat): (s: string)
    ensures |s| >= 1 && forall i :: 0 <= i < |s| ==> '0' <= s[i] <= '9'
    ensures DigitsValue(s) == n
    ensures n > 0 ==> s[0] != '0'
    ensures n < 10 <==> |s| == 1
    decreases n
  {
    if n < 10 then [Digit(n)]
    else
      var s := Decimal(n / 10) + [Digit(n % 10)];
      assert s[..|s| - 1] == Decimal(n / 10);
      s
  }

  function Digit(d: nat): (c: char)
    requires d < 10
    ensures '0' <= c <= '9' && c as int - '0' as int == d
  {
    ('0' as int + d) as char
  }

  /** The number a string of decimal digits spells, most significant digit first. */
  function DigitsValue(s: string): int
    decreases |s|
  {
    if s == [] then 0 else 10 * DigitsValue(s[..|s| - 1]) + (s[|s| - 1] as int - '0' as int)
  }

  lemma DecimalExample()
    ensures Decimal(60) == "60"
  {
  }

  /** The messages of the outcomes that failed, in order. */
  function Failures(outcomes: seq<Outcome>): (errs: seq<string>)
    ensures |errs| <= |outcomes|
    ensures |errs| == 0 <==> forall i :: 0 <= i < |outcomes| ==> outcomes[i].Pass?
  {
    if outcomes == [] then []
    else (if outcomes[0].Fail? then [outcomes[0].error] else []) + Failures(outcomes[1..])
  }

  /** `%v` of an error slice: the messages separated by spaces, in brackets. */
  function Bracketed(errs: seq<string>): string {
    "[" + JoinSpaced(errs) + "]"
  }

  function JoinSpaced(errs: seq<string>): string {
    if errs == [] then "" else if |errs| == 1 then errs[0] else errs[0] + " " + JoinSpaced(errs[1..])
  }

  /** The start-up log line for disabling the leader's torque. */
  function LeaderTorqueMessage(disable: Outcome): string {
    if disable.Fail? then "Warning: failed to disable leader: " + disable.error
    else "Leader arm: torque disabled (passive mode)"
  }

  /** The start-up log line for enabling the follower's torque. */
  function FollowerTorqueMessage(enable: Outcome): string {
    if enable.Fail? then "Warning: failed to enable follower: " + enable.error
    else "Follower arm: torque enabled"
  }

  /** The shutdown log line for disabling the follower's torque. */
  function StopTorqueMessage(disable: Outcome): string {
    if disable.Fail? then "Warning: failed to disable follower: " + disable.error
    else "Follower arm: torque disabled"
  }

  /** The log queue after the start-up lines of `Start`: the leader's and follower's torque, then the rate. */
  function StartLines(queue: seq<LogLine>, at: int, leaderDisable: Outcome, followerEnable: Outcome, hz: nat): seq<LogLine> {
    Enqueue(Enqueue(Enqueue(queue,
      LogLine(at, LeaderTorqueMessage(leaderDisable))),
      LogLine(at, FollowerTorqueMessage(followerEnable))),
      LogLine(at, "Teleoperation started at " + Decimal(hz) + " Hz"))
  }

  /** The log queue after the two lines of `shutdown`. */
  function StopLines(queue: seq<LogLine>, at: int, followerDisable: Outcome): seq<LogLine> {
    Enqueue(Enqueue(queue, LogLine(at, StopTorqueMessage(followerDisable))), LogLine(at, "Teleoperation stopped"))
  }

  /** What one step adds to the log: its read error, else its write error, else nothing. */
  function StepLines(queue: seq<LogLine>, tick: Tick): seq<LogLine> {
    if tick.read.Err? then Enqueue(queue, LogLine(tick.at, "Read error: " + ("read positions: " + tick.read.error)))
    else if tick.write.Fail? then Enqueue(queue, LogLine(tick.at, "Write error: " + ("write positions: " + tick.write.error)))
    else queue
  }

  /** The log queue after one step per tick, in order. */
  function StepsLines(queue: seq<LogLine>, ticks: seq<Tick>): seq<LogLine>
    decreases |ticks|
  {
    if ticks == [] then queue else StepLines(StepsLines(queue, ticks[..|ticks| - 1]), ticks[|ticks| - 1])
  }

  /** One more tick adds that step's line to the queue of the ticks before it. */
  lemma StepsLinesStep(queue: seq<LogLine>, ticks: seq<Tick>, k: nat)
    requires k < |ticks|
    ensures StepsLines(queue, ticks[..k + 1]) == StepLines(StepsLines(queue, ticks[..k]), ticks[k])
  {
    assert ticks[..k + 1][..k] == ticks[..k];
  }

  /**
   * The steps of the control loop keep the queue within capacity and lose no line
   * already queued; once the queue is full every step's line is dropped, and
   * steps that read and write without error log nothing.
   */
  lemma {:induction false} StepsLinesBounded(queue: seq<LogLine>, ticks: seq<Tick>)
    requires |queue| <= LogCapacity
    ensures |StepsLines(queue, ticks)| <= LogCapacity
    ensures queue <= StepsLines(queue, ticks)
    ensures |queue| == LogCapacity ==> StepsLines(queue, ticks) == queue
    ensures (forall i :: 0 <= i < |ticks| ==> ticks[i].read.Ok? && ticks[i].write.Pass?) ==>
      StepsLines(queue, ticks) == queue
    decreases |ticks|
  {
    if ticks != [] {
      var init, last := ticks[..|ticks| - 1], ticks[|ticks| - 1];
      StepsLinesBounded(queue, init);
      var q := StepsLines(queue, init);
      EnqueueBounded(q, LogLine(last.at, "Read error: " + ("read positions: " + if last.read.Err? then last.read.error else "")));
      EnqueueBounded(q, LogLine(last.at, "Write error: " + ("write positions: " + if last.write.Fail? then last.write.error else "")));
      if forall i :: 0 <= i < |ticks| ==> ticks[i].read.Ok? && ticks[i].write.Pass? {
        assert forall i :: 0 <= i < |init| ==> init[i] == ticks[i];
      }
    }
  }

  /**
   * The state a step publishes for its tick: on a read error no positions and
   * the wrapped error, otherwise a reading of the leader with no error.
   */
  ghost predicate Published(slot: Option<State>, leaderCal: Calibration, tick: Tick) {
    match tick.read
    case Err(e) => slot == Some(State(None, tick.at, Some("read positions: " + e)))
    case Ok(raw) =>
      && slot.Some? && slot.value.positions.Some?
      && slot.value.timestamp == tick.at && slot.value.error == None
      && IsReading(leaderCal, raw, slot.value.positions.value)
  }

  // ---------------------------------------------------------------------------
  // Per-step outcomes

  /**
   * What one step wrote to the follower for a given leader read: nothing on a read
   * error, otherwise a command for the (possibly mirrored) targets of some reading.
   */
  ghost predicate Served(leaderCal: Calibration, followerCal: Calibration, mirror: bool,
                         read: Result<map<int, int>>, written: Option<map<int, int>>)
  {
    match read
    case Err(_) => written.None?
    case Ok(raw) =>
      && written.Some?
      && exists p :: IsReading(leaderCal, raw, p) && IsCommand(followerCal, FollowerTargets(mirror, p), written.value)
  }

  /**
   * End to end, with unique servo IDs on both arms: the follower servo of every
   * motor that both arms calibrate and the leader sampled receives the leader's
   * normalized sample, mirrored if asked, denormalized with the follower's calibration.
   */
  lemma ServedEndToEnd(leaderCal: Calibration, followerCal: Calibration, mirror: bool,
                       raw: map<int, int>, written: Option<map<int, int>>, n: MotorName)
    requires UniqueIDs(leaderCal) && UniqueIDs(followerCal)
    requires Served(leaderCal, followerCal, mirror, Ok(raw), written)
    requires n in leaderCal && leaderCal[n].id in raw && n in followerCal
    ensures written.Some? && followerCal[n].id in written.value
    ensures var norm := Normalize(leaderCal[n], raw[leaderCal[n].id]);
      written.value[followerCal[n].id] == Denormalize(followerCal[n], if mirror then MirrorValue(n, norm) else norm)
  {
    var p :| IsReading(leaderCal, raw, p) && IsCommand(followerCal, FollowerTargets(mirror, p), written.value);
    ReadingIsDetermined(leaderCal, raw, p);
    assert n in p;
    CommandIsDetermined(followerCal, FollowerTargets(mirror, p), written.value);
  }

  // ---------------------------------------------------------------------------
  // The controller

  class Controller {
    const leader: Arm
    const follower: Arm
    const hz: int
    const mirror: bool

    var running: bool
    /** The state channel of capacity 1. */
    var stateSlot: Option<State>
    /** The log channel of capacity 10, oldest message first. */
    var logQueue: seq<LogLine>

    ghost predicate Valid()
      reads this
    {
      hz > 0 && |logQueue| <= LogCapacity
    }

    constructor Make(leader: Arm, follower: Arm, hz: int, mirror: bool)
      requires hz > 0
      ensures Valid()
      ensures this.leader == leader && this.follower == follower && this.hz == hz && this.mirror == mirror
      ensures !running && stateSlot == None && logQueue == []
    {
      this.leader := leader;
      this.follower := follower;
      this.hz := hz;
      this.mirror := mirror;
      running := false;
      stateSlot := None;
      logQueue := [];
    }

    /** `log`: never blocks; the message is queued if there is room and dropped otherwise. */
    method Log(at: int, text: string)
      requires Valid()
      modifies this
      ensures Valid()
      ensures logQueue == Enqueue(old(logQueue), LogLine(at, text))
      ensures running == old(running) && stateSlot == old(stateSlot)
    {
      EnqueueBounded(logQueue, LogLine(at, text));
      if |logQueue| < LogCapacity {
        logQueue := logQueue + [LogLine(at, text)];
      }
    }

    /** `sendState`: the slot ends up holding exactly `s`; an unread older state is discarded. */
    method SendState(s: State)
      modifies this
      ensures stateSlot == Some(s)
      ensures running == old(running) && logQueue == old(logQueue)
    {
      if stateSlot.None? {
        stateSlot := Some(s);
      } else {
        stateSlot := None;
        stateSlot := Some(s);
      }
    }

    /** A non-blocking receive on the state channel. */
    method ReceiveState() returns (s: Option<State>)
      modifies this
      ensures s == old(stateSlot) && stateSlot == None
      ensures running == old(running) && logQueue == old(logQueue)
    {
      s := stateSlot;
      stateSlot := None;
    }

    /** A non-blocking receive on the log channel: the oldest queued message, if any. */
    method ReceiveLog() returns (line: Option<LogLine>)
      requires Valid()
      modifies this
      ensures Valid()
      ensures old(logQueue) == [] ==> line == None && logQueue == []
      ensures old(logQueue) != [] ==> line == Some(old(logQueue)[0]) && logQueue == old(logQueue)[1..]
      ensures running == old(running) && stateSlot == old(stateSlot)
    {
      if logQueue == [] {
        line := None;
      } else {
        line := Some(logQueue[0]);
        logQueue := logQueue[1..];
      }
    }

    /**
     * The part of `Start` before the control loop: refuse a second start, otherwise
     * mark running and log the torque set-up of both arms and the frequency.
     */
    method Begin(at: int, leaderDisable: Outcome, followerEnable: Outcome) returns (r: Outcome)
      requires Valid()
      modifies this
      ensures Valid()
      ensures old(running) ==> r == Fail("already running") && unchanged(this)
      ensures !old(running) ==> r == Pass && running && stateSlot == old(stateSlot)
      ensures !old(running) ==> |logQueue| <= |old(logQueue)| + 3
      ensures !old(running) ==> logQueue == StartLines(old(logQueue), at, leaderDisable, followerEnable, hz)
    {
      if running {
        return Fail("already running");
      }
      running := true;
      if leaderDisable.Fail? {
        Log(at, "Warning: failed to disable leader: " + leaderDisable.error);
      } else {
        Log(at, "Leader arm: torque disabled (passive mode)");
      }
      if followerEnable.Fail? {
        Log(at, "Warning: failed to enable follower: " + followerEnable.error);
      } else {
        Log(at, "Follower arm: torque enabled");
      }
      Log(at, "Teleoperation started at " + Decimal(hz) + " Hz");
      r := Pass;
    }

    /**
     * `step`: read the leader; on failure log it and publish the error without
     * writing. Otherwise write the (mirrored) targets to the follower, log a write
     * failure, and publish the unmirrored leader positions.
     */
    method Step(tick: Tick) returns (written: Option<map<int, int>>)
      requires Valid()
      modifies this
      ensures Valid()
      ensures running == old(running)
      ensures tick.read.Err? ==>
        && written == None
        && stateSlot == Some(State(None, tick.at, Some("read positions: " + tick.read.error)))
        && logQueue == Enqueue(old(logQueue), LogLine(tick.at, "Read error: " + ("read positions: " + tick.read.error)))
      ensures tick.read.Ok? ==>
        && stateSlot.Some? && stateSlot.value.positions.Some?
        && stateSlot.value.timestamp == tick.at && stateSlot.value.error == None
        && IsReading(leader.calibration, tick.read.value, stateSlot.value.positions.value)
        && written.Some?
        && IsCommand(follower.calibration, FollowerTargets(mirror, stateSlot.value.positions.value), written.value)
        && logQueue == (if tick.write.Fail? then Enqueue(old(logQueue), LogLine(tick.at, "Write error: " + ("write positions: " + tick.write.error)))
                        else old(logQueue))
      ensures Served(leader.calibration, follower.calibration, mirror, tick.read, written)
      ensures logQueue == StepLines(old(logQueue), tick)
      ensures Published(stateSlot, leader.calibration, tick)
    {
      var positions := leader.ReadPositions(tick.read);
      if positions.Err? {
        Log(tick.at, "Read error: " + positions.error);
        SendState(State(None, tick.at, Some(positions.error)));
        return None;
      }
      var targets := positions.value;
      if mirror {
        targets := MirrorPositions(positions.value);
      }
      var sent, err := follower.WritePositions(targets, tick.write);
      if err.Fail? {
        Log(tick.at, "Write error: " + err.error);
      }
      SendState(State(Some(positions.value), tick.at, None));
      written := Some(sent);
    }

    /** `shutdown`: clear running, disable the follower's torque and log it. */
    method Shutdown(at: int, followerDisable: Outcome)
      requires Valid()
      modifies this
      ensures Valid()
      ensures !running && stateSlot == old(stateSlot)
      ensures logQueue == StopLines(old(logQueue), at, followerDisable)
    {
      running := false;
      if followerDisable.Fail? {
        Log(at, "Warning: failed to disable follower: " + followerDisable.error);
      } else {
        Log(at, "Follower arm: torque disabled");
      }
      Log(at, "Teleoperation stopped");
    }

    /**
     * The control loop of `Start`: one step per tick, in order. `written[i]` is
     * what tick i sent to the follower.
     */
    method Loop(ticks: seq<Tick>) returns (written: seq<Option<map<int, int>>>)
      requires Valid()
      modifies this
      ensures Valid() && running == old(running)
      ensures |written| == |ticks|
      ensures forall i :: 0 <= i < |written| ==>
        Served(leader.calibration, follower.calibration, mirror, ticks[i].read, written[i])
      ensures logQueue == StepsLines(old(logQueue), ticks)
      ensures ticks == [] ==> stateSlot == old(stateSlot)
      ensures ticks != [] ==> Published(stateSlot, leader.calibration, ticks[|ticks| - 1])
    {
      written := [];
      for k := 0 to |ticks|
        invariant Valid() && running == old(running)
        invariant |written| == k
        invariant forall i :: 0 <= i < k ==>
          Served(leader.calibration, follower.calibration, mirror, ticks[i].read, written[i])
        invariant logQueue == StepsLines(old(logQueue), ticks[..k])
        invariant k == 0 ==> stateSlot == old(stateSlot)
        invariant k > 0 ==> Published(stateSlot, leader.calibration, ticks[k - 1])
      {
        StepsLinesStep(old(logQueue), ticks, k);
        var sent := Step(ticks[k]);
        written := written + [sent];
      }
      assert ticks[..|ticks|] == ticks;
    }

    /**
     * `Start`: after the start-up of Begin, a ticker at TickInterval(hz) (whose
     * zero interval panics), the control loop until the context is cancelled, then
     * shutdown; the result is the context's error.
     */
    method Start(at: int, leaderDisable: Outcome, followerEnable: Outcome, ticks: seq<Tick>,
                 stopAt: int, followerDisable: Outcome, contextError: string)
      returns (r: Outcome, written: seq<Option<map<int, int>>>)
      requires Valid()
      modifies this
      ensures Valid()
      ensures old(running) ==> r == Fail("already running") && written == [] && unchanged(this)
      ensures !old(running) && TickInterval(hz) == 0 ==>
        && r == Fail(TickerPanic) && written == [] && running && stateSlot == old(stateSlot)
        && logQueue == StartLines(old(logQueue), at, leaderDisable, followerEnable, hz)
      ensures !old(running) && TickInterval(hz) > 0 ==>
        && r == Fail(contextError) && !running && |written| == |ticks|
        && logQueue == StopLines(StepsLines(StartLines(old(logQueue), at, leaderDisable, followerEnable, hz), ticks),
                                 stopAt, followerDisable)
        && (ticks == [] ==> stateSlot == old(stateSlot))
        && (ticks != [] ==> Published(stateSlot, leader.calibration, ticks[|ticks| - 1]))
      ensures forall i :: 0 <= i < |written| ==>
        Served(leader.calibration, follower.calibration, mirror, ticks[i].read, written[i])
    {
      written := [];
      r := Begin(at, leaderDisable, followerEnable);
      if r.Fail? {
        return;
      }
      if TickInterval(hz) == 0 {
        r := Fail(TickerPanic);
        return;
      }
      written := Loop(ticks);
      Shutdown(stopAt, followerDisable);
      r := Fail(contextError);
    }

    /** `Close`: clear running, close both arms whatever the first close returns, and gather the errors. */
    method Close(leaderClose: Outcome, followerClose: Outcome) returns (r: Outcome)
      modifies this, leader, follower
      ensures !running && !leader.open && !follower.open
      ensures stateSlot == old(stateSlot) && logQueue == old(logQueue)
      ensures r.Pass? <==> leaderClose.Pass? && followerClose.Pass?
      ensures r.Fail? ==> r.error == "close errors: " + Bracketed(Failures([leaderClose, followerClose]))
    {
      running := false;
      var errs: seq<string> := [];
      var e1 := leader.Close(leaderClose);
      if e1.Fail? {
        errs := errs + [e1.error];
      }
      var e2 := follower.Close(followerClose);
      if e2.Fail? {
        errs := errs + [e2.error];
      }
      assert errs == Failures([leaderClose, followerClose]) by {
        assert [leaderClose, followerClose][1..] == [followerClose];
      }
      if |errs| > 0 {
        return Fail("close errors: " + Bracketed(errs));
      }
      return Pass;
    }
  }

  /**
   * `NewController`: open the leader, then the follower (closing the leader if
   * that fails), and build a stopped controller at EffectiveHz. `abandoned` is the
   * leader arm closed on the follower's failure.
   */
  method NewController(leaderPort: string, leaderCal: Calibration, leaderOpen: Outcome,
                       followerPort: string, followerCal: Calibration, followerOpen: Outcome,
                       leaderClose: Outcome, hz: int, mirror: bool)
    returns (r: Result<Controller>, ghost abandoned: Option<Arm>)
    ensures leaderOpen.Fail? ==> r == Err("create leader arm: " + ("open bus: " + leaderOpen.error)) && abandoned == None
    ensures leaderOpen.Pass? && followerOpen.Fail? ==>
      && r == Err("create follower arm: " + ("open bus: " + followerOpen.error))
      && abandoned.Some? && fresh(abandoned.value) && !abandoned.value.open
      && abandoned.value.port == leaderPort
    ensures leaderOpen.Pass? && followerOpen.Pass? ==>
      && r.Ok? && fresh(r.value) && fresh(r.value.leader) && fresh(r.value.follower)
      && r.value.Valid() && !r.value.running && r.value.stateSlot == None && r.value.logQueue == []
      && r.value.hz == EffectiveHz(hz) && r.value.mirror == mirror
      && r.value.leader.port == leaderPort && r.value.leader.calibration == leaderCal && r.value.leader.open
      && r.value.follower.port == followerPort && r.value.follower.calibration == followerCal && r.value.follower.open
      && r.value.leader.group == CalibratedIDs(leaderCal) && r.value.follower.group == CalibratedIDs(followerCal)
  {
    abandoned := None;
    var leader := NewArm(leaderPort, leaderCal, leaderOpen);
    if leader.Err? {
      return Err("create leader arm: " + leader.error), None;
    }
    var follower := NewArm(followerPort, followerCal, followerOpen);
    if follower.Err? {
      var _ := leader.value.Close(leaderClose);
      return Err("create follower arm: " + follower.error), Some(leader.value);
    }
    var rate := EffectiveHz(hz);
    var c := new Controller.Make(leader.value, follower.value, rate, mirror);
    r := Ok(c);
  }
}
