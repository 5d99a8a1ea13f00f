/**
 * The setup wizard (cmd/lerobot/setup.go): recognising an SO-101 arm from a bus
 * scan, asking which role each found arm plays, and recording the range of
 * motion of every joint into a calibration. Bus reads, the wiggle motion and the
 * interactive form are inputs.
 */
module Setup {
  import opened Wrappers
  import opened Motors
  import opened Calibrations
  import opened RobotConfig

  // ---------------------------------------------------------------------------
  // Recognising an SO-101 arm

  /** A servo answering a bus scan; the model number is carried but not interpreted. */
  datatype FoundServo = FoundServo(id: int, model: int)

  /** The IDs of the scanned servos. */
  function ServoIDs(servos: seq<FoundServo>): set<int> {
    set i | 0 <= i < |servos| :: servos[i].id
  }

  /** An SO-101 arm: exactly six servos, and every ID from 1 to 6 answers. */
  ghost predicate IsSO101(servos: seq<FoundServo>) {
    && |servos| == MotorCount
    && forall id :: 1 <= id <= MotorCount ==> id in ServoIDs(servos)
  }

  /** `isSOArm`: the length check, then a set of the IDs seen, then a check of IDs 1 to 6. */
  method IsSOArm(servos: seq<FoundServo>) returns (ok: bool)
    ensures ok <==> IsSO101(servos)
  {
    if |servos| != 6 {
      return false;
    }
    var ids: map<int, bool> := map[];
    for k := 0 to |servos|
      invariant ids.Keys == ServoIDs(servos[..k])
      invariant forall id :: id in ids ==> ids[id]
    {
      assert ServoIDs(servos[..k + 1]) == ServoIDs(servos[..k]) + {servos[k].id} by {
        assert servos[..k + 1][k] == servos[k];
        assert forall j :: 0 <= j < k ==> servos[..k + 1][j] == servos[..k][j];
      }
      ids := ids[servos[k].id := true];
    }
    assert servos[..|servos|] == servos;
    for i := 1 to 7
      invariant forall id :: 1 <= id < i ==> id in ServoIDs(servos)
    {
      if !(i in ids && ids[i]) {
        return false;
      }
    }
    return true;
  }

  /** There are never more distinct IDs than servos, and fewer as soon as two servos share one. */
  lemma {:induction false} ServoIDsCount(servos: seq<FoundServo>)
    ensures |ServoIDs(servos)| <= |servos|
    ensures (exists i, j :: 0 <= i < j < |servos| && servos[i].id == servos[j].id) ==> |ServoIDs(servos)| < |servos|
    decreases |servos|
  {
    if servos != [] {
      var init := servos[..|servos| - 1];
      var last := servos[|servos| - 1];
      ServoIDsCount(init);
      assert ServoIDs(servos) == ServoIDs(init) + {last.id} by {
        assert forall i :: 0 <= i < |init| ==> init[i] == servos[i];
      }
      if exists i, j :: 0 <= i < j < |servos| && servos[i].id == servos[j].id {
        var i, j :| 0 <= i < j < |servos| && servos[i].id == servos[j].id;
        if j == |servos| - 1 {
          assert init[i].id == last.id;
          assert last.id in ServoIDs(init);
        } else {
          assert init[i].id == init[j].id;
        }
      }
    }
  }

  /** An SO-101 scan has six distinct IDs, which are exactly 1 to 6. */
  lemma SO101Exact(servos: seq<FoundServo>)
    requires IsSO101(servos)
    ensures ServoIDs(servos) == {1, 2, 3, 4, 5, 6}
    ensures forall i, j :: 0 <= i < j < |servos| ==> servos[i].id != servos[j].id
  {
    var ids := ServoIDs(servos);
    var wanted: set<int> := {1, 2, 3, 4, 5, 6};
    assert wanted <= ids by {
      assert forall id :: id in wanted ==> 1 <= id <= MotorCount;
    }
    ServoIDsCount(servos);
    assert |wanted| == 6;
    assert |ids - wanted| == |ids| - |wanted|;
    assert ids == wanted;
  }

  /** Six servos with IDs 3, 1, 2, 6, 5, 4 form an arm; a duplicate ID does not. */
  lemma SO101Examples()
    ensures IsSO101([FoundServo(3, 0), FoundServo(1, 0), FoundServo(2, 0), FoundServo(6, 0), FoundServo(5, 0), FoundServo(4, 0)])
    ensures !IsSO101([FoundServo(1, 0), FoundServo(1, 0), FoundServo(2, 0), FoundServo(3, 0), FoundServo(4, 0), FoundServo(5, 0)])
  {
    var good := [FoundServo(3, 0), FoundServo(1, 0), FoundServo(2, 0), FoundServo(6, 0), FoundServo(5, 0), FoundServo(4, 0)];
    assert good[1].id == 1 && good[2].id == 2 && good[0].id == 3 && good[5].id == 4 && good[4].id == 5 && good[3].id == 6;
    var bad := [FoundServo(1, 0), FoundServo(1, 0), FoundServo(2, 0), FoundServo(3, 0), FoundServo(4, 0), FoundServo(5, 0)];
    assert 6 !in ServoIDs(bad);
  }

  /** The search for servo 1, the one that is wiggled: the first scanned servo with ID 1. */
  method FindWiggleServo(servos: seq<FoundServo>) returns (servo: Option<FoundServo>)
    ensures servo.Some? <==> 1 in ServoIDs(servos)
    ensures servo.Some? ==> servo.value.id == 1 && servo.value in servos
  {
    servo := None;
    for k := 0 to |servos|
      invariant forall j :: 0 <= j < k ==> servos[j].id != 1
    {
      if servos[k].id == 1 {
        servo := Some(servos[k]);
        break;
      }
    }
  }

  /** An arm accepted by IsSOArm always has a servo to wiggle. */
  lemma SO101HasWiggleServo(servos: seq<FoundServo>)
    requires IsSO101(servos)
    ensures 1 in ServoIDs(servos)
  {
  }

  // ---------------------------------------------------------------------------
  // Identifying the role of each arm

  /**
   * The answer of the role form: aborted (the form returned an error), or the
   * option under the cursor; a cursor past the end selects the last option.
   */
  datatype FormAnswer = Aborted | Selected(cursor: nat)

  /** What the wizard learns from one found arm: its port, its scan, the wiggle and the answer. */
  datatype Visit = Visit(port: string, servos: seq<FoundServo>, wiggle: Outcome, answer: FormAnswer)

  /** The option selected by a cursor. */
  function Pick(options: seq<string>, cursor: nat): (choice: string)
    requires |options| > 0
    ensures choice in options
    ensures cursor < |options| ==> choice == options[cursor]
  {
    if cursor < |options| then options[cursor] else options[|options| - 1]
  }

  /** The values offered for an arm: each role still unassigned, then "skip". */
  function RoleOptions(needLeader: bool, needFollower: bool): (options: seq<string>)
    ensures |options| >= 1 && options[|options| - 1] == "skip"
    ensures "leader" in options <==> needLeader
    ensures "follower" in options <==> needFollower
    ensures forall o :: o in options ==> o == "leader" || o == "follower" || o == "skip"
  {
    (if needLeader then ["leader"] else []) + (if needFollower then ["follower"] else []) + ["skip"]
  }

  /** The outcome of identifying one arm: the program exits, or a role ("" for none). */
  datatype Identified = ExitProgram(code: int) | Role(role: string)

  /**
   * The role `identifyArmWithWiggle` learns from one arm: none without servo 1
   * or when the wiggle fails; an aborted form exits the program with status 0;
   * otherwise the picked option, with "skip" meaning no role.
   */
  function Identification(v: Visit, needLeader: bool, needFollower: bool): (r: Identified)
    ensures r.ExitProgram? <==> 1 in ServoIDs(v.servos) && v.wiggle.Pass? && v.answer.Aborted?
    ensures r.ExitProgram? ==> r.code == 0
    ensures !(1 in ServoIDs(v.servos) && v.wiggle.Pass?) ==> r == Role("")
    ensures r.Role? ==> r.role == "" || r.role == "leader" || r.role == "follower"
    ensures r == Role("leader") ==> needLeader
    ensures r == Role("follower") ==> needFollower
    ensures 1 in ServoIDs(v.servos) && v.wiggle.Pass? && v.answer.Selected? ==>
      && r.Role?
      && (r.role == "" <==> Pick(RoleOptions(needLeader, needFollower), v.answer.cursor) == "skip")
      && (r.role != "" ==> r.role == Pick(RoleOptions(needLeader, needFollower), v.answer.cursor))
  {
    if !(1 in ServoIDs(v.servos)) || v.wiggle.Fail? then Role("")
    else match v.answer
      case Aborted => ExitProgram(0)
      case Selected(cursor) =>
        var role := Pick(RoleOptions(needLeader, needFollower), cursor);
        if role == "skip" then Role("") else Role(role)
  }

  /**
   * Every role still needed can be picked for a wiggled arm: "leader" is the
   * first option, "follower" comes after it when both are offered, and the last
   * option, "skip", gives no role.
   */
  lemma RolesOffered(v: Visit, needLeader: bool, needFollower: bool)
    requires 1 in ServoIDs(v.servos) && v.wiggle.Pass?
    ensures needLeader ==> Identification(v.(answer := Selected(0)), needLeader, needFollower) == Role("leader")
    ensures needFollower ==>
      Identification(v.(answer := Selected(if needLeader then 1 else 0)), needLeader, needFollower) == Role("follower")
    ensures Identification(v.(answer := Selected(|RoleOptions(needLeader, needFollower)| - 1)), needLeader, needFollower)
      == Role("")
  {
  }

  /** `identifyArmWithWiggle`, with its search for servo 1. */
  method IdentifyArm(v: Visit, needLeader: bool, needFollower: bool) returns (r: Identified)
    ensures r == Identification(v, needLeader, needFollower)
  {
    var servo := FindWiggleServo(v.servos);
    if servo.None? {
      return Role("");
    }
    if v.wiggle.Fail? {
      return Role("");
    }
    var options := RoleOptions(needLeader, needFollower);
    if v.answer.Aborted? {
      return ExitProgram(0);
    }
    var role := Pick(options, v.answer.cursor);
    if role == "skip" {
      return Role("");
    }
    return Role(role);
  }

  /** The result of the scan step: the program exits with a status, or both ports are known. */
  datatype ScanResult = Exit(code: int) | Found(config: Config)

  /** The end of `scanForArms`: exit with status 1 unless both ports are set. */
  function Finish(leader: string, follower: string): (r: ScanResult)
    ensures r.Found? <==> leader != "" && follower != ""
    ensures r.Exit? ==> r.code == 1
    ensures r.Found? ==> r.config.leader.port == leader && r.config.follower.port == follower
    ensures r.Found? ==> r.config.leader.calibration == map[] && r.config.follower.calibration == map[]
  {
    if leader == "" || follower == "" then Exit(1)
    else Found(Config(ArmConfig(leader, map[]), ArmConfig(follower, map[])))
  }

  /**
   * The scan from arm k onwards, with ports (leader, follower) assigned so far:
   * each arm is offered only the roles still unassigned, its role sets the port
   * of that role, an aborted form exits, and asking stops once both are set.
   */
  function ScanFrom(arms: seq<Visit>, k: nat, leader: string, follower: string): (r: ScanResult)
    requires k <= |arms|
    ensures r.Exit? ==> r.code == 0 || r.code == 1
    ensures r.Found? ==>
      && r.config.leader.port != "" && r.config.follower.port != ""
      && r.config.leader.calibration == map[] && r.config.follower.calibration == map[]
    decreases |arms| - k
  {
    if k == |arms| then Finish(leader, follower)
    else
      var id := Identification(arms[k], leader == "", follower == "");
      if id.ExitProgram? then Exit(id.code)
      else
        var leader' := if id.role == "leader" then arms[k].port else leader;
        var follower' := if id.role == "follower" then arms[k].port else follower;
        if leader' != "" && follower' != "" then Finish(leader', follower')
        else ScanFrom(arms, k + 1, leader', follower')
  }

  /**
   * `scanForArms`: ask about each found arm in turn, offering only the roles still
   * unassigned, until both are assigned; exit with status 1 when no arm was found
   * or a role is still missing.
   */
  method ScanForArms(arms: seq<Visit>) returns (r: ScanResult)
    ensures r == ScanFrom(arms, 0, "", "")
    ensures |arms| == 0 ==> r == Exit(1)
    ensures r.Found? ==>
      exists i, j :: 0 <= i < |arms| && 0 <= j < |arms| && i != j &&
        arms[i].port == r.config.leader.port && arms[j].port == r.config.follower.port
  {
    if |arms| == 0 {
      return Exit(1);
    }
    var leaderPort, followerPort := "", "";
    ghost var leaderAt, followerAt := -1, -1;
    var k := 0;
    while k < |arms|
      invariant k <= |arms|
      invariant ScanFrom(arms, k, leaderPort, followerPort) == ScanFrom(arms, 0, "", "")
      invariant leaderPort == "" <==> leaderAt < 0
      invariant followerPort == "" <==> followerAt < 0
      invariant leaderAt < k && followerAt < k
      invariant leaderAt >= 0 ==> arms[leaderAt].port == leaderPort
      invariant followerAt >= 0 ==> arms[followerAt].port == followerPort
      invariant leaderAt >= 0 && followerAt >= 0 ==> leaderAt != followerAt
    {
      var role := IdentifyArm(arms[k], leaderPort == "", followerPort == "");
      if role.ExitProgram? {
        return Exit(role.code);
      }
      if role.role == "leader" {
        leaderPort := arms[k].port;
        leaderAt := if leaderPort == "" then -1 else k;
      } else if role.role == "follower" {
        followerPort := arms[k].port;
        followerAt := if followerPort == "" then -1 else k;
      }
      if leaderPort != "" && followerPort != "" {
        break;
      }
      k := k + 1;
    }
    if leaderPort == "" || followerPort == "" {
      return Exit(1);
    }
    return Found(Config(ArmConfig(leaderPort, map[]), ArmConfig(followerPort, map[])));
  }

  /** The scan exits with status 0 only when the form of some wiggled arm was aborted. */
  lemma {:induction false} ScanExitsOnAbort(arms: seq<Visit>, k: nat, leader: string, follower: string)
    requires k <= |arms|
    ensures ScanFrom(arms, k, leader, follower) == Exit(0) ==>
      exists i :: k <= i < |arms| && 1 in ServoIDs(arms[i].servos) && arms[i].wiggle.Pass? && arms[i].answer.Aborted?
    decreases |arms| - k
  {
    if k < |arms| {
      var id := Identification(arms[k], leader == "", follower == "");
      if !id.ExitProgram? {
        var leader' := if id.role == "leader" then arms[k].port else leader;
        var follower' := if id.role == "follower" then arms[k].port else follower;
        if !(leader' != "" && follower' != "") {
          ScanExitsOnAbort(arms, k + 1, leader', follower');
        }
      }
    }
  }

  /**
   * Two wiggled arms on which the first option is picked: the first becomes the
   * leader, the second is then offered only "follower" and "skip" and becomes the
   * follower, and the arms after them are not asked about.
   */
  lemma ScanFirstTwo(a: Visit, b: Visit, rest: seq<Visit>)
    requires a.port != "" && b.port != ""
    requires 1 in ServoIDs(a.servos) && a.wiggle.Pass? && a.answer == Selected(0)
    requires 1 in ServoIDs(b.servos) && b.wiggle.Pass? && b.answer == Selected(0)
    ensures RoleOptions(false, true) == ["follower", "skip"]
    ensures ScanFrom([a, b] + rest, 0, "", "") == Found(Config(ArmConfig(a.port, map[]), ArmConfig(b.port, map[])))
  {
    var arms := [a, b] + rest;
    assert arms[0] == a && arms[1] == b;
    assert ScanFrom(arms, 1, a.port, "") == Found(Config(ArmConfig(a.port, map[]), ArmConfig(b.port, map[])));
  }

  /** An arm whose form is aborted ends the scan at once with status 0, whatever follows. */
  lemma ScanAbortFirst(a: Visit, rest: seq<Visit>)
    requires 1 in ServoIDs(a.servos) && a.wiggle.Pass? && a.answer == Aborted
    ensures ScanFrom([a] + rest, 0, "", "") == Exit(0)
  {
    assert ([a] + rest)[0] == a;
  }

  // ---------------------------------------------------------------------------
  // Recording the range of motion

  /** The current, minimum and maximum raw position seen for one motor. */
  datatype Bounds = Bounds(cur: int, lo: int, hi: int)

  predicate Ordered(b: Bounds) {
    b.lo <= b.cur <= b.hi
  }

  /** The bounds before sampling: all three are the first position read. */
  function Seeded(pos: int): (b: Bounds)
    ensures Ordered(b) && b.hi - b.lo == 0
  {
    Bounds(pos, pos, pos)
  }

  /**
   * One sample: a failed read changes nothing; a position becomes the current one
   * and widens the range to the smallest one containing both.
   */
  function Widen(b: Bounds, reading: Option<int>): (r: Bounds)
    ensures reading.None? ==> r == b
    ensures Ordered(b) ==> Ordered(r)
    ensures r.lo <= b.lo && b.hi <= r.hi
    ensures reading.Some? ==> r.cur == reading.value && r.lo <= reading.value <= r.hi
    ensures reading.Some? ==> (r.lo == b.lo || r.lo == reading.value) && (r.hi == b.hi || r.hi == reading.value)
  {
    match reading
    case None => b
    case Some(pos) =>
      Bounds(pos, if pos < b.lo then pos else b.lo, if pos > b.hi then pos else b.hi)
  }

  /** The bounds after seeding with `first` and sampling `rest` in order. */
  function Replay(first: int, rest: seq<Option<int>>): Bounds
    decreases |rest|
  {
    if rest == [] then Seeded(first)
    else Widen(Replay(first, rest[..|rest| - 1]), rest[|rest| - 1])
  }

  /**
   * The recorded range is exactly the smallest one containing the first position
   * and every successful sample, and it always contains the current position.
   */
  lemma {:induction false} ReplayRange(first: int, rest: seq<Option<int>>)
    ensures Ordered(Replay(first, rest))
    ensures Replay(first, rest).lo <= first <= Replay(first, rest).hi
    ensures forall i :: 0 <= i < |rest| && rest[i].Some? ==> Replay(first, rest).lo <= rest[i].value <= Replay(first, rest).hi
    ensures Replay(first, rest).lo == first || exists i :: 0 <= i < |rest| && rest[i] == Some(Replay(first, rest).lo)
    ensures Replay(first, rest).hi == first || exists i :: 0 <= i < |rest| && rest[i] == Some(Replay(first, rest).hi)
    decreases |rest|
  {
    if rest != [] {
      var init := rest[..|rest| - 1];
      ReplayRange(first, init);
      var b := Replay(first, init);
      var r := Replay(first, rest);
      assert forall i :: 0 <= i < |init| ==> init[i] == rest[i];
      if r.lo != first && r.lo != b.lo {
        assert rest[|rest| - 1] == Some(r.lo);
      }
      if r.hi != first && r.hi != b.hi {
        assert rest[|rest| - 1] == Some(r.hi);
      }
    }
  }

  /** Sampling 1500, then 1200, a failed read, 1800 and 1600 records 1200 to 1800, span 600. */
  lemma ReplayExample()
    ensures Replay(1500, [Some(1200), None, Some(1800), Some(1600)]) == Bounds(1600, 1200, 1800)
    ensures SpanIsGood(Replay(1500, [Some(1200), None, Some(1800), Some(1600)]))
  {
    var s0: seq<Option<int>> := [];
    var s1 := s0 + [Some(1200)];
    var s2 := s1 + [None];
    var s3 := s2 + [Some(1800)];
    var s4 := s3 + [Some(1600)];
    ReplayStep(1500, s0, Some(1200));
    ReplayStep(1500, s1, None);
    ReplayStep(1500, s2, Some(1800));
    ReplayStep(1500, s3, Some(1600));
    assert s4 == [Some(1200), None, Some(1800), Some(1600)];
  }

  /** The range shown for a motor, and whether it is shown as large enough. */
  function Span(b: Bounds): int {
    b.hi - b.lo
  }

  predicate SpanIsGood(b: Bounds) {
    Span(b) > 500
  }

  /** Sampling never shrinks the span, so a span shown as good stays good. */
  lemma SpanNeverShrinks(b: Bounds, reading: Option<int>)
    requires Ordered(b)
    ensures 0 <= Span(b) <= Span(Widen(b, reading))
    ensures SpanIsGood(b) ==> SpanIsGood(Widen(b, reading))
  {
  }

  /** The bounds of motor `n` in the three position maps. */
  function BoundsIn(c: map<MotorName, int>, l: map<MotorName, int>, h: map<MotorName, int>, n: MotorName): Bounds
    requires n in c && n in l && n in h
  {
    Bounds(c[n], l[n], h[n])
  }

  /** The bounds of each motor, in motor order. */
  function SnapshotOf(motors: seq<MotorName>, c: map<MotorName, int>, l: map<MotorName, int>, h: map<MotorName, int>)
    : (bs: seq<Bounds>)
    requires forall n :: n in motors ==> n in c && n in l && n in h
    ensures |bs| == |motors| && forall i :: 0 <= i < |motors| ==> bs[i] == BoundsIn(c, l, h, motors[i])
  {
    seq(|motors|, i requires 0 <= i < |motors| => BoundsIn(c, l, h, motors[i]))
  }

  /** One tick applied to the bounds of every motor. */
  function WidenAll(bs: seq<Bounds>, readings: seq<Option<int>>): (r: seq<Bounds>)
    requires |bs| == |readings|
    ensures |r| == |bs| && forall i :: 0 <= i < |bs| ==> r[i] == Widen(bs[i], readings[i])
  {
    seq(|bs|, i requires 0 <= i < |bs| => Widen(bs[i], readings[i]))
  }

  /**
   * The loop of a tick over the current, minimum and maximum maps: each motor
   * whose read succeeded takes the position and widens its range.
   */
  method SampleAll(motors: seq<MotorName>, readings: seq<Option<int>>,
                   cur: map<MotorName, int>, lo: map<MotorName, int>, hi: map<MotorName, int>)
    returns (c: map<MotorName, int>, l: map<MotorName, int>, h: map<MotorName, int>)
    requires Distinct(motors) && |readings| == |motors|
    requires forall n :: n in cur <==> n in motors
    requires lo.Keys == cur.Keys && hi.Keys == cur.Keys && OrderedMaps(cur, lo, hi)
    ensures c.Keys == cur.Keys && l.Keys == cur.Keys && h.Keys == cur.Keys && OrderedMaps(c, l, h)
    ensures forall i :: 0 <= i < |motors| ==>
      BoundsIn(c, l, h, motors[i]) == Widen(BoundsIn(cur, lo, hi, motors[i]), readings[i])
    ensures SnapshotOf(motors, c, l, h) == WidenAll(SnapshotOf(motors, cur, lo, hi), readings)
  {
    c, l, h := cur, lo, hi;
    for i := 0 to |motors|
      invariant c.Keys == cur.Keys && l.Keys == cur.Keys && h.Keys == cur.Keys
      invariant OrderedMaps(c, l, h)
      invariant TickedUpTo(motors, readings, i, cur, lo, hi, c, l, h)
    {
      var name := motors[i];
      ghost var c0, l0, h0 := c, l, h;
      if readings[i].Some? {
        var pos := readings[i].value;
        c := c[name := pos];
        if pos < l[name] {
          l := l[name := pos];
        }
        if pos > h[name] {
          h := h[name := pos];
        }
      }
      TickStep(motors, readings, i, cur, lo, hi, c0, l0, h0, c, l, h);
    }
  }

  /**
   * The loop state of a tick after the first i motors: those are widened by their
   * reading, the rest are as before the tick.
   */
  ghost predicate TickedUpTo(motors: seq<MotorName>, readings: seq<Option<int>>, i: nat,
                             c0: map<MotorName, int>, l0: map<MotorName, int>, h0: map<MotorName, int>,
                             c: map<MotorName, int>, l: map<MotorName, int>, h: map<MotorName, int>)
  {
    && i <= |motors| <= |readings|
    && (forall n :: n in motors ==> n in c0 && n in l0 && n in h0 && n in c && n in l && n in h)
    && (forall j :: 0 <= j < i ==> BoundsIn(c, l, h, motors[j]) == Widen(BoundsIn(c0, l0, h0, motors[j]), readings[j]))
    && (forall j :: i <= j < |motors| ==> BoundsIn(c, l, h, motors[j]) == BoundsIn(c0, l0, h0, motors[j]))
  }

  /** Every motor's minimum is at most its current position, which is at most its maximum. */
  ghost predicate OrderedMaps(c: map<MotorName, int>, l: map<MotorName, int>, h: map<MotorName, int>) {
    forall n :: n in c ==> n in l && n in h && l[n] <= c[n] <= h[n]
  }

  /** Applying the reading of motor i, and touching no other motor, extends TickedUpTo by one. */
  lemma TickStep(motors: seq<MotorName>, readings: seq<Option<int>>, i: nat,
                 c0: map<MotorName, int>, l0: map<MotorName, int>, h0: map<MotorName, int>,
                 c: map<MotorName, int>, l: map<MotorName, int>, h: map<MotorName, int>,
                 c': map<MotorName, int>, l': map<MotorName, int>, h': map<MotorName, int>)
    requires Distinct(motors) && i < |motors|
    requires TickedUpTo(motors, readings, i, c0, l0, h0, c, l, h) && OrderedMaps(c, l, h)
    requires match readings[i]
      case None => c' == c && l' == l && h' == h
      case Some(pos) =>
        && c' == c[motors[i] := pos]
        && l' == (if pos < l[motors[i]] then l[motors[i] := pos] else l)
        && h' == (if pos > h[motors[i]] then h[motors[i] := pos] else h)
    ensures c'.Keys == c.Keys && l'.Keys == l.Keys && h'.Keys == h.Keys
    ensures TickedUpTo(motors, readings, i + 1, c0, l0, h0, c', l', h') && OrderedMaps(c', l', h')
  {
    assert motors[i] in motors;
    forall j | 0 <= j < |motors| && j != i
      ensures BoundsIn(c', l', h', motors[j]) == BoundsIn(c, l, h, motors[j])
    {
      assert motors[j] != motors[i];
    }
  }

  /** The calibration built from recorded ranges: motor i gets ID i + 1, driveMode and homingOffset 0. */
  method BuildCalibration(motors: seq<MotorName>, lo: map<MotorName, int>, hi: map<MotorName, int>)
    returns (cal: Calibration)
    requires Distinct(motors)
    requires forall n :: n in motors ==> n in lo && n in hi
    ensures forall n :: n in cal <==> n in motors
    ensures forall i :: 0 <= i < |motors| ==>
      cal[motors[i]] == MotorCalibration(i + 1, 0, 0, lo[motors[i]], hi[motors[i]])
  {
    cal := map[];
    for i := 0 to |motors|
      invariant forall n :: n in cal <==> n in motors[..i]
      invariant forall j :: 0 <= j < i ==> cal[motors[j]] == MotorCalibration(j + 1, 0, 0, lo[motors[j]], hi[motors[j]])
    {
      cal := cal[motors[i] := MotorCalibration(i + 1, 0, 0, lo[motors[i]], hi[motors[i]])];
    }
    assert motors[..|motors|] == motors;
  }

  /** A calibration keyed by exactly `motors` whose ranges are each ordered has no negative width. */
  lemma NonNegativeWidths(motors: seq<MotorName>, cal: Calibration)
    requires forall n :: n in cal <==> n in motors
    requires forall i :: 0 <= i < |motors| ==> Width(cal[motors[i]]) >= 0
    ensures forall n :: n in cal ==> Width(cal[n]) >= 0
  {
    forall n | n in cal
      ensures Width(cal[n]) >= 0
    {
      var i :| 0 <= i < |motors| && motors[i] == n;
    }
  }

  /** Keys pressed to finish recording. */
  predicate IsQuitKey(key: string) {
    key == "enter" || key == "q" || key == "ctrl+c"
  }

  /** The messages the recorder reacts to; a tick carries the read of each motor, in motor order. */
  datatype Msg = Key(key: string) | TickMsg(readings: seq<Option<int>>) | OtherMsg

  /** The command returned by Update. */
  datatype Cmd = QuitCmd | NextTick | NoCmd

  /**
   * The calibration recorder (`calibrationModel`): the motors in order, and the
   * current, minimum and maximum raw position of each (curPositions,
   * minPositions and maxPositions).
   */
  class Recorder {
    const motors: seq<MotorName>
    var cur: map<MotorName, int>
    var lo: map<MotorName, int>
    var hi: map<MotorName, int>
    var quitting: bool

    ghost predicate Valid()
      reads this
    {
      && Distinct(motors)
      && (forall n :: n in cur <==> n in motors)
      && lo.Keys == cur.Keys && hi.Keys == cur.Keys
      && OrderedMaps(cur, lo, hi)
    }

    /** The bounds of all motors, in motor order. */
    ghost function Snapshot(): seq<Bounds>
      requires Valid()
      reads this
    {
      SnapshotOf(motors, cur, lo, hi)
    }

    /** The bounds of one motor. */
    function BoundsOf(n: MotorName): Bounds
      requires Valid() && n in motors
      reads this
    {
      BoundsIn(cur, lo, hi, n)
    }

    /**
     * The maps seeded by `calibrateArm` and handed to `newCalibrationModel`: the
     * first position read for motor i is its current, minimum and maximum.
     */
    constructor Seed(motors: seq<MotorName>, first: seq<int>)
      requires Distinct(motors) && |first| == |motors|
      ensures this.motors == motors && Valid() && !quitting
      ensures forall i :: 0 <= i < |motors| ==> BoundsOf(motors[i]) == Seeded(first[i])
    {
      var c, l, h := map[], map[], map[];
      for i := 0 to |motors|
        invariant c.Keys == l.Keys == h.Keys
        invariant forall n :: n in c <==> n in motors[..i]
        invariant forall n :: n in c ==> l[n] == c[n] == h[n]
        invariant forall j :: 0 <= j < i ==> c[motors[j]] == first[j]
      {
        c, l, h := c[motors[i] := first[i]], l[motors[i] := first[i]], h[motors[i] := first[i]];
      }
      assert motors[..|motors|] == motors;
      this.motors := motors;
      cur, lo, hi := c, l, h;
      quitting := false;
    }

    /** A tick: each motor whose read succeeded takes the position and widens its range; the others keep theirs. */
    method Tick(readings: seq<Option<int>>)
      requires Valid() && |readings| == |motors|
      modifies this
      ensures Valid() && quitting == old(quitting)
      ensures Snapshot() == WidenAll(old(Snapshot()), readings)
    {
      cur, lo, hi := SampleAll(motors, readings, cur, lo, hi);
    }

    /** `Update`: a quit key ends recording, a tick samples and schedules the next tick, anything else is ignored. */
    method Update(msg: Msg) returns (cmd: Cmd)
      requires Valid()
      requires msg.TickMsg? ==> |msg.readings| == |motors|
      modifies this
      ensures Valid()
      ensures msg.Key? && IsQuitKey(msg.key) ==>
        cmd == QuitCmd && quitting && cur == old(cur) && lo == old(lo) && hi == old(hi)
      ensures (msg.Key? && !IsQuitKey(msg.key)) || msg.OtherMsg? ==> cmd == NoCmd && unchanged(this)
      ensures msg.TickMsg? ==> cmd == NextTick && quitting == old(quitting)
      ensures msg.TickMsg? ==> Snapshot() == WidenAll(old(Snapshot()), msg.readings)
    {
      match msg
      case Key(key) =>
        if key == "enter" || key == "q" || key == "ctrl+c" {
          quitting := true;
          return QuitCmd;
        }
        return NoCmd;
      case TickMsg(readings) =>
        Tick(readings);
        return NextTick;
      case OtherMsg =>
        return NoCmd;
    }

    /** The calibration built after recording: motor i gets ID i + 1 and its recorded range. */
    method Calibrate() returns (cal: Calibration)
      requires Valid()
      ensures forall n :: n in cal <==> n in motors
      ensures forall i :: 0 <= i < |motors| ==>
        cal[motors[i]] == MotorCalibration(i + 1, 0, 0, lo[motors[i]], hi[motors[i]])
      ensures forall n :: n in cal ==> Width(cal[n]) >= 0
    {
      cal := BuildCalibration(motors, lo, hi);
      NonNegativeWidths(motors, cal);
    }
  }

  /** Every tick in `msgs` carries one reading per motor. */
  predicate TicksOfWidth(msgs: seq<Msg>, width: nat) {
    forall k :: 0 <= k < |msgs| && msgs[k].TickMsg? ==> |msgs[k].readings| == width
  }

  /** Every tick carries one reading per motor. */
  predicate Rows(ticks: seq<seq<Option<int>>>, width: nat) {
    forall k :: 0 <= k < |ticks| ==> |ticks[k]| == width
  }

  lemma TicksOfWidthTail(msgs: seq<Msg>)
    requires msgs != []
    ensures forall width :: TicksOfWidth(msgs, width) ==> TicksOfWidth(msgs[1..], width)
  {
    forall width | TicksOfWidth(msgs, width)
      ensures TicksOfWidth(msgs[1..], width)
    {
      forall k | 0 <= k < |msgs[1..]| && msgs[1..][k].TickMsg?
        ensures |msgs[1..][k].readings| == width
      {
        assert msgs[1..][k] == msgs[k + 1];
      }
    }
  }

  /** The tick readings delivered before the first quit key. */
  function TicksBeforeQuit(msgs: seq<Msg>): (ticks: seq<seq<Option<int>>>)
    ensures |ticks| <= |msgs|
    ensures forall width :: TicksOfWidth(msgs, width) ==> Rows(ticks, width)
  {
    if msgs == [] then []
    else
      TicksOfWidthTail(msgs);
      match msgs[0]
      case Key(key) => if IsQuitKey(key) then [] else TicksBeforeQuit(msgs[1..])
      case TickMsg(readings) => [readings] + TicksBeforeQuit(msgs[1..])
      case OtherMsg => TicksBeforeQuit(msgs[1..])
  }

  /** The samples of motor i over a series of ticks. */
  function Column(ticks: seq<seq<Option<int>>>, i: nat): (samples: seq<Option<int>>)
    requires forall k :: 0 <= k < |ticks| ==> i < |ticks[k]|
    ensures |samples| == |ticks| && forall k :: 0 <= k < |ticks| ==> samples[k] == ticks[k][i]
  {
    seq(|ticks|, k requires 0 <= k < |ticks| => ticks[k][i])
  }

  lemma ReplayStep(first: int, rest: seq<Option<int>>, reading: Option<int>)
    ensures Replay(first, rest + [reading]) == Widen(Replay(first, rest), reading)
  {
    assert (rest + [reading])[..|rest|] == rest;
  }

  /** The bounds Replay records for each motor over a series of ticks. */
  function Replays(first: seq<int>, ticks: seq<seq<Option<int>>>): (bs: seq<Bounds>)
    requires Rows(ticks, |first|)
    ensures |bs| == |first|
  {
    seq(|first|, i requires 0 <= i < |first| => Replay(first[i], Column(ticks, i)))
  }

  lemma ReplaysStep(first: seq<int>, ticks: seq<seq<Option<int>>>, t: seq<Option<int>>)
    requires Rows(ticks, |first|) && |t| == |first|
    ensures Rows(ticks + [t], |first|)
    ensures Replays(first, ticks + [t]) == WidenAll(Replays(first, ticks), t)
  {
    forall i | 0 <= i < |first|
      ensures Replays(first, ticks + [t])[i] == Widen(Replays(first, ticks)[i], t[i])
    {
      assert Column(ticks + [t], i) == Column(ticks, i) + [t[i]];
      ReplayStep(first[i], Column(ticks, i), t[i]);
    }
  }

  lemma TicksBeforeQuitStep(msgs: seq<Msg>, k: nat)
    requires k < |msgs|
    ensures !(msgs[k].Key? && IsQuitKey(msgs[k].key)) && !msgs[k].TickMsg? ==>
      TicksBeforeQuit(msgs[k..]) == TicksBeforeQuit(msgs[k + 1..])
    ensures msgs[k].TickMsg? ==> TicksBeforeQuit(msgs[k..]) == [msgs[k].readings] + TicksBeforeQuit(msgs[k + 1..])
    ensures msgs[k].Key? && IsQuitKey(msgs[k].key) ==> TicksBeforeQuit(msgs[k..]) == []
  {
    assert msgs[k..][0] == msgs[k];
    assert msgs[k..][1..] == msgs[k + 1..];
  }

  /** A message other than a quit key moves the ticks seen so far one step forward. */
  lemma SeenStep(msgs: seq<Msg>, k: nat, seen: seq<seq<Option<int>>>)
    requires k < |msgs| && !(msgs[k].Key? && IsQuitKey(msgs[k].key))
    requires seen + TicksBeforeQuit(msgs[k..]) == TicksBeforeQuit(msgs)
    ensures (if msgs[k].TickMsg? then seen + [msgs[k].readings] else seen) + TicksBeforeQuit(msgs[k + 1..])
      == TicksBeforeQuit(msgs)
  {
    TicksBeforeQuitStep(msgs, k);
    if msgs[k].TickMsg? {
      assert seen + [msgs[k].readings] + TicksBeforeQuit(msgs[k + 1..])
        == seen + ([msgs[k].readings] + TicksBeforeQuit(msgs[k + 1..]));
    }
  }

  /** At the end of the messages, or at a quit key, the ticks seen are all the ticks before the quit. */
  lemma SeenDone(msgs: seq<Msg>, k: nat, seen: seq<seq<Option<int>>>)
    requires k == |msgs| || (k < |msgs| && msgs[k].Key? && IsQuitKey(msgs[k].key))
    requires seen + TicksBeforeQuit(msgs[k..]) == TicksBeforeQuit(msgs)
    ensures seen == TicksBeforeQuit(msgs)
  {
    if k < |msgs| {
      TicksBeforeQuitStep(msgs, k);
    }
    assert seen + [] == seen;
  }

  /**
   * The recording session of `calibrateArm` over a list of motors: seed the
   * recorder, let it process messages until a quit key, and build the
   * calibration, with ID i + 1 and the range Replay records for motor i.
   */
  method RecordCalibration(motors: seq<MotorName>, first: seq<int>, msgs: seq<Msg>) returns (cal: Calibration)
    requires Distinct(motors) && |first| == |motors|
    requires TicksOfWidth(msgs, |motors|)
    ensures forall n :: n in cal <==> n in motors
    ensures forall i :: 0 <= i < |motors| ==>
      cal[motors[i]] == MotorCalibration(i + 1, 0, 0, Replays(first, TicksBeforeQuit(msgs))[i].lo,
                                         Replays(first, TicksBeforeQuit(msgs))[i].hi)
  {
    var rec := new Recorder.Seed(motors, first);
    ghost var seen: seq<seq<Option<int>>> := [];
    var k := 0;
    while k < |msgs|
      invariant 0 <= k <= |msgs|
      invariant rec.Valid() && rec.motors == motors
      invariant seen + TicksBeforeQuit(msgs[k..]) == TicksBeforeQuit(msgs)
      invariant Rows(seen, |motors|)
      invariant rec.Snapshot() == Replays(first, seen)
    {
      var msg := msgs[k];
      var cmd := rec.Update(msg);
      if cmd == QuitCmd {
        SeenDone(msgs, k, seen);
        break;
      }
      SeenStep(msgs, k, seen);
      if msg.TickMsg? {
        ReplaysStep(first, seen, msg.readings);
        seen := seen + [msg.readings];
      }
      k := k + 1;
    }
    if k == |msgs| {
      SeenDone(msgs, k, seen);
    }
    cal := rec.Calibrate();
  }

  /**
   * `calibrateArm` for the six motors: a failed connection, or a failed run of
   * the recording session, ends the program with status 1 (an Err here);
   * otherwise canonical servo IDs 1 to 6 and the recorded ranges.
   */
  method CalibrateArm(connect: Outcome, session: Outcome, first: seq<int>, msgs: seq<Msg>)
    returns (r: Result<Calibration>)
    requires |first| == MotorCount
    requires TicksOfWidth(msgs, MotorCount)
    ensures connect.Fail? ==> r == Err("Error connecting to arm: " + connect.error)
    ensures connect.Pass? && session.Fail? ==> r == Err("Error running calibration: " + session.error)
    ensures r.Ok? <==> connect.Pass? && session.Pass?
    ensures r.Ok? ==> CanonicalIDs(r.value) && CalibratedIDs(r.value) == [1, 2, 3, 4, 5, 6]
    ensures r.Ok? ==> forall i :: 0 <= i < MotorCount ==>
      r.value[AllMotors()[i]] == MotorCalibration(i + 1, 0, 0, Replays(first, TicksBeforeQuit(msgs))[i].lo,
                                                  Replays(first, TicksBeforeQuit(msgs))[i].hi)
  {
    if connect.Fail? {
      return Err("Error connecting to arm: " + connect.error);
    }
    if session.Fail? {
      return Err("Error running calibration: " + session.error);
    }
    var cal := RecordCalibration(AllMotors(), first, msgs);
    CanonicalMotorIDs(cal);
    return Ok(cal);
  }
}
