/**
 * One robot arm: a bus connection bound to the calibrated servo IDs, with
 * batched position reads and writes in normalized units (pkg/robot/arm.go).
 * The servo bus itself is not modelled: each bus call is an input value.
 */
module Arms {
  import opened Wrappers
  import opened Motors
  import opened Calibrations

  /**
   * `p` is a possible result of converting the raw sample `raw` (servo ID to raw
   * position): every entry is a calibrated motor whose ID was sampled, normalized
   * with its own calibration; every sampled ID that some calibrated motor has is
   * represented; and there are no more entries than samples.
   */
  ghost predicate IsReading(cal: Calibration, raw: map<int, int>, p: map<MotorName, real>) {
    && (forall n :: n in p ==> n in cal && cal[n].id in raw && p[n] == Normalize(cal[n], raw[cal[n].id]))
    && (forall id :: id in raw && KnownID(cal, id) ==> Represented(cal, p, id))
    && |p| <= |raw|
  }

  /** Some calibrated motor has servo ID `id`. */
  ghost predicate KnownID(cal: Calibration, id: int) {
    exists n :: n in cal && cal[n].id == id
  }

  /** Some motor of `p` has servo ID `id` according to `cal`. */
  ghost predicate Represented(cal: Calibration, p: map<MotorName, real>, id: int) {
    exists m :: m in p && m in cal && cal[m].id == id
  }

  /** The loop state of ReadPositions after converting the samples of the IDs in `done`. */
  ghost predicate PartialReading(cal: Calibration, raw: map<int, int>, done: set<int>, p: map<MotorName, real>) {
    && done <= raw.Keys
    && (forall n :: n in p ==> n in cal && cal[n].id in done && p[n] == Normalize(cal[n], raw[cal[n].id]))
    && (forall id :: id in done && KnownID(cal, id) ==> Represented(cal, p, id))
    && |p| <= |done|
  }

  /** Once every sample is converted, the loop state is a reading. */
  lemma ReadingComplete(cal: Calibration, raw: map<int, int>, p: map<MotorName, real>)
    requires PartialReading(cal, raw, raw.Keys, p)
    ensures IsReading(cal, raw, p)
  {
    assert |raw.Keys| == |raw|;
  }

  /** Converting one more sample, as ByID resolves it, keeps PartialReading. */
  lemma ReadingStep(cal: Calibration, raw: map<int, int>, done: set<int>, p: map<MotorName, real>,
                    id: int, name: MotorName, found: bool)
    requires PartialReading(cal, raw, done, p)
    requires id in raw && id !in done
    requires found <==> KnownID(cal, id)
    requires found ==> name in cal && cal[name].id == id
    ensures PartialReading(cal, raw, done + {id}, if found then p[name := Normalize(cal[name], raw[id])] else p)
  {
    assert |done + {id}| == |done| + 1;
    if found {
      assert name !in p;
      var q := p[name := Normalize(cal[name], raw[id])];
      assert |q| == |p| + 1;
      assert Represented(cal, q, id);
      forall i | i in done + {id} && KnownID(cal, i)
        ensures Represented(cal, q, i)
      {
        if i != id {
          var m :| m in p && m in cal && cal[m].id == i;
          assert m in q;
        }
      }
    }
  }

  /** The reading when IDs are unique: every calibrated motor whose ID was sampled. */
  function NormalizedReading(cal: Calibration, raw: map<int, int>): map<MotorName, real> {
    map n | n in cal && cal[n].id in raw :: Normalize(cal[n], raw[cal[n].id])
  }

  /** With unique IDs the reading does not depend on the map iteration order. */
  lemma ReadingIsDetermined(cal: Calibration, raw: map<int, int>, p: map<MotorName, real>)
    requires UniqueIDs(cal) && IsReading(cal, raw, p)
    ensures p == NormalizedReading(cal, raw)
  {
    forall n | n in cal && cal[n].id in raw
      ensures n in p
    {
      assert KnownID(cal, cal[n].id);
      var m :| m in p && m in cal && cal[m].id == cal[n].id;
    }
  }

  /**
   * `sent` is a possible raw batch for the normalized targets `positions`: every
   * calibrated target contributes its servo ID, and every ID carries the
   * denormalized value of some calibrated target with that ID.
   */
  ghost predicate IsCommand(cal: Calibration, positions: map<MotorName, real>, sent: map<int, int>) {
    && (forall n :: n in positions && n in cal ==> cal[n].id in sent)
    && (forall id :: id in sent ==>
          exists n :: n in positions && n in cal && cal[n].id == id && sent[id] == Denormalize(cal[n], positions[n]))
  }

  /** With unique IDs each calibrated target is written at its own ID, and nothing else is written. */
  lemma CommandIsDetermined(cal: Calibration, positions: map<MotorName, real>, sent: map<int, int>)
    requires UniqueIDs(cal) && IsCommand(cal, positions, sent)
    ensures forall n :: n in positions && n in cal ==> sent[cal[n].id] == Denormalize(cal[n], positions[n])
    ensures sent.Keys == set n | n in positions && n in cal :: cal[n].id
  {
    forall n | n in positions && n in cal
      ensures sent[cal[n].id] == Denormalize(cal[n], positions[n])
    {
      var m :| m in positions && m in cal && cal[m].id == cal[n].id && sent[cal[n].id] == Denormalize(cal[m], positions[m]);
    }
    forall id | id in sent
      ensures id in set n | n in positions && n in cal :: cal[n].id
    {
      var m :| m in positions && m in cal && cal[m].id == id && sent[id] == Denormalize(cal[m], positions[m]);
    }
  }

  class Arm {
    const port: string
    /** The servo IDs of the group the arm drives. */
    const group: seq<int>
    const calibration: Calibration
    /** Whether the bus connection is still open. */
    var open: bool

    constructor Bind(port: string, calibration: Calibration, group: seq<int>)
      ensures this.port == port && this.calibration == calibration && this.group == group
      ensures open
    {
      this.port := port;
      this.calibration := calibration;
      this.group := group;
      open := true;
    }

    /** Close: closes the bus; `bus` is what closing the bus reports. */
    method Close(bus: Outcome) returns (r: Outcome)
      modifies this
      ensures !open && r == bus
    {
      open := false;
      r := bus;
    }

    /** ReadPositions: one batched read (`bus`), converted to normalized positions. */
    method ReadPositions(bus: Result<map<int, int>>) returns (r: Result<map<MotorName, real>>)
      ensures bus.Err? ==> r == Err("read positions: " + bus.error)
      ensures bus.Ok? ==> r.Ok? && IsReading(calibration, bus.value, r.value)
    {
      if bus.Err? {
        return Err("read positions: " + bus.error);
      }
      var raw := bus.value;
      var positions: map<MotorName, real> := map[];
      var remaining := raw.Items;
      ghost var done: set<int> := {};
      while remaining != {}
        invariant remaining <= raw.Items && done <= raw.Keys
        invariant forall id :: id in raw ==> (id in done <==> (id, raw[id]) !in remaining)
        invariant PartialReading(calibration, raw, done, positions)
        decreases remaining
      {
        var entry :| entry in remaining;
        var (id, sample) := entry;
        assert id in raw && raw[id] == sample;
        var name, mc, ok := ByID(calibration, id);
        ReadingStep(calibration, raw, done, positions, id, name, ok);
        if ok {
          positions := positions[name := Normalize(mc, sample)];
        }
        remaining := remaining - {entry};
        done := done + {id};
      }
      forall id | id in raw
        ensures id in done
      {
        assert (id, raw[id]) !in remaining;
      }
      assert done == raw.Keys;
      ReadingComplete(calibration, raw, positions);
      return Ok(positions);
    }

    /**
     * WritePositions: denormalizes the calibrated targets into one raw batch
     * (`sent`, what is handed to the bus) and reports the bus write outcome `bus`.
     */
    method WritePositions(positions: map<MotorName, real>, bus: Outcome) returns (sent: map<int, int>, r: Outcome)
      ensures IsCommand(calibration, positions, sent)
      ensures bus.Fail? ==> r == Fail("write positions: " + bus.error)
      ensures bus.Pass? ==> r == Pass
    {
      sent := map[];
      var remaining := positions.Keys;
      while remaining != {}
        invariant remaining <= positions.Keys
        invariant forall n :: n in positions && n !in remaining && n in calibration ==> calibration[n].id in sent
        invariant forall id :: id in sent ==>
          exists n :: n in positions && n in calibration && calibration[n].id == id
            && sent[id] == Denormalize(calibration[n], positions[n])
        decreases remaining
      {
        var name :| name in remaining;
        if name in calibration {
          var mc := calibration[name];
          sent := sent[mc.id := Denormalize(mc, positions[name])];
        }
        remaining := remaining - {name};
      }
      r := if bus.Fail? then Fail("write positions: " + bus.error) else Pass;
    }
  }

  /** NewArm: opens the bus (`busOpen` is its outcome) and binds the group to MotorIDs. */
  method NewArm(port: string, cal: Calibration, busOpen: Outcome) returns (r: Result<Arm>)
    ensures busOpen.Fail? ==> r == Err("open bus: " + busOpen.error)
    ensures busOpen.Pass? ==>
      && r.Ok? && fresh(r.value) && r.value.open
      && r.value.port == port && r.value.calibration == cal && r.value.group == CalibratedIDs(cal)
  {
    if busOpen.Fail? {
      return Err("open bus: " + busOpen.error);
    }
    var ids := MotorIDs(cal);
    var arm := new Arm.Bind(port, cal, ids);
    return Ok(arm);
  }
}
