/**
 * Per-motor calibration and the affine map between raw servo units and the
 * normalized range [-100, 100] (pkg/robot/calibration.go).
 */
module Calibrations {
  import opened Wrappers
  import opened Motors

  /** Calibration of one motor; driveMode and homingOffset are carried but never interpreted. */
  datatype MotorCalibration = MotorCalibration(id: int, driveMode: int, homingOffset: int, rangeMin: int, rangeMax: int)

  /** Calibration of an arm, keyed by motor name. */
  type Calibration = map<MotorName, MotorCalibration>

  /** The zero value of MotorCalibration, returned by a failed lookup. */
  const NoCalibration := MotorCalibration(0, 0, 0, 0, 0)

  function Width(c: MotorCalibration): int {
    c.rangeMax - c.rangeMin
  }

  /** Go's float-to-int conversion: truncation toward zero. */
  function Trunc(x: real): (t: int)
    ensures 0.0 <= x ==> t as real <= x < t as real + 1.0
    ensures x < 0.0 ==> t as real - 1.0 < x <= t as real
  {
    if x >= 0.0 then x.Floor else -((-x).Floor)
  }

  /** Raw position to normalized position; 0 for a zero-width range, no clamping. */
  function Normalize(c: MotorCalibration, raw: int): (r: real)
    ensures Width(c) == 0 ==> r == 0.0
  {
    var rangeSize := (c.rangeMax - c.rangeMin) as real;
    if rangeSize == 0.0 then 0.0 else ((raw - c.rangeMin) as real / rangeSize) * 200.0 - 100.0
  }

  /** Normalized position to raw position: the scaled offset truncated toward zero, plus rangeMin. */
  function Denormalize(c: MotorCalibration, norm: real): (raw: int)
    ensures Width(c) == 0 ==> raw == c.rangeMin
  {
    Trunc(Scaled(norm, (c.rangeMax - c.rangeMin) as real)) + c.rangeMin
  }

  /** The offset from rangeMin, before truncation, of a normalized position in a range of the given width. */
  function Scaled(norm: real, rangeSize: real): real {
    (norm + 100.0) / 200.0 * rangeSize
  }

  /** Normalize is the affine map fixed by (rangeMin, -100) and (rangeMax, 100). */
  lemma NormalizeScale(c: MotorCalibration, raw: int)
    requires Width(c) != 0
    ensures (Normalize(c, raw) + 100.0) * Width(c) as real == 200.0 * (raw - c.rangeMin) as real
  {
    var w := Width(c) as real;
    var d := (raw - c.rangeMin) as real;
    assert Normalize(c, raw) + 100.0 == d / w * 200.0;
    assert d / w * w == d;
  }

  lemma TruncExact(n: int)
    ensures Trunc(n as real) == n
  {
  }

  /** rangeMin maps to -100, rangeMax to 100 and the midpoint to 0. */
  lemma NormalizeEndpoints(c: MotorCalibration, mid: int)
    requires Width(c) != 0
    ensures Normalize(c, c.rangeMin) == -100.0
    ensures Normalize(c, c.rangeMax) == 100.0
    ensures 2 * mid == c.rangeMin + c.rangeMax ==> Normalize(c, mid) == 0.0
  {
    var w := Width(c) as real;
    assert (c.rangeMax - c.rangeMin) as real / w == 1.0;
    if 2 * mid == c.rangeMin + c.rangeMax {
      assert (mid - c.rangeMin) as real * 2.0 == w;
      assert (mid - c.rangeMin) as real / w == 0.5;
    }
  }

  /** A zero-width range normalizes every raw value to 0. */
  lemma NormalizeDegenerate(c: MotorCalibration, raw: int)
    requires c.rangeMin == c.rangeMax
    ensures Normalize(c, raw) == 0.0
  {
  }

  /** Normalize is affine: differences of raw values scale by 200 / width. */
  lemma NormalizeAffine(c: MotorCalibration, a: int, b: int)
    requires Width(c) != 0
    ensures Normalize(c, a) - Normalize(c, b) == (a - b) as real * 200.0 / Width(c) as real
  {
    var w := Width(c) as real;
    calc {
      Normalize(c, a) - Normalize(c, b);
      ((a - c.rangeMin) as real / w) * 200.0 - ((b - c.rangeMin) as real / w) * 200.0;
      ((a - c.rangeMin) as real - (b - c.rangeMin) as real) / w * 200.0;
      (a - b) as real * 200.0 / w;
    }
  }

  /** With a positive width, Normalize is strictly increasing. */
  lemma NormalizeStrictlyIncreasing(c: MotorCalibration, a: int, b: int)
    requires Width(c) > 0 && a < b
    ensures Normalize(c, a) < Normalize(c, b)
  {
    NormalizeAffine(c, b, a);
    assert (b - a) as real * 200.0 / Width(c) as real > 0.0;
  }

  /** No clamping: raw values beyond the recorded range leave [-100, 100]. */
  lemma NormalizeUnclamped(c: MotorCalibration, raw: int)
    requires Width(c) > 0
    ensures raw > c.rangeMax ==> Normalize(c, raw) > 100.0
    ensures raw < c.rangeMin ==> Normalize(c, raw) < -100.0
    ensures c.rangeMin <= raw <= c.rangeMax ==> -100.0 <= Normalize(c, raw) <= 100.0
  {
    NormalizeEndpoints(c, c.rangeMin);
    if raw > c.rangeMax {
      NormalizeStrictlyIncreasing(c, c.rangeMax, raw);
    } else if raw < c.rangeMin {
      NormalizeStrictlyIncreasing(c, raw, c.rangeMin);
    } else {
      if raw > c.rangeMin { NormalizeStrictlyIncreasing(c, c.rangeMin, raw); }
      if raw < c.rangeMax { NormalizeStrictlyIncreasing(c, raw, c.rangeMax); }
    }
  }

  /** -100 maps to rangeMin, 100 to rangeMax and 0 to rangeMin plus half the width truncated. */
  lemma DenormalizeEndpoints(c: MotorCalibration)
    ensures Denormalize(c, -100.0) == c.rangeMin
    ensures Denormalize(c, 100.0) == c.rangeMax
    ensures Denormalize(c, 0.0) == c.rangeMin + Trunc(Width(c) as real / 2.0)
    ensures Width(c) % 2 == 0 ==> 2 * Denormalize(c, 0.0) == c.rangeMin + c.rangeMax
  {
    TruncExact(Width(c));
    TruncExact(0);
    if Width(c) % 2 == 0 {
      TruncExact(Width(c) / 2);
      assert Width(c) as real / 2.0 == (Width(c) / 2) as real;
    }
  }

  /** With a positive width, Denormalize never decreases as norm grows. */
  lemma DenormalizeMonotone(c: MotorCalibration, x: real, y: real)
    requires Width(c) > 0 && x <= y
    ensures Denormalize(c, x) <= Denormalize(c, y)
  {
    var w := (c.rangeMax - c.rangeMin) as real;
    ScaleMonotone(x, y, w);
    TruncMonotone(Scaled(x, w), Scaled(y, w));
  }

  lemma ScaleMonotone(x: real, y: real, w: real)
    requires x <= y && 0.0 <= w
    ensures Scaled(x, w) <= Scaled(y, w)
  {
    assert ((y + 100.0) / 200.0 - (x + 100.0) / 200.0) * w >= 0.0;
  }

  lemma TruncMonotone(x: real, y: real)
    requires x <= y
    ensures Trunc(x) <= Trunc(y)
  {
  }

  /** With a positive width, normalized values in [-100, 100] map into [rangeMin, rangeMax]. */
  lemma DenormalizeWithinRange(c: MotorCalibration, norm: real)
    requires Width(c) > 0 && -100.0 <= norm <= 100.0
    ensures c.rangeMin <= Denormalize(c, norm) <= c.rangeMax
  {
    DenormalizeEndpoints(c);
    DenormalizeMonotone(c, -100.0, norm);
    DenormalizeMonotone(c, norm, 100.0);
  }

  /**
   * Round trip: Denormalize undoes Normalize exactly for every raw value in
   * [rangeMin, rangeMax], and for every raw value at all when the width is not zero.
   */
  lemma RoundTrip(c: MotorCalibration, raw: int)
    ensures Width(c) != 0 ==> Denormalize(c, Normalize(c, raw)) == raw
    ensures c.rangeMin <= raw <= c.rangeMax ==> Denormalize(c, Normalize(c, raw)) == raw
  {
    var w := Width(c) as real;
    var d := (raw - c.rangeMin) as real;
    if w != 0.0 {
      var n := Normalize(c, raw);
      assert n == (d / w) * 200.0 - 100.0;
      assert (n + 100.0) / 200.0 == d / w;
      assert (n + 100.0) / 200.0 * w == d;
      TruncExact(raw - c.rangeMin);
    } else {
      TruncExact(0);
    }
  }

  /** The examples for the range 1000..3000. */
  lemma ExampleRange1000To3000()
    ensures var c := MotorCalibration(0, 0, 0, 1000, 3000);
      && Normalize(c, 1000) == -100.0 && Normalize(c, 3000) == 100.0 && Normalize(c, 2000) == 0.0
      && Normalize(c, 1500) == -50.0 && Normalize(c, 2500) == 50.0
      && Denormalize(c, -100.0) == 1000 && Denormalize(c, 100.0) == 3000 && Denormalize(c, 0.0) == 2000
      && Denormalize(c, -50.0) == 1500 && Denormalize(c, 50.0) == 2500
  {
    var c := MotorCalibration(0, 0, 0, 1000, 3000);
    TruncExact(0); TruncExact(500); TruncExact(1000); TruncExact(1500); TruncExact(2000);
  }

  /** The names of `names`, in order, that have an entry in `cal`. */
  function CalibratedNames(cal: Calibration, names: seq<MotorName>): (r: seq<MotorName>)
    ensures |r| <= |names|
    ensures forall n :: n in r <==> n in names && n in cal
    decreases |names|
  {
    if names == [] then []
    else
      var last := names[|names| - 1];
      CalibratedNames(cal, names[..|names| - 1]) + (if last in cal then [last] else [])
  }

  /** The IDs of the canonical motors present in `cal`, in AllMotors order. */
  function CalibratedIDs(cal: Calibration): seq<int> {
    var names := CalibratedNames(cal, AllMotors());
    seq(|names|, i requires 0 <= i < |names| => cal[names[i]].id)
  }

  /** The loop of MotorIDs over a list of names: append the ID of each calibrated one. */
  method CollectIDs(cal: Calibration, names: seq<MotorName>) returns (ids: seq<int>)
    ensures |ids| == |CalibratedNames(cal, names)|
    ensures forall i :: 0 <= i < |ids| ==> ids[i] == cal[CalibratedNames(cal, names)[i]].id
  {
    ids := [];
    for k := 0 to |names|
      invariant |ids| == |CalibratedNames(cal, names[..k])|
      invariant forall i :: 0 <= i < |ids| ==> ids[i] == cal[CalibratedNames(cal, names[..k])[i]].id
    {
      assert names[..k + 1][..k] == names[..k];
      if names[k] in cal {
        ids := ids + [cal[names[k]].id];
      }
    }
    assert names[..|names|] == names;
  }

  /** MotorIDs: the IDs of the calibrated canonical motors, in AllMotors order, one per motor present. */
  method MotorIDs(cal: Calibration) returns (ids: seq<int>)
    ensures |ids| == |CalibratedNames(cal, AllMotors())|
    ensures forall i :: 0 <= i < |ids| ==> ids[i] == cal[CalibratedNames(cal, AllMotors())[i]].id
    ensures ids == CalibratedIDs(cal)
    ensures |ids| == |PresentNames(cal, AllMotors())|
  {
    ids := CollectIDs(cal, AllMotors());
    MotorIDsCount(cal);
  }

  /** One ID per calibrated canonical motor. */
  lemma MotorIDsCount(cal: Calibration)
    ensures |CalibratedNames(cal, AllMotors())| == |PresentNames(cal, AllMotors())|
  {
    CalibratedNamesCount(cal, AllMotors());
  }

  lemma {:induction false} CalibratedNamesAll(cal: Calibration, names: seq<MotorName>)
    ensures |CalibratedNames(cal, names)| == |names| <==> forall n :: n in names ==> n in cal
    decreases |names|
  {
    if names != [] {
      var init := names[..|names| - 1];
      CalibratedNamesAll(cal, init);
      assert names == init + [names[|names| - 1]];
    }
  }

  /** When every name is calibrated, none is dropped. */
  lemma {:induction false} CalibratedNamesTotal(cal: Calibration, names: seq<MotorName>)
    requires forall n :: n in names ==> n in cal
    ensures CalibratedNames(cal, names) == names
    decreases |names|
  {
    if names != [] {
      var init, last := names[..|names| - 1], names[|names| - 1];
      assert names == init + [last];
      CalibratedNamesTotal(cal, init);
      assert last in cal;
    }
  }

  /** Over distinct names, each calibrated name is kept exactly once. */
  lemma {:induction false} CalibratedNamesCount(cal: Calibration, names: seq<MotorName>)
    requires Distinct(names)
    ensures Distinct(CalibratedNames(cal, names))
    ensures |CalibratedNames(cal, names)| == |PresentNames(cal, names)|
    decreases |names|
  {
    if names != [] {
      var init, last := names[..|names| - 1], names[|names| - 1];
      DistinctSplit(names);
      CalibratedNamesCount(cal, init);
      PresentNamesStep(cal, names);
    }
  }

  /** The calibrated names among `names`, as a set. */
  ghost function PresentNames(cal: Calibration, names: seq<MotorName>): set<MotorName> {
    set n | n in names && n in cal
  }

  lemma PresentNamesStep(cal: Calibration, names: seq<MotorName>)
    requires names != []
    ensures PresentNames(cal, names) ==
      PresentNames(cal, names[..|names| - 1]) + (if names[|names| - 1] in cal then {names[|names| - 1]} else {})
  {
    assert names == names[..|names| - 1] + [names[|names| - 1]];
  }

  /** A distinct list without its last name is distinct and lacks that name. */
  lemma DistinctSplit(names: seq<MotorName>)
    requires names != [] && Distinct(names)
    ensures Distinct(names[..|names| - 1]) && names[|names| - 1] !in names[..|names| - 1]
  {
  }

  /** `x` occurs in `names` before some occurrence of `y`. */
  ghost predicate Before(names: seq<MotorName>, x: MotorName, y: MotorName) {
    exists a, b :: 0 <= a < b < |names| && names[a] == x && names[b] == y
  }

  /** Every pair of entries of `r` occurs in the same order in `names`. */
  ghost predicate InOrderOf(r: seq<MotorName>, names: seq<MotorName>) {
    forall i, j :: 0 <= i < j < |r| ==> Before(names, r[i], r[j])
  }

  /** The kept names appear in the same relative order as in `names`. */
  lemma {:induction false} CalibratedNamesInOrder(cal: Calibration, names: seq<MotorName>)
    ensures InOrderOf(CalibratedNames(cal, names), names)
    decreases |names|
  {
    if names != [] {
      var init, last := names[..|names| - 1], names[|names| - 1];
      CalibratedNamesInOrder(cal, init);
      var r0 := CalibratedNames(cal, init);
      var r := CalibratedNames(cal, names);
      assert r == r0 + (if last in cal then [last] else []);
      forall i, j | 0 <= i < j < |r|
        ensures Before(names, r[i], r[j])
      {
        if j < |r0| {
          assert Before(init, r0[i], r0[j]);
          var a, b :| 0 <= a < b < |init| && init[a] == r0[i] && init[b] == r0[j];
          assert names[a] == r[i] && names[b] == r[j];
        } else {
          assert r[i] == r0[i] && r0[i] in init;
          var a :| 0 <= a < |init| && init[a] == r0[i];
          assert names[a] == r[i] && names[|names| - 1] == r[j];
        }
      }
    }
  }

  /** At most six IDs, exactly six iff every canonical motor is calibrated. */
  lemma CalibratedIDsCount(cal: Calibration)
    ensures |CalibratedIDs(cal)| <= MotorCount
    ensures |CalibratedIDs(cal)| == MotorCount <==> forall n :: n in AllMotors() ==> n in cal
  {
    CalibratedNamesAll(cal, AllMotors());
  }

  /** No two entries of the calibration share a servo ID. */
  ghost predicate UniqueIDs(cal: Calibration) {
    forall a, b :: a in cal && b in cal && cal[a].id == cal[b].id ==> a == b
  }

  /** The calibration of canonical motor i has servo ID i + 1. */
  ghost predicate CanonicalIDs(cal: Calibration) {
    && (forall n :: n in cal <==> n in AllMotors())
    && (forall i :: 0 <= i < MotorCount ==> cal[AllMotors()[i]].id == i + 1)
  }

  /** Canonical IDs are unique. */
  lemma CanonicalIDsUnique(cal: Calibration)
    requires CanonicalIDs(cal)
    ensures UniqueIDs(cal)
  {
    forall a, b | a in cal && b in cal && cal[a].id == cal[b].id
      ensures a == b
    {
      var i, j := ServoOf(a) - 1, ServoOf(b) - 1;
      assert cal[AllMotors()[i]].id == i + 1;
      assert cal[AllMotors()[j]].id == j + 1;
    }
  }

  /** With canonical IDs, MotorIDs lists 1..6 in order. */
  lemma CanonicalMotorIDs(cal: Calibration)
    requires CanonicalIDs(cal)
    ensures CalibratedIDs(cal) == [1, 2, 3, 4, 5, 6]
  {
    var m := AllMotors();
    assert forall n :: n in m ==> n in cal;
    IDsOfTotal(cal, m);
    var ids := CalibratedIDs(cal);
    assert |ids| == MotorCount && forall i :: 0 <= i < MotorCount ==> ids[i] == i + 1;
    ServoSequence(ids);
  }

  /** The sequence of servo IDs 1 to 6, element by element. */
  lemma ServoSequence(s: seq<int>)
    requires |s| == MotorCount && forall i :: 0 <= i < MotorCount ==> s[i] == i + 1
    ensures s == [1, 2, 3, 4, 5, 6]
  {
  }

  /** When every name is calibrated, the IDs are those of all the names, in order. */
  lemma IDsOfTotal(cal: Calibration, names: seq<MotorName>)
    requires forall n :: n in names ==> n in cal
    ensures var c := CalibratedNames(cal, names);
      c == names && seq(|c|, i requires 0 <= i < |c| => cal[c[i]].id) == seq(|names|, i requires 0 <= i < |names| => cal[names[i]].id)
  {
    CalibratedNamesTotal(cal, names);
  }

  /** ByID: search the calibration for an entry with the given servo ID, in unspecified order. */
  method ByID(cal: Calibration, id: int) returns (name: MotorName, mc: MotorCalibration, found: bool)
    ensures found <==> exists n :: n in cal && cal[n].id == id
    ensures found ==> name in cal && cal[name] == mc && mc.id == id
    ensures !found ==> name == "" && mc == NoCalibration
    ensures found && UniqueIDs(cal) ==> forall n :: n in cal && cal[n].id == id ==> n == name
  {
    var remaining := cal.Keys;
    while remaining != {}
      invariant remaining <= cal.Keys
      invariant forall n :: n in cal && n !in remaining ==> cal[n].id != id
      decreases remaining
    {
      var n :| n in remaining;
      if cal[n].id == id {
        return n, cal[n], true;
      }
      remaining := remaining - {n};
    }
    return "", NoCalibration, false;
  }
}
