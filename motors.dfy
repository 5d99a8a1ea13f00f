/** The motor catalogue of the SO-101 arm (pkg/robot/motors.go). */
module Motors {

  /** A motor name. Calibration files may use any string as a key, so this is not an enumeration. */
  type MotorName = string

  const ShoulderPan: MotorName := "shoulder_pan"
  const ShoulderLift: MotorName := "shoulder_lift"
  const ElbowFlex: MotorName := "elbow_flex"
  const WristFlex: MotorName := "wrist_flex"
  const WristRoll: MotorName := "wrist_roll"
  const Gripper: MotorName := "gripper"

  /** No motor name occurs twice. */
  predicate Distinct(motors: seq<MotorName>) {
    forall i, j :: 0 <= i < j < |motors| ==> motors[i] != motors[j]
  }

  /** Number of motors, and of servos, in one arm. */
  const MotorCount: nat := 6

  /** All motor names in canonical order; the motor at index i is driven by servo i + 1. */
  function AllMotors(): (r: seq<MotorName>)
    ensures |r| == MotorCount
    ensures forall i, j :: 0 <= i < j < |r| ==> r[i] != r[j]
  {
    [ShoulderPan, ShoulderLift, ElbowFlex, WristFlex, WristRoll, Gripper]
  }

  /** The servo ID of a canonical motor: one more than its index in AllMotors. */
  function ServoOf(name: MotorName): (id: int)
    requires name in AllMotors()
    ensures 1 <= id <= MotorCount
    ensures AllMotors()[id - 1] == name
  {
    if name == ShoulderPan then 1
    else if name == ShoulderLift then 2
    else if name == ElbowFlex then 3
    else if name == WristFlex then 4
    else if name == WristRoll then 5
    else 6
  }

}
