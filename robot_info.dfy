/**
 * The port scanner (cmd/robot-info/main.go): each found SO-101 arm is wiggled
 * and the user names its role; the leader and follower ports are then saved,
 * with fixed calibration paths, to the file read by the teleoperation
 * command. The arm scan, the wiggle and the form are inputs (Setup.Visit); the
 * SO-101 check of the scan is Setup.IsSOArm.
 */
module RobotInfo {
  import opened Wrappers
  import Setup

  /** One arm's entry in the saved file: its port and the path of its calibration file. */
  datatype PortConfig = PortConfig(port: string, calibration: string)

  /** The saved file: the leader and the follower. */
  datatype Config = Config(leader: PortConfig, follower: PortConfig)

  const ConfigFile := "lerobot.json"
  const LeaderCalibrationPath := "calibration/leader.json"
  const FollowerCalibrationPath := "calibration/follower.json"

  /** The options of the role form, always all three, in this order. */
  const RoleChoices := ["leader", "follower", "skip"]

  /**
   * The role named for one arm: none without servo 1, when reading or enabling
   * it failed, when the form returned an error, or when "skip" was chosen.
   */
  function RoleOf(v: Setup.Visit): (role: string)
    ensures role == "" || role == "leader" || role == "follower"
    ensures role == "leader" <==>
      1 in Setup.ServoIDs(v.servos) && v.wiggle.Pass? && v.answer.Selected? && v.answer.cursor == 0
    ensures role == "follower" <==>
      1 in Setup.ServoIDs(v.servos) && v.wiggle.Pass? && v.answer.Selected? && v.answer.cursor == 1
  {
    if 1 !in Setup.ServoIDs(v.servos) || v.wiggle.Fail? || v.answer.Aborted? then ""
    else
      var choice := Setup.Pick(RoleChoices, v.answer.cursor);
      if choice == "skip" then "" else choice
  }

  /** `identifyArmWithWiggle`: find servo 1, wiggle it, then ask. */
  method IdentifyArm(v: Setup.Visit) returns (role: string)
    ensures role == RoleOf(v)
  {
    var servo := Setup.FindWiggleServo(v.servos);
    if servo.None? {
      return "";
    }
    if v.wiggle.Fail? {
      return "";
    }
    if v.answer.Aborted? {
      return "";
    }
    role := Setup.Pick(RoleChoices, v.answer.cursor);
    if role == "skip" {
      return "";
    }
  }

  /**
   * The leader and follower ports after asking about arms k and onwards, starting
   * from ports (leader, follower): each answer overwrites the port of its role,
   * and asking stops as soon as both ports are set.
   */
  function AssignFrom(arms: seq<Setup.Visit>, k: nat, leader: string, follower: string): (ports: (string, string))
    requires k <= |arms|
    decreases |arms| - k
  {
    if k == |arms| then (leader, follower)
    else
      var role := RoleOf(arms[k]);
      var leader' := if role == "leader" then arms[k].port else leader;
      var follower' := if role == "follower" then arms[k].port else follower;
      if leader' != "" && follower' != "" then (leader', follower')
      else AssignFrom(arms, k + 1, leader', follower')
  }

  /** The ports assigned by asking about every found arm. */
  function Assigned(arms: seq<Setup.Visit>): (string, string) {
    AssignFrom(arms, 0, "", "")
  }

  /** The assignment loop of `main`, with its early break. */
  method AssignRoles(arms: seq<Setup.Visit>) returns (leaderPort: string, followerPort: string)
    ensures (leaderPort, followerPort) == Assigned(arms)
  {
    leaderPort, followerPort := "", "";
    var k := 0;
    while k < |arms|
      invariant k <= |arms|
      invariant AssignFrom(arms, k, leaderPort, followerPort) == Assigned(arms)
    {
      var role := IdentifyArm(arms[k]);
      if role == "leader" {
        leaderPort := arms[k].port;
      } else if role == "follower" {
        followerPort := arms[k].port;
      }
      if leaderPort != "" && followerPort != "" {
        break;
      }
      k := k + 1;
    }
  }

  /** What `main` ends with: its exit status, and the configuration handed to `saveConfig`, if any. */
  datatype Report = Report(exitCode: int, written: Option<Config>)

  /**
   * `main` after the arm scan: identify the arms, exit with status 1 when no arm
   * was found or none was identified, and save only when both roles are known;
   * a failed save exits with status 1.
   */
  method Run(arms: seq<Setup.Visit>, save: Outcome) returns (out: Report)
    ensures out.exitCode == 0 || out.exitCode == 1
    ensures |arms| == 0 ==> out == Report(1, None)
    ensures Assigned(arms) == ("", "") ==> out == Report(1, None)
    ensures out.written.Some? <==> Assigned(arms).0 != "" && Assigned(arms).1 != ""
    ensures out.written.Some? ==>
      out.written.value == Config(PortConfig(Assigned(arms).0, "calibration/leader.json"),
                                  PortConfig(Assigned(arms).1, "calibration/follower.json"))
    ensures out.exitCode == 1 <==> Assigned(arms) == ("", "") || (out.written.Some? && save.Fail?)
  {
    if |arms| == 0 {
      return Report(1, None);
    }
    var leaderPort, followerPort := AssignRoles(arms);
    if leaderPort == "" && followerPort == "" {
      return Report(1, None);
    }
    if leaderPort != "" && followerPort != "" {
      var config := Config(PortConfig(leaderPort, LeaderCalibrationPath),
                           PortConfig(followerPort, FollowerCalibrationPath));
      if save.Fail? {
        return Report(1, Some(config));
      }
      return Report(0, Some(config));
    }
    return Report(0, None);
  }

  /** A port that ends up assigned to a role is the port of an arm that was named for it. */
  lemma {:induction false} AssignedFromArms(arms: seq<Setup.Visit>, k: nat, leader: string, follower: string)
    requires k <= |arms|
    ensures var ports := AssignFrom(arms, k, leader, follower);
      && (ports.0 == leader || exists i :: k <= i < |arms| && RoleOf(arms[i]) == "leader" && arms[i].port == ports.0)
      && (ports.1 == follower || exists i :: k <= i < |arms| && RoleOf(arms[i]) == "follower" && arms[i].port == ports.1)
    decreases |arms| - k
  {
    if k < |arms| {
      var role := RoleOf(arms[k]);
      var leader' := if role == "leader" then arms[k].port else leader;
      var follower' := if role == "follower" then arms[k].port else follower;
      if !(leader' != "" && follower' != "") {
        AssignedFromArms(arms, k + 1, leader', follower');
      }
    }
  }

  /**
   * With non-empty port names, a role once assigned stays assigned, and a role
   * that some arm was named for is assigned at the end.
   */
  lemma {:induction false} AssignedNotMissed(arms: seq<Setup.Visit>, k: nat, leader: string, follower: string)
    requires k <= |arms|
    requires forall i :: 0 <= i < |arms| ==> arms[i].port != ""
    ensures leader != "" || (exists i :: k <= i < |arms| && RoleOf(arms[i]) == "leader") ==>
      AssignFrom(arms, k, leader, follower).0 != ""
    ensures follower != "" || (exists i :: k <= i < |arms| && RoleOf(arms[i]) == "follower") ==>
      AssignFrom(arms, k, leader, follower).1 != ""
    decreases |arms| - k
  {
    if k < |arms| {
      var role := RoleOf(arms[k]);
      var leader' := if role == "leader" then arms[k].port else leader;
      var follower' := if role == "follower" then arms[k].port else follower;
      if !(leader' != "" && follower' != "") {
        AssignedNotMissed(arms, k + 1, leader', follower');
      }
    }
  }

  /** When exactly one arm is named leader, the leader port is that arm's port. */
  lemma SingleLeader(arms: seq<Setup.Visit>, i: nat)
    requires i < |arms| && RoleOf(arms[i]) == "leader"
    requires forall j :: 0 <= j < |arms| && j != i ==> RoleOf(arms[j]) != "leader"
    requires forall j :: 0 <= j < |arms| ==> arms[j].port != ""
    ensures Assigned(arms).0 == arms[i].port
  {
    AssignedFromArms(arms, 0, "", "");
    AssignedNotMissed(arms, 0, "", "");
  }
}
