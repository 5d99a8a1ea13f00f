/**
 * The standalone teleoperation command (`main` of
 * cmd/lerobot-teleoperate/main.go): the leader and follower ports and
 * calibration paths come from the command-line flags, and the file saved by the
 * port scanner fills in each port whose flag was left empty. Reading and parsing
 * that file is an input.
 */
module TeleopCli {
  import opened Wrappers
  import RobotInfo

  /** The flags that choose the arms: --teleop.port/--teleop.id for the leader, --robot.port/--robot.id for the follower. */
  datatype Flags = Flags(teleopPort: string, teleopID: string, robotPort: string, robotID: string)

  /** The flag values when none is given. */
  const DefaultFlags := Flags("", "leader", "", "follower")

  /** The ports and calibration paths the controller is created with. */
  datatype Endpoints = Endpoints(leaderPort: string, leaderCalibration: string,
                                 followerPort: string, followerCalibration: string)

  /** The calibration path named after an arm ID. */
  function CalibrationPathFor(id: string): (path: string)
    ensures |path| == |id| + 17
    ensures path[..12] == "calibration/" && path[|path| - 5..] == ".json" && path[12..|path| - 5] == id
  {
    "calibration/" + id + ".json"
  }

  /**
   * The port selection of `main`: start from the flags; when a port flag is
   * empty, load the saved file (a failure to load it is an error) and take each
   * port left empty, with its calibration path, from the file.
   */
  method ResolvePorts(flags: Flags, load: Result<RobotInfo.Config>) returns (r: Result<Endpoints>)
    ensures r.Err? <==> (flags.teleopPort == "" || flags.robotPort == "") && load.Err?
    ensures r.Err? ==> r.error == "No ports specified and cannot load lerobot.json: " + load.error
    ensures flags.teleopPort != "" && flags.robotPort != "" ==>
      r == Ok(Endpoints(flags.teleopPort, CalibrationPathFor(flags.teleopID),
                        flags.robotPort, CalibrationPathFor(flags.robotID)))
    ensures r.Ok? && flags.teleopPort != "" ==>
      r.value.leaderPort == flags.teleopPort && r.value.leaderCalibration == CalibrationPathFor(flags.teleopID)
    ensures r.Ok? && flags.teleopPort == "" ==>
      r.value.leaderPort == load.value.leader.port && r.value.leaderCalibration == load.value.leader.calibration
    ensures r.Ok? && flags.robotPort != "" ==>
      r.value.followerPort == flags.robotPort && r.value.followerCalibration == CalibrationPathFor(flags.robotID)
    ensures r.Ok? && flags.robotPort == "" ==>
      r.value.followerPort == load.value.follower.port && r.value.followerCalibration == load.value.follower.calibration
  {
    var leaderPort := flags.teleopPort;
    var leaderCalib := CalibrationPathFor(flags.teleopID);
    var followerPort := flags.robotPort;
    var followerCalib := CalibrationPathFor(flags.robotID);
    if leaderPort == "" || followerPort == "" {
      if load.Err? {
        return Err("No ports specified and cannot load " + RobotInfo.ConfigFile + ": " + load.error);
      }
      var cfg := load.value;
      if leaderPort == "" {
        leaderPort := cfg.leader.port;
        leaderCalib := cfg.leader.calibration;
      }
      if followerPort == "" {
        followerPort := cfg.follower.port;
        followerCalib := cfg.follower.calibration;
      }
    }
    return Ok(Endpoints(leaderPort, leaderCalib, followerPort, followerCalib));
  }

  /**
   * The default IDs name the same calibration files the port scanner saves, so
   * a file it wrote and the default flags lead to the same paths.
   */
  lemma DefaultPathsMatchSavedPaths()
    ensures CalibrationPathFor(DefaultFlags.teleopID) == RobotInfo.LeaderCalibrationPath
    ensures CalibrationPathFor(DefaultFlags.robotID) == RobotInfo.FollowerCalibrationPath
  {
    assert "calibration/" + "leader" == "calibration/leader";
    assert "calibration/" + "follower" == "calibration/follower";
  }
}
