/** The arm configuration written by setup and read by teleoperation (pkg/robot/config.go). */
module RobotConfig {
  import opened Calibrations

  datatype ArmConfig = ArmConfig(port: string, calibration: Calibration)

  datatype Config = Config(leader: ArmConfig, follower: ArmConfig)

  const DefaultConfigFile := "lerobot.json"

  /** An arm counts as calibrated when its calibration has at least one entry. */
  predicate IsCalibrated(a: ArmConfig) {
    |a.calibration| > 0
  }
}
