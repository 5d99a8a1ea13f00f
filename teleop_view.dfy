/**
 * The terminal view of teleoperation (the `teleopModel` of
 * cmd/lerobot/teleoperate.go, repeated as `model` in
 * cmd/lerobot-teleoperate/main.go): it keeps the last few log messages, draws a
 * state's positions only when they moved, sizes the chart from the terminal,
 * and checks the configuration before teleoperation starts. Rendering is not
 * modelled; the chart is the sequence of readings pushed to it.
 */
module TeleopView {
  import opened Wrappers
  import opened Motors
  import opened Calibrations
  import opened RobotConfig
  import opened Teleop

  /** Number of log messages shown. */
  const MaxLogs: nat := 5
  const HeaderHeight := 2
  const LegendHeight := 2
  const FooterHeight := 7
  const BorderSize := 2

  /** The last MaxLogs messages of `all`, oldest first; all of them when there are fewer. */
  function Recent(all: seq<string>): (r: seq<string>)
    ensures |r| == if |all| < MaxLogs then |all| else MaxLogs
    ensures r == all[|all| - |r|..]
  {
    if |all| > MaxLogs then all[|all| - MaxLogs..] else all
  }

  /** Trimming before or after appending keeps the same recent messages. */
  lemma RecentAppend(all: seq<string>, msg: string)
    ensures Recent(Recent(all) + [msg]) == Recent(all + [msg])
  {
    if |all| > MaxLogs {
      var r := all[|all| - MaxLogs..];
      var tail := all[|all| - (MaxLogs - 1)..];
      assert Recent(all) == r;
      assert (r + [msg])[1..] == tail + [msg];
      assert Recent(r + [msg]) == (r + [msg])[1..];
      assert Recent(all + [msg]) == (all + [msg])[|all| - (MaxLogs - 1)..];
      assert (all + [msg])[|all| - (MaxLogs - 1)..] == tail + [msg];
    }
  }

  /** The chart size for a terminal: 80 by 20 before the size is known, else the terminal less the frame, at least 40 by 10. */
  function ChartSize(width: int, height: int): (dims: (int, int))
    ensures width == 0 || height == 0 ==> dims == (80, 20)
    ensures width != 0 && height != 0 ==>
      && dims.0 >= 40 && dims.1 >= 10
      && (width - 4 >= 40 ==> dims.0 == width - 4) && (width - 4 < 40 ==> dims.0 == 40)
      && (height - 13 >= 10 ==> dims.1 == height - 13) && (height - 13 < 10 ==> dims.1 == 10)
  {
    if width == 0 || height == 0 then (80, 20)
    else
      var w := width - BorderSize - 2;
      var h := height - HeaderHeight - LegendHeight - FooterHeight - BorderSize;
      (if w < 40 then 40 else w, if h < 10 then 10 else h)
  }

  /** A reading is movement when there was no previous one, or some motor is new or at a new position. */
  predicate Moved(last: Option<Positions>, positions: Positions) {
    last.None? || exists n :: n in positions && (n !in last.value || positions[n] != last.value[n])
  }

  /** The same reading twice is not movement, and nor is one that only drops motors. */
  lemma StillReadings(last: Positions, positions: Positions)
    requires forall n :: n in positions ==> n in last && last[n] == positions[n]
    ensures !Moved(Some(last), positions)
    ensures !Moved(Some(positions), positions)
  {
  }

  /** A first reading, a new motor or a changed position is movement. */
  lemma MovingReadings(last: Positions, positions: Positions, n: MotorName)
    requires n in positions
    ensures Moved(None, positions)
    ensures n !in last ==> Moved(Some(last), positions)
    ensures n in last && last[n] != positions[n] ==> Moved(Some(last), positions)
  {
  }

  /** The messages the view handles. */
  datatype ViewMsg =
    | WindowSize(width: int, height: int)
    | KeyPress(key: string)
    | StateMsg(state: State)
    | LogMsg(text: string)
    | OtherMsg

  /** The command returned by Update: none, quit, or wait for the next state or log message. */
  datatype ViewCmd = NoCmd | QuitCmd | WaitForState | WaitForLog

  /** The view model: terminal size, recent logs, quitting, the last drawn positions and the chart. */
  class View {
    var width: int
    var height: int
    var logs: seq<string>
    /** Every message logged, oldest first. */
    ghost var history: seq<string>
    var quitting: bool
    var lastPositions: Option<Positions>
    /** The readings pushed to the chart, oldest first. */
    var drawn: seq<Positions>
    var chartDims: (int, int)

    ghost predicate Valid()
      reads this
    {
      logs == Recent(history)
    }

    /** The initial model: unknown terminal size, a chart of 80 by 20, nothing logged or drawn. */
    constructor Initial()
      ensures Valid() && history == [] && logs == []
      ensures width == 0 && height == 0 && !quitting && lastPositions == None && drawn == []
      ensures chartDims == (80, 20)
    {
      width, height := 0, 0;
      logs := [];
      history := [];
      quitting := false;
      lastPositions := None;
      drawn := [];
      chartDims := (80, 20);
    }

    /** `addLog`: append the message, then keep only the last MaxLogs. */
    method AddLog(msg: string)
      requires Valid()
      modifies this
      ensures Valid() && history == old(history) + [msg]
      ensures |logs| <= MaxLogs && logs[|logs| - 1] == msg
      ensures width == old(width) && height == old(height) && quitting == old(quitting)
      ensures lastPositions == old(lastPositions) && drawn == old(drawn) && chartDims == old(chartDims)
    {
      logs := logs + [msg];
      if |logs| > MaxLogs {
        logs := logs[|logs| - MaxLogs..];
      }
      RecentAppend(history, msg);
      history := history + [msg];
    }

    /** `hasMovement`: true on the first reading, else as soon as one motor is new or has moved. */
    method HasMovement(positions: Positions) returns (moved: bool)
      ensures moved == Moved(lastPositions, positions)
    {
      if lastPositions.None? {
        return true;
      }
      var last := lastPositions.value;
      var rest := positions.Keys;
      while rest != {}
        invariant rest <= positions.Keys
        invariant forall n :: n in positions && n !in rest ==> n in last && positions[n] == last[n]
        decreases |rest|
      {
        var name :| name in rest;
        if name !in last || positions[name] != last[name] {
          return true;
        }
        rest := rest - {name};
      }
      return false;
    }

    /**
     * `Update`: a resize records the terminal size and resizes the chart; "q" or
     * "ctrl+c" quits; a state with positions is drawn only when it moved; a log
     * message is added to the recent logs.
     */
    method Update(msg: ViewMsg) returns (cmd: ViewCmd)
      requires Valid()
      modifies this
      ensures Valid()
      ensures msg.WindowSize? ==>
        && cmd == NoCmd && width == msg.width && height == msg.height
        && chartDims == ChartSize(msg.width, msg.height)
        && logs == old(logs) && history == old(history) && quitting == old(quitting)
        && lastPositions == old(lastPositions) && drawn == old(drawn)
      ensures msg.KeyPress? && (msg.key == "q" || msg.key == "ctrl+c") ==>
        && cmd == QuitCmd && quitting
        && width == old(width) && height == old(height) && chartDims == old(chartDims)
        && logs == old(logs) && history == old(history)
        && lastPositions == old(lastPositions) && drawn == old(drawn)
      ensures (msg.KeyPress? && msg.key != "q" && msg.key != "ctrl+c") || msg.OtherMsg? ==>
        cmd == NoCmd && unchanged(this)
      ensures msg.StateMsg? ==> cmd == WaitForState
      ensures msg.StateMsg? && (msg.state.positions.None? || !Moved(old(lastPositions), msg.state.positions.value)) ==>
        unchanged(this)
      ensures msg.StateMsg? && msg.state.positions.Some? && Moved(old(lastPositions), msg.state.positions.value) ==>
        && lastPositions == msg.state.positions && drawn == old(drawn) + [msg.state.positions.value]
        && width == old(width) && height == old(height) && chartDims == old(chartDims)
        && logs == old(logs) && history == old(history) && quitting == old(quitting)
      ensures msg.LogMsg? ==>
        && cmd == WaitForLog && history == old(history) + [msg.text]
        && width == old(width) && height == old(height) && chartDims == old(chartDims)
        && quitting == old(quitting) && lastPositions == old(lastPositions) && drawn == old(drawn)
    {
      match msg
      case WindowSize(w, h) =>
        width, height := w, h;
        chartDims := ChartSize(width, height);
        return NoCmd;
      case KeyPress(key) =>
        if key == "q" || key == "ctrl+c" {
          quitting := true;
          return QuitCmd;
        }
        return NoCmd;
      case StateMsg(state) =>
        if state.positions.Some? {
          var moved := HasMovement(state.positions.value);
          if moved {
            drawn := drawn + [state.positions.value];
            lastPositions := state.positions;
          }
        }
        return WaitForState;
      case LogMsg(text) =>
        AddLog(text);
        return WaitForLog;
      case OtherMsg =>
        return NoCmd;
    }
  }

  const NoConfiguration := "No configuration found. Run 'lerobot setup' first."
  const NotConfigured := "Arms not configured. Run 'lerobot setup' first."
  const NotCalibrated := "Arms not calibrated. Run 'lerobot setup' first."

  /**
   * The checks `Execute` makes before creating the controller, each of which
   * exits with status 1: the configuration must load, both ports must be set
   * and both arms must be calibrated.
   */
  function ExecuteChecks(loaded: Result<Config>): (r: Outcome)
    ensures r.Pass? <==>
      && loaded.Ok? && loaded.value.leader.port != "" && loaded.value.follower.port != ""
      && IsCalibrated(loaded.value.leader) && IsCalibrated(loaded.value.follower)
    ensures loaded.Err? ==> r == Fail("No configuration found. Run 'lerobot setup' first.")
    ensures loaded.Ok? && (loaded.value.leader.port == "" || loaded.value.follower.port == "") ==>
      r == Fail("Arms not configured. Run 'lerobot setup' first.")
    ensures loaded.Ok? && loaded.value.leader.port != "" && loaded.value.follower.port != ""
      && !(IsCalibrated(loaded.value.leader) && IsCalibrated(loaded.value.follower))
      ==> r == Fail("Arms not calibrated. Run 'lerobot setup' first.")
  {
    if loaded.Err? then Fail(NoConfiguration)
    else if loaded.value.leader.port == "" || loaded.value.follower.port == "" then Fail(NotConfigured)
    else if !IsCalibrated(loaded.value.leader) || !IsCalibrated(loaded.value.follower) then Fail(NotCalibrated)
    else Pass
  }

  /** Ports found but not yet calibrated are refused; ports with the six-motor calibrations are accepted. */
  lemma ExecuteAfterSetup(leaderPort: string, followerPort: string, leaderCal: Calibration, followerCal: Calibration)
    requires leaderPort != "" && followerPort != ""
    requires CanonicalIDs(leaderCal) && CanonicalIDs(followerCal)
    ensures ExecuteChecks(Ok(Config(ArmConfig(leaderPort, map[]), ArmConfig(followerPort, map[]))))
      == Fail("Arms not calibrated. Run 'lerobot setup' first.")
    ensures ExecuteChecks(Ok(Config(ArmConfig(leaderPort, leaderCal), ArmConfig(followerPort, followerCal)))) == Pass
  {
    assert AllMotors()[0] in leaderCal && AllMotors()[0] in followerCal;
  }
}
