/** Replaying a recorded sequence and executing a planned mission, as the schedule of
    sends they issue: each entry says how long to wait and then which token to send. */
module Schedules {
  import opened Common
  import opened Controls
  import opened Classifiers

  /** A recorded send: the token and the epoch time in milliseconds when it went out. */
  datatype Step = Step(cmd: string, timestamp: int)

  /** Wait `delay` milliseconds, then send `cmd`. */
  datatype Timed = Timed(delay: int, cmd: string)

  /** The fixed wait after each leg of a mission, in milliseconds. */
  const MissionDwell := 1000

  // ----- Replay -----

  /** The replay of `steps` when the previous step went out at `last`: each step waits
      for the gap since the one before it, and a stop follows at once after the last. */
  function ReplayFrom(last: int, steps: seq<Step>): (r: seq<Timed>)
    ensures |r| == |steps| + 1
    ensures r[|steps|] == Timed(0, StopToken)
    ensures forall i :: 0 <= i < |steps| ==>
      r[i] == Timed(steps[i].timestamp - (if i == 0 then last else steps[i - 1].timestamp), steps[i].cmd)
    decreases |steps|
  {
    if steps == [] then [Timed(0, StopToken)]
    else [Timed(steps[0].timestamp - last, steps[0].cmd)] + ReplayFrom(steps[0].timestamp, steps[1..])
  }

  /** What playing a saved sequence does: nothing for an empty one (reading the first
      timestamp throws before anything is sent), otherwise a replay timed from the first step. */
  function ReplaySchedule(sequence: seq<Step>): (r: Option<seq<Timed>>)
    ensures r.None? <==> sequence == []
    ensures r.Some? ==> |r.value| == |sequence| + 1 && r.value[|sequence|] == Timed(0, StopToken)
  {
    if sequence == [] then None else Some(ReplayFrom(sequence[0].timestamp, sequence))
  }

  /** The replay loop: `lastTime` starts at the first timestamp and follows each step. */
  method PlaySequence(sequence: seq<Step>) returns (schedule: Option<seq<Timed>>)
    ensures schedule == ReplaySchedule(sequence)
  {
    if |sequence| == 0 {
      return None;
    }
    var lastTime := sequence[0].timestamp;
    var sends: seq<Timed> := [];
    for i := 0 to |sequence|
      invariant |sends| == i
      invariant lastTime == sequence[if i == 0 then 0 else i - 1].timestamp
      invariant forall k :: 0 <= k < i ==>
        sends[k] == Timed(sequence[k].timestamp - sequence[if k == 0 then 0 else k - 1].timestamp, sequence[k].cmd)
    {
      var step := sequence[i];
      var delay := step.timestamp - lastTime;
      sends := sends + [Timed(delay, step.cmd)];
      lastTime := step.timestamp;
    }
    sends := sends + [Timed(0, StopToken)];
    ghost var expected := ReplayFrom(sequence[0].timestamp, sequence);
    forall k | 0 <= k < |expected| ensures sends[k] == expected[k] {
      if k < |sequence| {
        assert sends[k] == Timed(sequence[k].timestamp - sequence[if k == 0 then 0 else k - 1].timestamp, sequence[k].cmd);
      }
    }
    assert sends == expected;
    schedule := Some(sends);
  }

  /** Total waiting time over a schedule. */
  function TotalDelay(s: seq<Timed>): int
  {
    if s == [] then 0 else TotalDelay(s[..|s| - 1]) + s[|s| - 1].delay
  }

  /** A replay reproduces the recording's timing exactly: step `k` goes out
      `timestamp[k] - timestamp[0]` milliseconds after the first, and the steps go out
      in recorded order followed by one stop. */
  lemma {:induction false} ReplayKeepsRelativeTiming(sequence: seq<Step>, k: nat)
    requires k < |sequence|
    ensures ReplaySchedule(sequence).Some?
    ensures var s := ReplaySchedule(sequence).value;
      TotalDelay(s[..k + 1]) == sequence[k].timestamp - sequence[0].timestamp
      && s[k].cmd == sequence[k].cmd && s[|s| - 1].cmd == StopToken
  {
    var s := ReplaySchedule(sequence).value;
    if k > 0 {
      ReplayKeepsRelativeTiming(sequence, k - 1);
      assert s[..k + 1][..k] == s[..k];
    }
  }

  // ----- Mission -----

  /** A point the user placed on the planner grid. */
  datatype Point = Point(x: real, y: real)

  /** The mission loop. `bearing(a, b)` stands for `atan2(b.y - a.y, b.x - a.x)` in degrees,
      which is computed outside the model. Fewer than two points send nothing; otherwise
      each leg sends the direction of its sector, each send is followed by the dwell, and
      a stop ends the run. */
  method ExecuteMission(commands: CommandMap, path: seq<Point>, bearing: (Point, Point) -> real)
    returns (schedule: seq<Timed>)
    ensures |path| < 2 ==> schedule == []
    ensures |path| >= 2 ==> |schedule| == |path| && schedule[|path| - 1] == Timed(MissionDwell, StopToken)
    ensures |path| >= 2 ==> forall i :: 0 <= i < |path| - 1 ==>
      schedule[i] == Timed(if i == 0 then 0 else MissionDwell,
                           Lookup(commands, HeadingControl(Sector(bearing(path[i], path[i + 1])))))
  {
    if |path| < 2 {
      return [];
    }
    schedule := [];
    var wait := 0;
    for i := 0 to |path| - 1
      invariant |schedule| == i
      invariant wait == if i == 0 then 0 else MissionDwell
      invariant forall k :: 0 <= k < i ==>
        schedule[k] == Timed(if k == 0 then 0 else MissionDwell,
                             Lookup(commands, HeadingControl(Sector(bearing(path[k], path[k + 1])))))
    {
      var angle := bearing(path[i], path[i + 1]);
      var cmd := Lookup(commands, PadUp);
      if angle > -45.0 && angle <= 45.0 {
        cmd := Lookup(commands, PadRight);
      } else if angle > 45.0 && angle <= 135.0 {
        cmd := Lookup(commands, PadDown);
      } else if angle > -135.0 && angle <= -45.0 {
        cmd := Lookup(commands, PadUp);
      } else {
        cmd := Lookup(commands, PadLeft);
      }
      schedule := schedule + [Timed(wait, cmd)];
      wait := MissionDwell;
    }
    schedule := schedule + [Timed(wait, StopToken)];
  }
}
