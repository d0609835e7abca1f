/**
  The custom-mosaic path of eedl.py: one Earth Engine export task per sampled
  point, then a loop that polls the tasks' states until none is pending. The
  tasks' states are what `task.status()` answers; the polling loop sees them
  round by round.
*/
module Export {
  import opened Wrappers
  import Download
  import Projection

  /**
    The configuration of one `ee.batch.Export.image` task: its description
    (the file stem), file format, clip rectangle, Drive folder and projection.
  */
  datatype ExportTask = ExportTask(name: string, fileFormat: string, region: Projection.Rectangle, driveFolder: string, crs: string)

  /**
    The command-line settings the task loop reads. The loop is reached only
    with a zone key (`grid_key[-1]` raises first otherwise), and the key stands
    in for a missing `--region`, so the region name is always a string here.
  */
  datatype MosaicArgs = MosaicArgs(sensor: string, regionName: string, format: string, outPath: string,
                                   gridKey: string, hBuffer: real, vBuffer: real)

  /** The task the loop configures for the point at position `i`. */
  function TaskAt(args: MosaicArgs, proj: string, point: Projection.Point, i: nat): ExportTask
    requires args.gridKey != []
  {
    ExportTask(Download.OutStem(args.sensor, args.regionName, i), args.format,
               Projection.MakeRectangle(args.gridKey, point, args.hBuffer, Some(args.vBuffer)).value,
               args.outPath, proj)
  }

  /** The tasks the loop configures for the first |points| points, in order. */
  function Tasks(args: MosaicArgs, proj: string, points: seq<Projection.Point>): (tasks: seq<ExportTask>)
    requires args.gridKey != []
    ensures |tasks| == |points|
  {
    if points == [] then []
    else Tasks(args, proj, points[..|points| - 1]) + [TaskAt(args, proj, points[|points| - 1], |points| - 1)]
  }

  /** Task i of the list is the one configured for point i. */
  lemma {:induction false} TasksAt(args: MosaicArgs, proj: string, points: seq<Projection.Point>, i: nat)
    requires args.gridKey != [] && i < |points|
    ensures Tasks(args, proj, points)[i] == TaskAt(args, proj, points[i], i)
  {
    var n := |points| - 1;
    var prefix := points[..n];
    assert Tasks(args, proj, points) == Tasks(args, proj, prefix) + [TaskAt(args, proj, points[n], n)];
    if i < n {
      TasksAt(args, proj, prefix, i);
      assert prefix[i] == points[i];
    }
  }

  /**
    The task loop: the projection is fixed once from the zone key (an absent or
    empty key raises, modelled as None), then every point gets a rectangle of
    the given half-extents and a task named after its position; no two tasks
    share a name.
  */
  method BuildExportTasks(args: MosaicArgs, points: seq<Projection.Point>) returns (tasks: Option<seq<ExportTask>>)
    ensures tasks.None? <==> args.gridKey == []
    ensures tasks.Some? ==> |tasks.value| == |points|
    ensures tasks.Some? ==> forall i :: 0 <= i < |points| ==>
      && tasks.value[i].name == Download.OutStem(args.sensor, args.regionName, i)
      && tasks.value[i].fileFormat == args.format
      && tasks.value[i].driveFolder == args.outPath
      && Some(tasks.value[i].crs) == Projection.UtmProjection(args.gridKey)
      && Some(tasks.value[i].region) == Projection.MakeRectangle(args.gridKey, points[i], args.hBuffer, Some(args.vBuffer))
    ensures tasks.Some? ==> forall i, j :: 0 <= i < j < |points| ==> tasks.value[i].name != tasks.value[j].name
  {
    var proj := Projection.UtmProjection(args.gridKey);
    if proj.None? {
      return None;
    }
    var list: seq<ExportTask> := [];
    for i := 0 to |points|
      invariant list == Tasks(args, proj.value, points[..i])
    {
      assert points[..i + 1][..i] == points[..i];
      list := list + [TaskAt(args, proj.value, points[i], i)];
    }
    assert points[..|points|] == points;
    forall i | 0 <= i < |points|
      ensures list[i] == TaskAt(args, proj.value, points[i], i)
    {
      TasksAt(args, proj.value, points, i);
    }
    forall i, j | 0 <= i < j < |points|
      ensures list[i].name != list[j].name
    {
      if list[i].name == list[j].name {
        Download.OutStemInjective(args.sensor, args.regionName, i, j);
      }
    }
    return Some(list);
  }

  /**
    The three places that derive a projection from the zone key agree: the
    rectangle of `make_rectangle`, the `crs` that `get_url` asks for when
    neither `--crs` nor a Landsat sensor decides it, and the export task's `crs`.
  */
  lemma ProjectionSitesAgree(gridKey: string, center: Projection.Point, h: real, v: Option<real>, sensor: string)
    requires gridKey != [] && !Download.IsLandsat(sensor)
    ensures var proj := Projection.UtmProjection(gridKey).value;
      && Projection.MakeRectangle(gridKey, center, h, v).value.proj == proj
      && Projection.DownloadCrs(None, sensor, gridKey) == Some(Projection.Named(proj))
      && Projection.DownloadCrs(Some(""), sensor, gridKey) == Some(Projection.Named(proj))
  {
  }

  /**
    What one evaluation of a task's clause on line 368 observes. Every
    `task.status()` is a fresh query: `first` answers the left comparison;
    `second` answers the right one, which is evaluated only when `first` is
    "READY" (`or` stops at a true left operand).
  */
  datatype Observation = Observation(first: string, second: string)

  /** One task's clause as written: `state != 'READY' or state != 'RUNNING'`. */
  predicate SettledAsWritten(o: Observation) {
    o.first != "READY" || o.second != "RUNNING"
  }

  /** The loop condition as written: `not all([...])` over the task list. */
  predicate PollGuardAsWritten(round: seq<Observation>) {
    !(forall i :: 0 <= i < |round| ==> SettledAsWritten(round[i]))
  }

  /**
    As written, the loop waits only when some task was seen "READY" by one
    query and "RUNNING" by the very next one.
  */
  lemma AsWrittenWaitsOnlyOnRace(round: seq<Observation>)
    ensures PollGuardAsWritten(round) <==>
      exists i :: 0 <= i < |round| && round[i].first == "READY" && round[i].second == "RUNNING"
  {
  }

  /** When both queries of every task agree, the guard as written is false: no wait at all. */
  lemma StableStatesNeverWait(round: seq<Observation>)
    requires forall i :: 0 <= i < |round| ==> round[i].first == round[i].second
    ensures !PollGuardAsWritten(round)
  {
    forall i | 0 <= i < |round|
      ensures SettledAsWritten(round[i])
    {
      if round[i].first == "READY" {
        assert round[i].second == "READY";
      }
    }
  }

  /** Both queries of every task answered with the same state. */
  function AnsweredTwice(states: seq<string>): (round: seq<Observation>)
    ensures |round| == |states|
    ensures forall i :: 0 <= i < |states| ==> round[i] == Observation(states[i], states[i])
  {
    seq(|states|, i requires 0 <= i < |states| => Observation(states[i], states[i]))
  }

  /**
    For every list of task states, the empty one included, the condition as
    written is false while the states do not change between queries.
  */
  lemma GuardAsWrittenNeverHolds(states: seq<string>)
    ensures !PollGuardAsWritten(AnsweredTwice(states))
  {
    StableStatesNeverWait(AnsweredTwice(states));
  }

  /** The intended clause: a task is settled when it is neither "READY" nor "RUNNING". */
  predicate Settled(state: string) {
    state != "READY" && state != "RUNNING"
  }

  /** The intended loop condition, one status query per task. */
  predicate PollGuard(states: seq<string>) {
    !(forall i :: 0 <= i < |states| ==> Settled(states[i]))
  }

  /** Some task is still queued ("READY") or running. */
  predicate Pending(states: seq<string>) {
    exists i :: 0 <= i < |states| && (states[i] == "READY" || states[i] == "RUNNING")
  }

  /** The intended guard holds exactly while some task is still queued or running. */
  lemma PollGuardMeansPending(states: seq<string>)
    ensures PollGuard(states) <==> Pending(states)
  {
  }

  /** The states the left-hand queries reported. */
  function FirstStates(round: seq<Observation>): (states: seq<string>)
    ensures |states| == |round|
    ensures forall i :: 0 <= i < |round| ==> states[i] == round[i].first
  {
    seq(|round|, i requires 0 <= i < |round| => round[i].first)
  }

  /** Whenever the condition as written waits, the intended one waits too; not conversely. */
  lemma AsWrittenWaitsLess(round: seq<Observation>)
    ensures PollGuardAsWritten(round) ==> PollGuard(FirstStates(round))
    ensures PollGuard(FirstStates([Observation("RUNNING", "RUNNING")]))
    ensures !PollGuardAsWritten([Observation("RUNNING", "RUNNING")])
  {
    if PollGuardAsWritten(round) {
      var i :| 0 <= i < |round| && !SettledAsWritten(round[i]);
      assert !Settled(FirstStates(round)[i]);
    }
    var one := [Observation("RUNNING", "RUNNING")];
    assert !Settled(FirstStates(one)[0]);
  }

  /**
    The polling loop as written, over the rounds it would observe: it sleeps
    once per round whose guard holds and stops at the first round whose guard
    fails (`done`), or runs out of the given rounds. With stable states it never
    sleeps, whatever the tasks are doing.
  */
  method WaitAsWritten(rounds: seq<seq<Observation>>) returns (sleeps: nat, done: bool)
    ensures sleeps <= |rounds|
    ensures forall r :: 0 <= r < sleeps ==> PollGuardAsWritten(rounds[r])
    ensures done <==> sleeps < |rounds|
    ensures done ==> !PollGuardAsWritten(rounds[sleeps])
    ensures |rounds| > 0 && (forall r, i :: 0 <= r < |rounds| && 0 <= i < |rounds[r]| ==> rounds[r][i].first == rounds[r][i].second)
      ==> done && sleeps == 0
  {
    sleeps := 0;
    while sleeps < |rounds| && PollGuardAsWritten(rounds[sleeps])
      invariant sleeps <= |rounds|
      invariant forall r :: 0 <= r < sleeps ==> PollGuardAsWritten(rounds[r])
    {
      sleeps := sleeps + 1;
    }
    done := sleeps < |rounds|;
    if |rounds| > 0 && forall r, i :: 0 <= r < |rounds| && 0 <= i < |rounds[r]| ==> rounds[r][i].first == rounds[r][i].second {
      StableStatesNeverWait(rounds[0]);
    }
  }

  /**
    The polling loop with the intended condition: it sleeps while some task is
    still "READY" or "RUNNING" and stops at the first round where none is.
  */
  method WaitForTasks(rounds: seq<seq<string>>) returns (sleeps: nat, done: bool)
    ensures sleeps <= |rounds|
    ensures forall r :: 0 <= r < sleeps ==> Pending(rounds[r])
    ensures done <==> sleeps < |rounds|
    ensures done ==> !Pending(rounds[sleeps])
  {
    sleeps := 0;
    while sleeps < |rounds| && PollGuard(rounds[sleeps])
      invariant sleeps <= |rounds|
      invariant forall r :: 0 <= r < sleeps ==> Pending(rounds[r])
    {
      PollGuardMeansPending(rounds[sleeps]);
      sleeps := sleeps + 1;
    }
    done := sleeps < |rounds|;
    if done {
      PollGuardMeansPending(rounds[sleeps]);
    }
  }
}
