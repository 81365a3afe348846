/** The temperature/humidity saver: a `saving` flag switched by two routes, and the
    background loop that, while the flag is set, asks the cache for a sample and appends
    one line per sample to a file. The thread, the delay between lines and the file itself
    are not modelled; the loop is modelled as the sequence of rows it appends, one loop
    iteration at a time, with each iteration's flag observation, clock readings and sensor
    answer given as parameters. */
module Saver {
  import opened Common
  import TelemetryCache

  const AlreadyActive := Response(400, Text("save_temp_humidity already active"))
  const ThreadCreated := Response(201, Text("Thread created"))
  const AlreadyStopped := Response(400, Text("save_temp_humidity already stopped"))
  const ThreadRemoved := Response(200, Text("Thread removed"))

  /** The flag after a start/stop request, the reply, and whether a saver thread was
      launched. */
  datatype Transition = Transition(saving: bool, response: Response, spawned: bool)

  /** Starting the saver: refused while it is already saving, otherwise the flag is set
      and one thread is launched. */
  function Start(saving: bool): (t: Transition)
    ensures t.saving
    ensures t.spawned <==> !saving
    ensures saving ==> t.response == AlreadyActive
    ensures !saving ==> t.response == ThreadCreated
  {
    if saving then Transition(saving, AlreadyActive, false)
    else Transition(true, ThreadCreated, true)
  }

  /** Stopping the saver: refused while it is not saving, otherwise the flag is cleared.
      No thread is launched, and the running one is not waited for. */
  function Stop(saving: bool): (t: Transition)
    ensures !t.saving && !t.spawned
    ensures !saving ==> t.response == AlreadyStopped
    ensures saving ==> t.response == ThreadRemoved
  {
    if !saving then Transition(saving, AlreadyStopped, false)
    else Transition(false, ThreadRemoved, false)
  }

  /** A start accepted and then a stop: the saver is back to not saving, both accepted. */
  lemma StartThenStop()
    ensures Start(false).response == ThreadCreated
    ensures Stop(Start(false).saving) == Transition(false, ThreadRemoved, false)
  {
  }

  datatype Command = StartCmd | StopCmd

  /** The flag after a run of requests, with how many threads were launched and how many
      stops were accepted. */
  datatype Tally = Tally(saving: bool, spawned: nat, stopped: nat)

  function RunCommands(saving: bool, cmds: seq<Command>): Tally
    decreases |cmds|
  {
    if |cmds| == 0 then Tally(saving, 0, 0)
    else
      var t := if cmds[0].StartCmd? then Start(saving) else Stop(saving);
      var rest := RunCommands(t.saving, cmds[1..]);
      Tally(rest.saving,
            rest.spawned + (if t.spawned then 1 else 0),
            rest.stopped + (if t.response == ThreadRemoved then 1 else 0))
  }

  /** Launches and accepted stops alternate: starting from a stopped saver, every launch
      but possibly the last is matched by an accepted stop, and the unmatched one exists
      exactly when the saver ends up saving. */
  lemma {:induction false} LaunchesMatchStops(saving: bool, cmds: seq<Command>)
    ensures var t := RunCommands(saving, cmds);
      (if saving then 1 else 0) + t.spawned == t.stopped + (if t.saving then 1 else 0)
    decreases |cmds|
  {
    if |cmds| > 0 {
      var t := if cmds[0].StartCmd? then Start(saving) else Stop(saving);
      LaunchesMatchStops(t.saving, cmds[1..]);
    }
  }

  /** Whatever came before, the flag ends up as the last request asked: saving after a
      start (accepted or not), not saving after a stop. */
  lemma {:induction false} LastCommandDecides(saving: bool, cmds: seq<Command>)
    requires |cmds| > 0
    ensures RunCommands(saving, cmds).saving <==> cmds[|cmds| - 1].StartCmd?
    decreases |cmds|
  {
    var t := if cmds[0].StartCmd? then Start(saving) else Stop(saving);
    if |cmds| > 1 {
      LastCommandDecides(t.saving, cmds[1..]);
      assert cmds[1..][|cmds| - 2] == cmds[|cmds| - 1];
    }
  }

  /** A row of the save file: the header line, or one sample as
      `"<time>, <temperature>, <humidity>"` (the number formatting is not modelled). */
  datatype Row = Header | Record(time: real, temperature: real, humidity: real)

  function RowOf(s: TelemetryCache.Sample): Row {
    Record(s.time, s.temperature, s.humidity)
  }

  /** What the thread writes before its loop: the header, only when the file is missing. */
  function Prologue(fileExists: bool): (rows: seq<Row>)
    ensures |rows| <= 1
    ensures rows == [Header] <==> !fileExists
  {
    if fileExists then [] else [Header]
  }

  /** The configuration keys the thread reads before anything else. */
  const FileKey := "temp_humidity_save_file"
  const IntervalKey := "temp_humidity_save_interval"

  /** What the thread finds when it starts: the configuration keys present, whether the
      save-file value is something `os.path.isfile` accepts (a path, not say `None`),
      whether the interval is something `time.sleep` accepts (a non-negative number),
      whether the save file exists, and whether appending the header to it would succeed. */
  datatype Setup = Setup(configKeys: set<string>, pathValid: bool, intervalValid: bool,
                         fileExists: bool, headerAppends: bool)

  /** The thread's start-up: `None` when it raises (a missing configuration key, a
      save-file value that is not a path, or a header that cannot be written), otherwise
      the rows it writes. A bad interval only raises later, at the first sleep. */
  function Startup(setup: Setup): (rows: Option<seq<Row>>)
    ensures rows.None? <==>
              FileKey !in setup.configKeys || IntervalKey !in setup.configKeys ||
              !setup.pathValid || (!setup.fileExists && !setup.headerAppends)
    ensures rows.Some? ==> rows.value == Prologue(setup.fileExists)
  {
    if FileKey !in setup.configKeys || IntervalKey !in setup.configKeys then None
    else if !setup.pathValid then None
    else if !setup.fileExists && !setup.headerAppends then None
    else Some(Prologue(setup.fileExists))
  }

  /** One pass of the loop: the flag it observes, the clock readings the cache takes, what
      the sensor would answer, and whether opening the file and appending the line would
      succeed. */
  datatype Tick = Tick(saving: bool, now: real, readTime: real,
                       reading: Option<TelemetryCache.Reading>, appends: bool)

  /** The loop saw the flag cleared and left; the cache request or the file append raised,
      which ends the thread; or it appended one row. */
  datatype Iteration =
    | Exit
    | Crash(cache: TelemetryCache.Cache)
    | Wrote(cache: TelemetryCache.Cache, row: Row)

  function Iterate(cache: TelemetryCache.Cache, tick: Tick): (it: Iteration)
    ensures it.Exit? <==> !tick.saving
    ensures it.Crash? <==>
              tick.saving &&
              ((TelemetryCache.Expired(cache, tick.now) && tick.reading.None?) || !tick.appends)
    ensures it.Crash? && tick.reading.None? ==> it.cache == cache
    ensures it.Wrote? ==> it.cache.Some? && it.row == RowOf(it.cache.value)
    ensures !it.Exit? && !TelemetryCache.Expired(cache, tick.now) ==> it.cache == cache
    ensures it.Wrote? && TelemetryCache.Expired(cache, tick.now) ==>
              it.row == Record(tick.readTime, tick.reading.value.temperature,
                               tick.reading.value.humidity)
  {
    if !tick.saving then Exit
    else
      var f := TelemetryCache.Get(cache, tick.now, tick.readTime, tick.reading);
      if f.result.None? || !tick.appends then Crash(f.cache)
      else Wrote(f.cache, RowOf(f.result.value))
  }

  /** The thread never writes the flag, so after it crashes the saver still reads as
      saving with nothing recording: any number of starts is refused and launches no
      thread, until a stop clears the flag and the next start launches one again. */
  lemma {:induction false} CrashBlocksRestartUntilStop(cache: TelemetryCache.Cache, tick: Tick,
                                                       starts: seq<Command>)
    requires Iterate(cache, tick).Crash?
    requires forall i :: 0 <= i < |starts| ==> starts[i].StartCmd?
    ensures tick.saving
    ensures RunCommands(tick.saving, starts) == Tally(true, 0, 0)
    ensures RunCommands(tick.saving, starts + [StopCmd, StartCmd]) == Tally(true, 1, 1)
    decreases |starts|
  {
    var tail := [StopCmd, StartCmd];
    if |starts| == 0 {
      assert starts + tail == tail;
      assert tail[1..] == [StartCmd];
      assert RunCommands(false, [StartCmd]) == Tally(true, 1, 0);
    } else {
      assert Start(true).saving && !Start(true).spawned && Start(true).response != ThreadRemoved;
      assert (starts + tail)[0] == starts[0];
      assert (starts + tail)[1..] == starts[1..] + tail;
      CrashBlocksRestartUntilStop(cache, tick, starts[1..]);
    }
  }

  /** How the thread stopped within the ticks given: it saw the flag cleared, it crashed,
      or it was still going when the ticks ran out. */
  datatype End = Exited | Crashed | StillRunning

  datatype Trace = Trace(cache: TelemetryCache.Cache, rows: seq<Row>, end: End)

  /** The loop run over a series of ticks. `sleeps` says whether `time.sleep(interval)`
      returns; when it raises, the thread dies right after writing its first row. */
  function Loop(cache: TelemetryCache.Cache, ticks: seq<Tick>, sleeps: bool): (t: Trace)
    ensures |t.rows| <= |ticks|
    ensures forall i :: 0 <= i < |t.rows| ==> t.rows[i].Record? && ticks[i].saving
    ensures !sleeps ==> |t.rows| <= 1
    ensures t.end.StillRunning? ==> |t.rows| == |ticks| && (sleeps || |ticks| == 0)
    ensures t.end.Exited? ==> |t.rows| < |ticks| && !ticks[|t.rows|].saving
    ensures t.end.Crashed? ==>
              || (&& |t.rows| < |ticks| && ticks[|t.rows|].saving
                  && (ticks[|t.rows|].reading.None? || !ticks[|t.rows|].appends))
              || (!sleeps && |t.rows| == 1)
    decreases |ticks|
  {
    if |ticks| == 0 then Trace(cache, [], StillRunning)
    else
      match Iterate(cache, ticks[0])
      case Exit => Trace(cache, [], Exited)
      case Crash(c) => Trace(c, [], Crashed)
      case Wrote(c, row) =>
        if !sleeps then Trace(c, [row], Crashed)
        else
          var rest := Loop(c, ticks[1..], sleeps);
          Trace(rest.cache, [row] + rest.rows, rest.end)
  }

  /** One saver thread from start-up: it dies at once if the start-up raises, otherwise it
      writes the header when the file was missing and then runs the loop. */
  function Thread(setup: Setup, cache: TelemetryCache.Cache, ticks: seq<Tick>): Trace
  {
    match Startup(setup)
    case None => Trace(cache, [], Crashed)
    case Some(header) =>
      var loop := Loop(cache, ticks, setup.intervalValid);
      Trace(loop.cache, header + loop.rows, loop.end)
  }

  /** The file a thread produces has at most one header, at the front, exactly when the
      thread got past start-up and the file did not exist; every other row is a record;
      an interval the sleep rejects lets at most one record through. */
  lemma ThreadShape(setup: Setup, cache: TelemetryCache.Cache, ticks: seq<Tick>)
    ensures var t := Thread(setup, cache, ticks);
      && (|t.rows| > 0 && t.rows[0] == Header <==> Startup(setup).Some? && !setup.fileExists)
      && (forall i :: 0 < i < |t.rows| ==> t.rows[i].Record?)
      && |t.rows| <= |ticks| + 1
      && (Startup(setup).None? ==> t.rows == [] && t.end.Crashed?)
      && (!setup.intervalValid ==> |t.rows| <= |Prologue(setup.fileExists)| + 1)
  {
  }
}
