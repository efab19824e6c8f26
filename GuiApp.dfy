/** The single-pair watcher without a tray (`app-watcher-gui.py`). Same state as the
    tray variant, but its monitor loop is `while self.watching`: it ends at the first
    read of a cleared flag, and there is no pause or resume. */
module GuiApp {
  import Paths
  import EdgeTrigger
  import WatchConfig

  /** What the monitor thread meets between two reads of `watching`: one pass with the
      process names it listed, or a click on "Stop Watching" on the UI thread. */
  datatype Moment = Poll(running: seq<string>) | StopClicked

  /** The run as the edge-trigger engine sees it; a stop clears `watching` as a pause
      would, and nothing in this variant sets it again. */
  function Controls(target: string, schedule: seq<Moment>): (cs: seq<EdgeTrigger.Control>)
    ensures |cs| == |schedule|
    ensures forall k :: 0 <= k < |cs| ==> !cs[k].Resume?
    ensures forall k :: 0 <= k < |schedule| ==>
      cs[k] == if schedule[k].Poll? then EdgeTrigger.Poll(EdgeTrigger.Present(target, schedule[k].running))
               else EdgeTrigger.Pause
  {
    seq(|schedule|, k requires 0 <= k < |schedule| =>
      match schedule[k]
      case Poll(running) => EdgeTrigger.Poll(EdgeTrigger.Present(target, running))
      case StopClicked => EdgeTrigger.Pause)
  }

  /** With `watching` clear and nothing to set it again, no later pass launches. */
  lemma {:induction false} StoppedRunLaunchesNothing(launched: bool, cs: seq<EdgeTrigger.Control>)
    requires forall k :: 0 <= k < |cs| ==> !cs[k].Resume?
    ensures EdgeTrigger.CountLaunches(EdgeTrigger.Engine(false, launched), cs) == 0
    ensures EdgeTrigger.Run(EdgeTrigger.Engine(false, launched), cs) == EdgeTrigger.Engine(false, launched)
    decreases |cs|
  {
    if cs != [] {
      StoppedRunLaunchesNothing(launched, cs[1..]);
    }
  }

  class AppWatcher {
    var watchPath: string
    var launchPath: string
    var targetProcessName: string
    var watching: bool
    var alreadyLaunched: bool
    var configFile: WatchConfig.ConfigFile
    ghost var launches: seq<string>
    /** How many monitor threads `start_watching` has spawned. */
    ghost var loopsStarted: nat

    /** `__init__`: empty paths, both flags clear, then `load_config`. */
    constructor (file: WatchConfig.ConfigFile)
      ensures WatchConfig.Settings(watchPath, launchPath)
        == WatchConfig.Load(file, WatchConfig.Settings("", ""))
      ensures targetProcessName == "" && !watching && !alreadyLaunched
      ensures configFile == file && launches == [] && loopsStarted == 0
    {
      var loaded := WatchConfig.Load(file, WatchConfig.Settings("", ""));
      watchPath, launchPath := loaded.watchPath, loaded.launchPath;
      targetProcessName := "";
      watching, alreadyLaunched := false, false;
      configFile := file;
      launches, loopsStarted := [], 0;
    }

    /** `start_watching`, given the text of the two entry fields. An empty field shows
        an error and changes nothing; otherwise the paths are taken and saved, the target
        becomes the file name of the watch path, the flag is reset and a monitor loop
        starts. */
    method StartWatching(watchEntry: string, launchEntry: string) returns (started: bool)
      modifies this
      ensures started <==> watchEntry != "" && launchEntry != ""
      ensures !started ==> unchanged(this)
      ensures started ==> watchPath == watchEntry && launchPath == launchEntry
      ensures started ==> targetProcessName == Paths.Basename(watchEntry)
      ensures started ==> configFile == WatchConfig.Saved(watchEntry, launchEntry)
      ensures started ==> watching && !alreadyLaunched
      ensures started ==> launches == old(launches) && loopsStarted == old(loopsStarted) + 1
    {
      if watchEntry == "" || launchEntry == "" {
        return false;
      }
      watchPath := watchEntry;
      launchPath := launchEntry;
      targetProcessName := Paths.Basename(watchPath);
      configFile := WatchConfig.Saved(watchPath, launchPath);
      watching := true;
      alreadyLaunched := false;
      loopsStarted := loopsStarted + 1;
      started := true;
    }

    /** `stop_watching`: only `watching` changes. */
    method StopWatching()
      modifies this`watching
      ensures !watching
    {
      watching := false;
    }

    /** One pass of the body of `monitor_loop` (the loop tests `watching`, the body does
        not), with the process names it lists. */
    method Tick(running: seq<string>)
      requires loopsStarted > 0
      modifies this`alreadyLaunched, this`launches
      ensures var present := EdgeTrigger.Present(targetProcessName, running);
        && (present && !old(alreadyLaunched) ==> alreadyLaunched && launches == old(launches) + [launchPath])
        && (present && old(alreadyLaunched) ==> alreadyLaunched && launches == old(launches))
        && (!present ==> !alreadyLaunched && launches == old(launches))
    {
      var lowered := EdgeTrigger.LowerAll(running);
      if Paths.Lower(targetProcessName) in lowered {
        if !alreadyLaunched {
          launches := launches + [launchPath];
          alreadyLaunched := true;
        }
      } else {
        alreadyLaunched := false;
      }
    }

    /** `monitor_loop`: passes run while `watching` reads true at the loop head. A loop
        entered with `watching` clear does nothing; otherwise the passes before the first
        stop run, none after it, and the launch log grows by one launch path per rising
        edge of what those passes saw. */
    method MonitorLoop(schedule: seq<Moment>)
      requires loopsStarted > 0
      modifies this`watching, this`alreadyLaunched, this`launches
      ensures !old(watching) ==> launches == old(launches) && alreadyLaunched == old(alreadyLaunched)
      ensures var cs := Controls(targetProcessName, schedule);
        launches == old(launches) + EdgeTrigger.Repeat(launchPath,
          EdgeTrigger.RisingEdges(old(alreadyLaunched), EdgeTrigger.ObservedTrace(old(watching), cs)))
      ensures EdgeTrigger.Engine(watching, alreadyLaunched)
        == EdgeTrigger.Run(EdgeTrigger.Engine(old(watching), old(alreadyLaunched)),
                           Controls(targetProcessName, schedule))
    {
      ghost var cs := Controls(targetProcessName, schedule);
      ghost var start := EdgeTrigger.Engine(watching, alreadyLaunched);
      var i := 0;
      while i < |schedule| && watching
        invariant 0 <= i <= |schedule|
        invariant !start.watching ==> i == 0
        invariant i == 0 ==> (watching == start.watching && alreadyLaunched == start.launched
                              && launches == old(launches))
        invariant |old(launches)| <= |launches|
        invariant launches[..|old(launches)|] == old(launches)
        invariant forall k :: |old(launches)| <= k < |launches| ==> launches[k] == launchPath
        invariant |launches| - |old(launches)|
          + EdgeTrigger.CountLaunches(EdgeTrigger.Engine(watching, alreadyLaunched), cs[i..])
          == EdgeTrigger.CountLaunches(start, cs)
        invariant EdgeTrigger.Run(EdgeTrigger.Engine(watching, alreadyLaunched), cs[i..])
          == EdgeTrigger.Run(start, cs)
      {
        assert cs[i..][0] == cs[i] && cs[i..][1..] == cs[i + 1..];
        match schedule[i] {
          case Poll(running) => Tick(running);
          case StopClicked => StopWatching();
        }
        i := i + 1;
      }
      StoppedRunLaunchesNothing(alreadyLaunched, cs[i..]);
      EdgeTrigger.LaunchesAreRisingEdges(start, cs);
      assert launches == old(launches) + launches[|old(launches)|..];
    }
  }
}
