/** The single-pair watcher with a tray menu (`app-with-tray.py`). The state is the
    configured watch and launch paths, the target name derived from the watch path, the
    flags `watching` and `already_launched`, and the config file on disk. Starting a
    process is modelled as appending its path to the ghost `launches` log. */
module TrayApp {
  import Paths
  import EdgeTrigger
  import WatchConfig

  /** What the monitor thread meets between two reads of `watching`: one pass of its
      `while True` loop with the process names listed in that pass, or a click on a tray
      item handled by the tray thread. "Quit" clears `watching` exactly as "Pause
      Watching" does. The "Stop Watching" button sits on the window that
      `start_watching` hides, and nothing shows it again, so it cannot reach a running
      loop. */
  datatype Moment = Poll(running: seq<string>) | PauseClicked | ResumeClicked

  /** The run as the edge-trigger engine sees it: each pass reduced to whether the
      target name was among the running names. */
  function Controls(target: string, schedule: seq<Moment>): (cs: seq<EdgeTrigger.Control>)
    ensures |cs| == |schedule|
    ensures forall k :: 0 <= k < |schedule| ==> cs[k] == ControlOf(target, schedule[k])
  {
    seq(|schedule|, k requires 0 <= k < |schedule| => ControlOf(target, schedule[k]))
  }

  function ControlOf(target: string, m: Moment): EdgeTrigger.Control
  {
    match m
    case Poll(running) => EdgeTrigger.Poll(EdgeTrigger.Present(target, running))
    case PauseClicked => EdgeTrigger.Pause
    case ResumeClicked => EdgeTrigger.Resume
  }

  class AppWatcher {
    var watchPath: string
    var launchPath: string
    var targetProcessName: string
    var watching: bool
    var alreadyLaunched: bool
    var configFile: WatchConfig.ConfigFile
    ghost var launches: seq<string>
    /** How many monitor threads `start_watching` has spawned; none ever ends. */
    ghost var loopsStarted: nat

    /** `__init__`: empty paths, both flags clear, then `load_config`. */
    constructor (file: WatchConfig.ConfigFile)
      ensures WatchConfig.Settings(watchPath, launchPath)
        == WatchConfig.Load(file, WatchConfig.Settings("", ""))
      ensures targetProcessName == "" && !watching && !alreadyLaunched
      ensures configFile == file && launches == [] && loopsStarted == 0
    {
      var loaded := WatchConfig.Load(file, WatchConfig.Settings("", ""));
      watchPath, launchPath := loaded.watchPath, loaded.launchPath;
      targetProcessName := "";
      watching, alreadyLaunched := false, false;
      configFile := file;
      launches, loopsStarted := [], 0;
    }

    /** `start_watching`, given the text of the two entry fields. An empty field
        changes nothing and starts no loop; otherwise the paths are taken and saved, the
        target becomes the file name of the watch path, the flag is reset and a new
        monitor loop starts. */
    method StartWatching(watchEntry: string, launchEntry: string) returns (started: bool)
      modifies this
      ensures started <==> watchEntry != "" && launchEntry != ""
      ensures !started ==> unchanged(this)
      ensures started ==> watchPath == watchEntry && launchPath == launchEntry
      ensures started ==> targetProcessName == Paths.Basename(watchEntry)
      ensures started ==> configFile == WatchConfig.Saved(watchEntry, launchEntry)
      ensures started ==> watching && !alreadyLaunched
      ensures started ==> launches == old(launches) && loopsStarted == old(loopsStarted) + 1
    {
      if watchEntry == "" || launchEntry == "" {
        return false;
      }
      watchPath := watchEntry;
      launchPath := launchEntry;
      targetProcessName := Paths.Basename(watchPath);
      configFile := WatchConfig.Saved(watchPath, launchPath);
      watching := true;
      alreadyLaunched := false;
      loopsStarted := loopsStarted + 1;
      started := true;
    }

    /** `stop_watching`: only `watching` changes. */
    method StopWatching()
      modifies this`watching
      ensures !watching
    {
      watching := false;
    }

    /** `pause_watching`: only `watching` changes. */
    method PauseWatching()
      modifies this`watching
      ensures !watching
    {
      watching := false;
    }

    /** `resume_watching`: only `watching` changes; the flag is left as it was. */
    method ResumeWatching()
      modifies this`watching
      ensures watching
    {
      watching := true;
    }

    /** `quit_app` as far as the engine goes: only `watching` changes (the tray icon and
        the window are not modelled). */
    method QuitApp()
      modifies this`watching
      ensures !watching
    {
      watching := false;
    }

    /** One pass of the body of `monitor_loop`, with the process names it lists. It
        only runs on a monitor thread, which exists once `start_watching` succeeded. */
    method Tick(running: seq<string>)
      requires loopsStarted > 0
      modifies this`alreadyLaunched, this`launches
      ensures var present := EdgeTrigger.Present(targetProcessName, running);
        && (!watching ==> alreadyLaunched == old(alreadyLaunched) && launches == old(launches))
        && (watching && present && !old(alreadyLaunched) ==>
              alreadyLaunched && launches == old(launches) + [launchPath])
        && (watching && present && old(alreadyLaunched) ==>
              alreadyLaunched && launches == old(launches))
        && (watching && !present ==> !alreadyLaunched && launches == old(launches))
    {
      if watching {
        var lowered := EdgeTrigger.LowerAll(running);
        if Paths.Lower(targetProcessName) in lowered {
          if !alreadyLaunched {
            launches := launches + [launchPath];
            alreadyLaunched := true;
          }
        } else {
          alreadyLaunched := false;
        }
      }
    }

    /** `monitor_loop` over a finite stretch of its endless run, with the tray clicks
        that land between its passes. The launch log grows by one launch path per rising
        edge of the presence seen by the passes that ran while watching, and the flags
        end as the edge-trigger engine says. */
    method MonitorLoop(schedule: seq<Moment>)
      requires loopsStarted > 0
      modifies this`watching, this`alreadyLaunched, this`launches
      ensures var cs := Controls(targetProcessName, schedule);
        launches == old(launches) + EdgeTrigger.Repeat(launchPath,
          EdgeTrigger.RisingEdges(old(alreadyLaunched), EdgeTrigger.ObservedTrace(old(watching), cs)))
      ensures EdgeTrigger.Engine(watching, alreadyLaunched)
        == EdgeTrigger.Run(EdgeTrigger.Engine(old(watching), old(alreadyLaunched)),
                           Controls(targetProcessName, schedule))
    {
      ghost var cs := Controls(targetProcessName, schedule);
      ghost var start := EdgeTrigger.Engine(watching, alreadyLaunched);
      var i := 0;
      while i < |schedule|
        invariant 0 <= i <= |schedule|
        invariant |old(launches)| <= |launches|
        invariant launches[..|old(launches)|] == old(launches)
        invariant forall k :: |old(launches)| <= k < |launches| ==> launches[k] == launchPath
        invariant |launches| - |old(launches)|
          + EdgeTrigger.CountLaunches(EdgeTrigger.Engine(watching, alreadyLaunched), cs[i..])
          == EdgeTrigger.CountLaunches(start, cs)
        invariant EdgeTrigger.Run(EdgeTrigger.Engine(watching, alreadyLaunched), cs[i..])
          == EdgeTrigger.Run(start, cs)
      {
        assert cs[i..][0] == cs[i] && cs[i..][1..] == cs[i + 1..];
        match schedule[i] {
          case Poll(running) => Tick(running);
          case PauseClicked => PauseWatching();
          case ResumeClicked => ResumeWatching();
        }
        i := i + 1;
      }
      EdgeTrigger.LaunchesAreRisingEdges(start, cs);
      assert launches == old(launches) + launches[|old(launches)|..];
    }
  }

  lemma NotepadIsTheTarget()
    ensures Paths.Basename("C:/Windows/notepad.exe") == "notepad.exe"
  {
    assert "C:/Windows" + ['/'] + "notepad.exe" == "C:/Windows/notepad.exe";
    Paths.BasenameOfJoin("C:/Windows", '/', "notepad.exe");
  }

  lemma NotepadMatchesUpToCase()
    ensures EdgeTrigger.Present("notepad.exe", ["explorer.exe", "NOTEPAD.EXE"])
    ensures !EdgeTrigger.Present("notepad.exe", ["explorer.exe"])
  {
    var running: seq<string> := ["explorer.exe", "NOTEPAD.EXE"];
    assert Paths.Lower("NOTEPAD.EXE") == Paths.Lower("notepad.exe");
    assert Paths.Lower(running[1]) == Paths.Lower("notepad.exe");
    assert Paths.Lower("explorer.exe")[0] != Paths.Lower("notepad.exe")[0];
  }

  /** One watcher through two presence episodes of Notepad, with a pause in between
      that hides a third: Calculator is started once per episode seen while watching. */
  method TwoEpisodesWithPause()
  {
    var w := new AppWatcher(WatchConfig.NoFile);
    var started := w.StartWatching("C:/Windows/notepad.exe", "C:/Windows/calc.exe");
    NotepadIsTheTarget();
    NotepadMatchesUpToCase();
    var with, without := ["explorer.exe", "NOTEPAD.EXE"], ["explorer.exe"];
    assert w.targetProcessName == "notepad.exe" && w.launchPath == "C:/Windows/calc.exe";
    assert EdgeTrigger.Present(w.targetProcessName, with);
    assert !EdgeTrigger.Present(w.targetProcessName, without);
    w.Tick(without);
    w.Tick(with);
    w.Tick(with);
    w.Tick(without);
    assert w.launches == ["C:/Windows/calc.exe"];
    w.PauseWatching();
    w.Tick(with);
    w.Tick(without);
    w.ResumeWatching();
    w.Tick(with);
    assert w.launches == ["C:/Windows/calc.exe", "C:/Windows/calc.exe"];
  }
}
