# App watcher launcher: the launch-decision engines

App-watcher-launcher is a set of three small Windows desktop programs. Each one watches
for a "trigger" program and starts a companion program when the trigger is running.
Each program wraps a small decision engine in tkinter, psutil and subprocess code. This
project models those engines with the operating system abstracted away:

- a process listing becomes a sequence of names (`seq<string>`), or of executable paths
  that may be unavailable (`seq<Option<string>>`);
- starting a program becomes an append to a ghost `launches` log;
- a configuration file becomes an abstract value (absent, unreadable, or holding its
  data).

Modules, one per source file plus the shared pieces:

- `Paths`: the Windows string helpers the programs use. These are `str.lower`,
  `ntpath.basename` (drop an `X:` drive, then keep what follows the last `/` or `\`) and
  `ntpath.normcase` (letters lower-cased, `/` turned into `\`).
- `WatchConfig`: `watch_config.json`, as written by `save_config` and read by
  `load_config` in both single-pair programs.
- `EdgeTrigger`: the edge-triggered rule of the single-pair programs, stated on values.
  Each pass checks the target name case-insensitively against the running names. With
  `already_launched` clear it launches and sets the flag. With the flag set it does
  nothing. When the target is absent it clears the flag. Runs are sequences of polls,
  pauses and resumes. The main lemma says that the launch count over any run equals the
  number of absent-to-present transitions in what the polls saw while watching.
- `TrayApp`: `app-with-tray.py`. It is a class with the fields the program updates
  (`watching`, `alreadyLaunched`, the paths, the target name, the config file). It has
  start, stop, pause, resume and quit, and its `while True` monitor loop is given as a
  finite schedule of passes and tray clicks.
- `GuiApp`: `app-watcher-gui.py`. It has the same state. Its loop is
  `while self.watching`, so it ends at the first read of a cleared flag, and no pass runs
  after the loop has read a cleared flag.
- `MultiWatch`: `app-multi-watch-gui.py`. An ordered registry of trigger/launch pairs,
  which `add_pair` appends to and `remove_selected` deletes from, is saved after every
  change. `is_process_running` compares executable paths under `normcase`. Each pass of
  the watch loop starts a pair's target iff its trigger runs and its target does not.
  The rule is level-triggered: no state is kept between passes. The add and remove
  buttons stay live while watching, and each pass walks the registry as it stands then.

The model follows the three programs as written. The multi-pair program keeps no
per-pair edge state. It always checks whether the target is running, and that check has
no option to turn it off. It starts watching even with an empty registry. `add_pair`
checks only that neither file dialog was cancelled. Launch failures are not caught by any
of the three programs.

## Model

| member | source | states |
|---|---|---|
| `Paths.Lower` | app-with-tray.py:99-100 | `lower()` keeps the length, replaces each upper-case letter by its lower-case partner and keeps every other character |
| `Paths.LowerEqualIffSameUpToCase` | app-with-tray.py:99-100 | two names are equal after `lower()` iff they spell the same text up to letter case, character by character |
| `Paths.Basename` | app-with-tray.py:76 | the target name is the longest separator-free suffix of the watch path after its drive, so it starts just after a `/`, a `\` or the drive |
| `Paths.BasenameOfJoin` | app-watcher-gui.py:72 | the file name of `dir/name` or `dir\name` is `name`, whatever `dir` is |
| `Paths.NormCase` | app-multi-watch-gui.py:121 | `normcase` keeps the length, turns each `/` into `\`, replaces each upper-case letter by its lower-case partner and keeps every other character |
| `Paths.NormCaseEqualIffSamePathText` | app-multi-watch-gui.py:121 | two paths are equal after `normcase` iff, character by character, both are separators or both are the same letter up to case |
| `WatchConfig.Saved` | app-with-tray.py:108-114 | `save_config` writes an object with exactly the keys `watch_path` and `launch_path`, holding the two paths |
| `WatchConfig.Load` | app-watcher-gui.py:111-121 | an absent or unreadable file keeps both paths; a readable one sets each path to its key's value, or to `""` when the key is missing |
| `WatchConfig.LoadAfterSave` | app-with-tray.py:108-126 | loading what `save_config` wrote gives back the saved paths |
| `EdgeTrigger.Present` | app-watcher-gui.py:93-94 | the target matches iff some running name equals it after lower-casing both |
| `EdgeTrigger.PresentIffSameUpToCase` | app-watcher-gui.py:93-94 | the target matches iff some running name spells it up to letter case |
| `EdgeTrigger.LaunchesAreRisingEdges` | app-with-tray.py:96-106 | over any run of passes, pauses and resumes, the launch count is the number of absent-to-present transitions in what the passes saw while watching; the flag stands for the presence seen before the run |
| `EdgeTrigger.FlagIsLastObservedPresence` | app-watcher-gui.py:94-100 | after a run, `already_launched` equals the presence seen by the last pass that ran while watching, or keeps its old value when no pass ran |
| `EdgeTrigger.OneLaunchPerEpisode` | app-watcher-gui.py:94-98 | however long the trigger stays present, that episode fires once if the flag was clear and never if it was set |
| `EdgeTrigger.ResumeAfterPausedPolls` | app-with-tray.py:144-148 | after passes while paused, a resume and a pass that sees the trigger fire once if the flag was clear and never if it was set (resuming mid-episode) |
| `EdgeTrigger.TwoEpisodesTwoLaunches` | app-with-tray.py:96-106 | absent, present, present, present, absent, present while watching gives exactly two launches |
| `TrayApp.AppWatcher.constructor` | app-with-tray.py:15-52 | starts with both flags clear and no target, with the paths that `load_config` leaves |
| `TrayApp.AppWatcher.StartWatching` | app-with-tray.py:69-89 | an empty entry changes nothing and starts no loop; otherwise the paths are set and saved, the target is the basename of the watch path, `watching` is set, the flag is cleared and one more monitor loop exists |
| `TrayApp.AppWatcher.StopWatching` | app-with-tray.py:91-94 | clears `watching` and changes no other field |
| `TrayApp.AppWatcher.PauseWatching` | app-with-tray.py:144-145 | clears `watching` and changes no other field |
| `TrayApp.AppWatcher.ResumeWatching` | app-with-tray.py:147-148 | sets `watching` and changes no other field; the flag is kept |
| `TrayApp.AppWatcher.QuitApp` | app-with-tray.py:150-154 | clears `watching` and changes no other engine field |
| `TrayApp.AppWatcher.Tick` | app-with-tray.py:98-105 | while not watching nothing changes; on a rising edge the launch path is logged once and the flag set; present with the flag set does nothing; absent clears the flag |
| `TrayApp.AppWatcher.MonitorLoop` | app-with-tray.py:96-106 | over passes and tray clicks, the log grows by one launch path per rising edge seen while watching, and the flags end where the edge-trigger engine ends |
| `TrayApp.NotepadIsTheTarget` | app-with-tray.py:76 | the target of `C:/Windows/notepad.exe` is `notepad.exe` |
| `TrayApp.NotepadMatchesUpToCase` | app-with-tray.py:99-100 | `notepad.exe` matches a running `NOTEPAD.EXE` and does not match `explorer.exe` alone |
| `GuiApp.StoppedRunLaunchesNothing` | app-watcher-gui.py:91-92 | once `watching` is clear and nothing sets it again, no later pass launches or changes the flag |
| `GuiApp.AppWatcher.constructor` | app-watcher-gui.py:13-49 | starts with both flags clear and no target, with the paths that `load_config` leaves |
| `GuiApp.AppWatcher.StartWatching` | app-watcher-gui.py:65-83 | an empty entry changes nothing; otherwise the paths are set and saved, the target is the basename of the watch path, `watching` is set and the flag cleared |
| `GuiApp.AppWatcher.StopWatching` | app-watcher-gui.py:85-89 | clears `watching` and changes no other field |
| `GuiApp.AppWatcher.Tick` | app-watcher-gui.py:93-100 | on a rising edge the launch path is logged once and the flag set; present with the flag set does nothing; absent clears the flag |
| `GuiApp.AppWatcher.MonitorLoop` | app-watcher-gui.py:91-101 | entered with `watching` clear it does nothing; otherwise only passes before the first stop run, and the log grows by one launch path per rising edge they saw, counting a trigger present at the first pass as one |
| `MultiWatch.LoadPairs` | app-multi-watch-gui.py:64-67 | no file gives the empty registry, a malformed file is an error, a saved list is the registry |
| `MultiWatch.SavePairs` | app-multi-watch-gui.py:69-71 | loading what `save_pairs` wrote restores the identical ordered list |
| `MultiWatch.MatchesIffSamePathText` | app-multi-watch-gui.py:121 | a process matches iff it reports a non-empty executable path that is the given path up to letter case and separator kind |
| `MultiWatch.IsProcessRunning` | app-multi-watch-gui.py:118-125 | true iff some entry has a non-empty executable path equal to `path` under `normcase`; entries without one are skipped |
| `MultiWatch.TickLaunches` | app-multi-watch-gui.py:129-132 | a pass starts at most one target per pair |
| `MultiWatch.FiringIndicesExact` | app-multi-watch-gui.py:129-131 | the positions picked by a pass are in range, strictly increasing, and are exactly the pairs whose trigger runs and whose target does not |
| `MultiWatch.TickLaunchesFollowIndices` | app-multi-watch-gui.py:129-132 | the k-th launch of a pass is the target of the k-th picked pair, and there is one launch per picked pair |
| `MultiWatch.TickLaunchesAreFiringTargets` | app-multi-watch-gui.py:129-132 | the launches of a pass are the targets of exactly the pairs whose trigger runs and whose target does not, one each, in registry order |
| `MultiWatch.TargetStartedWhileTriggerRuns` | app-multi-watch-gui.py:130-132 | a pair whose trigger runs and whose target does not has its target started on that pass, whatever happened before |
| `MultiWatch.WithPairAdded` | app-multi-watch-gui.py:73-84 | a cancelled dialog leaves the registry as it was; otherwise the old pairs are kept in order and the new pair follows them |
| `MultiWatch.WithSelectedRemoved` | app-multi-watch-gui.py:86-93 | no selection leaves the registry as it was; otherwise the pairs before the selected one stay in place, the selected one is gone and the rest move up by one |
| `MultiWatch.AddedPairWatchedOnNextPass` | app-multi-watch-gui.py:127-132 | a pair added while watching is checked on the next pass, which starts its target when its trigger runs and the target does not |
| `MultiWatch.RelaunchedOnEveryPass` | app-multi-watch-gui.py:127-133 | while the trigger keeps running and the target stays absent, every pass starts the target again |
| `MultiWatch.AppWatcher.constructor` | app-multi-watch-gui.py:16-22 | starts idle with the loaded registry, which the file on disk restores |
| `MultiWatch.AppWatcher.AddPair` | app-multi-watch-gui.py:73-84 | the registry becomes `WithPairAdded` of the old one, and the file restores the new list; a cancelled dialog leaves the file alone |
| `MultiWatch.AppWatcher.RemoveSelected` | app-multi-watch-gui.py:86-93 | the registry becomes `WithSelectedRemoved` of the old one, and the file restores the new list; no selection leaves the file alone |
| `MultiWatch.AppWatcher.ToggleWatch` | app-multi-watch-gui.py:100-104 | negates `watching`; a loop starts only when turning on |
| `MultiWatch.AppWatcher.StartWatching` | app-multi-watch-gui.py:106-111 | sets `watching` and starts a loop, with no check of the registry |
| `MultiWatch.AppWatcher.StopWatching` | app-multi-watch-gui.py:113-116 | clears `watching` only |
| `MultiWatch.AppWatcher.WatchTick` | app-multi-watch-gui.py:129-132 | one pass appends exactly the launches the firing rule picks, in registry order |
| `MultiWatch.AppWatcher.MeetMoment` | app-multi-watch-gui.py:31-35 | a pass appends its launches over the current registry; an add or remove click edits the registry as `add_pair` or `remove_selected` does; the file keeps restoring the registry |
| `MultiWatch.AppWatcher.WatchLoop` | app-multi-watch-gui.py:127-133 | entered with `watching` clear it does nothing; otherwise the passes and the add and remove clicks before the first stop take effect in order and none after, each pass walking the registry as the clicks before it left it; the file keeps restoring the registry; `watching` ends set iff no stop came |
| `MultiWatch.Open` | app-multi-watch-gui.py:19-20 | a malformed pairs file makes start-up fail; otherwise the watcher starts idle with the saved (or empty) registry |

`TrayApp.TwoEpisodesWithPause` is a worked scenario, not a contract. It drives one
watcher through a start, two presence episodes seen while watching and one hidden by a
pause, and asserts in its body that the launch path was started exactly twice.

## Left out

- The user interface is not modelled: tkinter windows, entries, buttons, message boxes,
  file dialogs, `select_watch_app` and `select_launch_app`, `update_listbox`,
  `hide_window`, `show_window`, `exit_app`, `run_tray` and `run_gui`. The text of the
  entry fields and the dialog results are parameters instead.
- The tray icon is not modelled: pystray menus and the PIL drawing in `create_image` and
  `create_tray_icon` are foreign libraries.
- `startup.py` creates a Windows shortcut through COM and holds no engine logic.
- `psutil.process_iter` becomes a snapshot parameter, and `subprocess.Popen` becomes an
  append to the launch log. Every launch is modelled as succeeding. No program catches a
  launch failure: in the source it raises out of the monitor thread and ends that loop.
- Threads and `time.sleep` are not modelled. Clicks are interleaved between loop passes
  by the schedule parameter, never during a pass. Besides the quick restart in the next
  item, two effects of the threads are not modelled. In `app-with-tray.py`, restarting after a stop spawns one more endless loop
  that shares `already_launched`; `loopsStarted` counts them, but the model runs one loop.
  In the multi-pair program, an add or remove click can land while a pass is walking the
  registry; the model applies it before or after the whole pass.
- A stop followed by a quick restart is not modelled for `app-watcher-gui.py` and
  `app-multi-watch-gui.py`. If Start comes while the old loop is still in `time.sleep`
  (app-watcher-gui.py:101, app-multi-watch-gui.py:133), `watching` is set again before
  that loop next tests it (app-watcher-gui.py:92, app-multi-watch-gui.py:128). The old
  loop then keeps running beside the new one. In `app-watcher-gui.py` the two share
  `already_launched`. In the multi-pair program both loops can start the same target on
  one pair. The schedules of `GuiApp` and `MultiWatch` have no start moment, so each loop
  call stands for one loop that ends at its first stop.
- An enumeration error in the single-pair loops is not modelled. They call `p.name()` on
  every listed process outside any `try` (app-with-tray.py:99, app-watcher-gui.py:93).
  A process that exits or denies access during the listing makes psutil raise there; the
  exception leaves `monitor_loop` and ends the monitor thread for good, while `watching`
  stays set. A process list given as a sequence of names cannot express this, so in the
  model every pass completes. The multi-pair loop has no such exit: it asks
  `process_iter(['exe'])` for the path up front, which skips a process that vanishes and
  reports one it may not inspect as `None` (app-multi-watch-gui.py:119), and it catches
  the remaining psutil errors.
- JSON text and file I/O are not modelled. Both config files are abstract values, and
  any content that `json.load` rejects is a single "unreadable" or "malformed" case.
- `Paths.Lower` lower-cases the ASCII letters only. Python's `str.lower` also maps other
  Unicode letters.
- `Paths.NormCase` lower-cases the ASCII letters only, like `Paths.Lower`.
- `Paths.Basename` strips only an `X:` drive. UNC share roots such as `\\server\share`
  are taken apart as ordinary separators. Python's `ntpath` reports an empty name for
  them.
- `MultiWatch.IsProcessRunning`: one snapshot serves a whole pass. The source takes a
  new process listing for each call, so a target started earlier in the same pass could
  be seen by a later pair.
- `MultiWatch.Open`: a registry file that parses as JSON but is not a list of
  `{trigger, launch}` objects is not modelled. In the source it fails later, when the
  loop or the list box reads the pair.
