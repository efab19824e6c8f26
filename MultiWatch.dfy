/** The multi-pair watcher (`app-multi-watch-gui.py`): an ordered registry of
    trigger/launch pairs persisted to `app_pairs.json`, and a loop that, on every pass,
    starts each pair's launch target when its trigger is running and the target is not.
    There is no per-pair memory between passes: the rule is level-triggered. Process
    starts are appended to the ghost `launches` log. */
module MultiWatch {
  import Paths

  datatype Option<T> = None | Some(value: T)

  datatype Result<T, E> = Ok(value: T) | Err(error: E)

  /** One registry entry, `{"trigger": ..., "launch": ...}`. */
  datatype Pair = Pair(trigger: string, launch: string)

  /** What `app_pairs.json` holds. `Malformed` is any content `json.load` rejects. */
  datatype PairsFile = Missing | Malformed | Saved(pairs: seq<Pair>)

  datatype LoadError = JsonDecodeError

  /** `load_pairs`: no file leaves the registry as `__init__` set it, empty; a file
      `json.load` rejects raises out of `__init__`; otherwise the saved list is the
      registry. */
  function LoadPairs(file: PairsFile): (r: Result<seq<Pair>, LoadError>)
    ensures file.Missing? ==> r == Ok([])
    ensures file.Malformed? ==> r.Err?
    ensures file.Saved? ==> r == Ok(file.pairs)
  {
    match file
    case Missing => Ok([])
    case Malformed => Err(JsonDecodeError)
    case Saved(pairs) => Ok(pairs)
  }

  /** `save_pairs`: the whole list is written. */
  function SavePairs(pairs: seq<Pair>): (file: PairsFile)
    ensures LoadPairs(file) == Ok(pairs)
  {
    Saved(pairs)
  }

  /** One entry of `psutil.process_iter(['exe'])`: the `exe` of a process, `None` when
      it vanished or denied access while being inspected. */
  type Snapshot = seq<Option<string>>

  /** `proc.info['exe'] and os.path.normcase(proc.info['exe']) == os.path.normcase(path)` */
  predicate Matches(exe: Option<string>, path: string)
  {
    exe.Some? && exe.value != "" && Paths.NormCase(exe.value) == Paths.NormCase(path)
  }

  /** A process matches iff it reports a non-empty executable path that is `path` up
      to letter case and the choice of separator. */
  lemma MatchesIffSamePathText(exe: Option<string>, path: string)
    ensures Matches(exe, path) <==> exe.Some? && exe.value != "" && Paths.SamePathText(exe.value, path)
  {
    if exe.Some? {
      Paths.NormCaseEqualIffSamePathText(exe.value, path);
    }
  }

  /** Some listed process has a (non-empty) executable path equal to `path` up to
      `normcase`. */
  predicate Running(snapshot: Snapshot, path: string)
  {
    exists i :: 0 <= i < |snapshot| && Matches(snapshot[i], path)
  }

  /** `is_process_running`: scans the process list and stops at the first match;
      entries without an executable path are skipped. */
  method IsProcessRunning(snapshot: Snapshot, path: string) returns (found: bool)
    ensures found <==> Running(snapshot, path)
  {
    for i := 0 to |snapshot|
      invariant forall j :: 0 <= j < i ==> !Matches(snapshot[j], path)
    {
      var exe := snapshot[i];
      if exe.Some? && exe.value != "" && Paths.NormCase(exe.value) == Paths.NormCase(path) {
        return true;
      }
    }
    return false;
  }

  /** A pass starts a pair's target iff its trigger runs and its target does not. */
  predicate Fires(p: Pair, snapshot: Snapshot)
  {
    Running(snapshot, p.trigger) && !Running(snapshot, p.launch)
  }

  /** The paths one pass of `watch_loop` starts, walking the pairs in list order. */
  function TickLaunches(pairs: seq<Pair>, snapshot: Snapshot): (r: seq<string>)
    ensures |r| <= |pairs|
    decreases |pairs|
  {
    if pairs == [] then []
    else
      var last := pairs[|pairs| - 1];
      TickLaunches(pairs[..|pairs| - 1], snapshot) + (if Fires(last, snapshot) then [last.launch] else [])
  }

  /** The positions of the pairs that fire, in increasing order. */
  function FiringIndices(pairs: seq<Pair>, snapshot: Snapshot): (idx: seq<nat>)
    decreases |pairs|
  {
    if pairs == [] then []
    else
      var n := |pairs| - 1;
      FiringIndices(pairs[..n], snapshot) + (if Fires(pairs[n], snapshot) then [n] else [])
  }

  /** The firing positions are in range, strictly increasing, and hold exactly the
      pairs that fire. */
  lemma {:induction false} FiringIndicesExact(pairs: seq<Pair>, snapshot: Snapshot)
    ensures var idx := FiringIndices(pairs, snapshot);
      && (forall k :: 0 <= k < |idx| ==> idx[k] < |pairs|)
      && (forall k, l :: 0 <= k < l < |idx| ==> idx[k] < idx[l])
      && (forall i :: 0 <= i < |pairs| ==> (Fires(pairs[i], snapshot) <==> i in idx))
    decreases |pairs|
  {
    if pairs != [] {
      var n := |pairs| - 1;
      var init := pairs[..n];
      FiringIndicesExact(init, snapshot);
      assert forall i :: 0 <= i < n ==> init[i] == pairs[i];
    }
  }

  /** The k-th launch of a pass is the target of the k-th firing pair. */
  lemma {:induction false} TickLaunchesFollowIndices(pairs: seq<Pair>, snapshot: Snapshot)
    ensures var idx := FiringIndices(pairs, snapshot);
      var r := TickLaunches(pairs, snapshot);
      && |r| == |idx|
      && (forall k :: 0 <= k < |idx| ==> idx[k] < |pairs| && r[k] == pairs[idx[k]].launch)
    decreases |pairs|
  {
    if pairs != [] {
      var n := |pairs| - 1;
      var init := pairs[..n];
      TickLaunchesFollowIndices(init, snapshot);
      assert forall i :: 0 <= i < n ==> init[i] == pairs[i];
    }
  }

  /** The launches of one pass are the targets of exactly the firing pairs, one each,
      in registry order: a subsequence of the targets picked by the firing rule. */
  lemma TickLaunchesAreFiringTargets(pairs: seq<Pair>, snapshot: Snapshot)
    ensures var idx := FiringIndices(pairs, snapshot);
      var r := TickLaunches(pairs, snapshot);
      && |r| == |idx|
      && (forall k :: 0 <= k < |idx| ==> idx[k] < |pairs| && r[k] == pairs[idx[k]].launch)
      && (forall k, l :: 0 <= k < l < |idx| ==> idx[k] < idx[l])
      && (forall i :: 0 <= i < |pairs| ==> (Fires(pairs[i], snapshot) <==> i in idx))
  {
    FiringIndicesExact(pairs, snapshot);
    TickLaunchesFollowIndices(pairs, snapshot);
  }

  /** No edge state: whenever a pair's trigger runs and its target does not, the pass
      starts the target, whatever earlier passes did. */
  lemma TargetStartedWhileTriggerRuns(pairs: seq<Pair>, snapshot: Snapshot, i: nat)
    requires i < |pairs| && Fires(pairs[i], snapshot)
    ensures pairs[i].launch in TickLaunches(pairs, snapshot)
  {
    TickLaunchesAreFiringTargets(pairs, snapshot);
    var idx := FiringIndices(pairs, snapshot);
    var k :| 0 <= k < |idx| && idx[k] == i;
    assert TickLaunches(pairs, snapshot)[k] == pairs[i].launch;
  }

  /** The registry after `add_pair` with what the two file dialogs returned (empty
      when cancelled): a cancelled dialog changes nothing, otherwise the pair is
      appended. Duplicates are allowed. */
  function WithPairAdded(pairs: seq<Pair>, triggerPath: string, launchPath: string): (r: seq<Pair>)
    ensures triggerPath == "" || launchPath == "" ==> r == pairs
    ensures triggerPath != "" && launchPath != "" ==>
      |r| == |pairs| + 1 && r[..|pairs|] == pairs && r[|pairs|] == Pair(triggerPath, launchPath)
  {
    if triggerPath == "" || launchPath == "" then pairs
    else pairs + [Pair(triggerPath, launchPath)]
  }

  /** The registry after `remove_selected` with the list box selection: no selection
      changes nothing; otherwise the first selected pair is deleted and the others keep
      their order. The list box always shows the registry, so a selected index is in
      range; if it were not, `del` would raise and leave the registry as it was. */
  function WithSelectedRemoved(pairs: seq<Pair>, selection: seq<nat>): (r: seq<Pair>)
    ensures selection == [] || selection[0] >= |pairs| ==> r == pairs
    ensures selection != [] && selection[0] < |pairs| ==>
      && |r| == |pairs| - 1
      && (forall j :: 0 <= j < selection[0] ==> r[j] == pairs[j])
      && (forall j :: selection[0] <= j < |r| ==> r[j] == pairs[j + 1])
  {
    if selection == [] || selection[0] >= |pairs| then pairs
    else pairs[..selection[0]] + pairs[selection[0] + 1..]
  }

  /** What the watcher thread meets between two reads of `watching`: one pass with the
      process list it saw, a click on the toggle button (which stops a running loop), or
      a click on "Add Pair" or "Remove Selected", which stay live while watching. */
  datatype Moment =
    | Poll(snapshot: Snapshot)
    | StopClicked
    | AddClicked(triggerPath: string, launchPath: string)
    | RemoveClicked(selection: seq<nat>)

  /** The registry after an edit click; passes and stops leave it alone. */
  function Edited(pairs: seq<Pair>, m: Moment): seq<Pair>
  {
    match m
    case AddClicked(triggerPath, launchPath) => WithPairAdded(pairs, triggerPath, launchPath)
    case RemoveClicked(selection) => WithSelectedRemoved(pairs, selection)
    case _ => pairs
  }

  /** The paths a moment other than a stop starts: a pass's launches, none for a click. */
  function MomentLaunches(pairs: seq<Pair>, m: Moment): seq<string>
  {
    if m.Poll? then TickLaunches(pairs, m.snapshot) else []
  }

  /** The paths `watch_loop` starts over a schedule entered while watching: the passes
      before the first stop, in order, each over the registry as the edits before it
      left it (the loop re-reads `app_pairs` on every pass). */
  function LoopLaunches(pairs: seq<Pair>, schedule: seq<Moment>): seq<string>
    decreases |schedule|
  {
    if schedule == [] || schedule[0].StopClicked? then []
    else MomentLaunches(pairs, schedule[0]) + LoopLaunches(Edited(pairs, schedule[0]), schedule[1..])
  }

  /** The registry once the loop has met the schedule up to its first stop. */
  function LoopPairs(pairs: seq<Pair>, schedule: seq<Moment>): seq<Pair>
    decreases |schedule|
  {
    if schedule == [] || schedule[0].StopClicked? then pairs
    else LoopPairs(Edited(pairs, schedule[0]), schedule[1..])
  }

  /** The loop from position `i` on: a stop ends it, any other moment contributes its
      launches and edit before the rest runs. */
  lemma LoopUnfold(pairs: seq<Pair>, schedule: seq<Moment>, i: nat)
    requires i < |schedule|
    ensures schedule[i].StopClicked? ==>
      LoopLaunches(pairs, schedule[i..]) == [] && LoopPairs(pairs, schedule[i..]) == pairs
    ensures !schedule[i].StopClicked? ==>
      && LoopLaunches(pairs, schedule[i..])
         == MomentLaunches(pairs, schedule[i]) + LoopLaunches(Edited(pairs, schedule[i]), schedule[i + 1..])
      && LoopPairs(pairs, schedule[i..]) == LoopPairs(Edited(pairs, schedule[i]), schedule[i + 1..])
  {
    assert schedule[i..][0] == schedule[i] && schedule[i..][1..] == schedule[i + 1..];
  }

  /** Solver hint, not a property of the program: sequence concatenation regroups, so
      the log before a moment, the moment's launches and the rest of the loop can be
      bracketed either way in the loop invariant of `WatchLoop`. */
  lemma ConcatAssoc(a: seq<string>, b: seq<string>, c: seq<string>)
    ensures (a + b) + c == a + (b + c)
  {
  }

  /** A pair added while watching is watched from the next pass on: if its trigger runs
      and its target does not at that pass, the target is started. */
  lemma AddedPairWatchedOnNextPass(pairs: seq<Pair>, triggerPath: string, launchPath: string,
                                   snapshot: Snapshot, rest: seq<Moment>)
    requires triggerPath != "" && launchPath != ""
    requires Fires(Pair(triggerPath, launchPath), snapshot)
    ensures launchPath in LoopLaunches(pairs, [AddClicked(triggerPath, launchPath), Poll(snapshot)] + rest)
  {
    var schedule := [AddClicked(triggerPath, launchPath), Poll(snapshot)] + rest;
    var added := pairs + [Pair(triggerPath, launchPath)];
    assert schedule[1..] == [Poll(snapshot)] + rest && schedule[1..][1..] == rest;
    assert LoopLaunches(pairs, schedule)
      == TickLaunches(added, snapshot) + LoopLaunches(added, rest);
    TargetStartedWhileTriggerRuns(added, snapshot, |pairs|);
  }

  /** Level triggering over time: while a pair's trigger keeps running and its target
      keeps being absent (it exited, or never came up), every pass starts the target
      again. */
  lemma {:induction false} RelaunchedOnEveryPass(pairs: seq<Pair>, i: nat, schedule: seq<Moment>)
    requires i < |pairs|
    requires forall k :: 0 <= k < |schedule| ==>
      schedule[k].Poll? && Fires(pairs[i], schedule[k].snapshot)
    ensures multiset(LoopLaunches(pairs, schedule))[pairs[i].launch] >= |schedule|
    decreases |schedule|
  {
    if schedule != [] {
      var s := schedule[0].snapshot;
      RelaunchedOnEveryPass(pairs, i, schedule[1..]);
      TargetStartedWhileTriggerRuns(pairs, s, i);
      assert LoopLaunches(pairs, schedule) == TickLaunches(pairs, s) + LoopLaunches(pairs, schedule[1..]);
    }
  }

  class AppWatcher {
    var pairs: seq<Pair>
    var watching: bool
    var store: PairsFile
    ghost var launches: seq<string>
    /** How many watcher threads `start_watching` has spawned. */
    ghost var loopsStarted: nat

    /** The file on disk restores the registry held in memory. */
    ghost predicate Valid()
      reads this
    {
      LoadPairs(store) == Ok(pairs)
    }

    /** `__init__` once `load_pairs` has read `loaded` from `file`. */
    constructor (file: PairsFile, loaded: seq<Pair>)
      requires LoadPairs(file) == Ok(loaded)
      ensures Valid() && pairs == loaded && store == file
      ensures !watching && launches == [] && loopsStarted == 0
    {
      pairs, store := loaded, file;
      watching := false;
      launches, loopsStarted := [], 0;
    }

    /** `add_pair`, given what the two file dialogs returned (empty when cancelled). A
        cancelled dialog changes nothing; otherwise exactly one pair is appended and the
        list is saved. No other check is made: duplicates are allowed. */
    method AddPair(triggerPath: string, launchPath: string) returns (added: bool)
      requires Valid()
      modifies this`pairs, this`store
      ensures Valid()
      ensures pairs == WithPairAdded(old(pairs), triggerPath, launchPath)
      ensures added <==> triggerPath != "" && launchPath != ""
      ensures added ==> pairs == old(pairs) + [Pair(triggerPath, launchPath)]
      ensures !added ==> pairs == old(pairs) && store == old(store)
    {
      if triggerPath == "" || launchPath == "" {
        return false;
      }
      pairs := pairs + [Pair(triggerPath, launchPath)];
      store := SavePairs(pairs);
      added := true;
    }

    /** `remove_selected`, given the list box selection. No selection changes nothing;
        otherwise the first selected pair is deleted, the others keep their order, and the
        list is saved. The list box always shows the registry, so a selected index is in
        range; if it were not, `del` would raise and leave the registry as it was. */
    method RemoveSelected(selection: seq<nat>) returns (removed: bool)
      requires Valid()
      modifies this`pairs, this`store
      ensures Valid()
      ensures pairs == WithSelectedRemoved(old(pairs), selection)
      ensures removed <==> selection != [] && selection[0] < |old(pairs)|
      ensures !removed ==> pairs == old(pairs) && store == old(store)
      ensures removed ==> pairs == old(pairs)[..selection[0]] + old(pairs)[selection[0] + 1..]
      ensures removed ==> |pairs| == |old(pairs)| - 1
      ensures removed ==> forall j :: 0 <= j < selection[0] ==> pairs[j] == old(pairs)[j]
      ensures removed ==> forall j :: selection[0] <= j < |pairs| ==> pairs[j] == old(pairs)[j + 1]
    {
      if selection == [] || selection[0] >= |pairs| {
        return false;
      }
      var index := selection[0];
      pairs := pairs[..index] + pairs[index + 1..];
      store := SavePairs(pairs);
      removed := true;
    }

    /** `start_watching`: sets `watching` and spawns a watcher thread, with no check of
        the registry or of a loop already running. */
    method StartWatching()
      modifies this`watching, this`loopsStarted
      ensures watching && loopsStarted == old(loopsStarted) + 1
    {
      watching := true;
      loopsStarted := loopsStarted + 1;
    }

    /** `stop_watching`: only `watching` changes. */
    method StopWatching()
      modifies this`watching
      ensures !watching
    {
      watching := false;
    }

    /** `toggle_watch`: negates `watching`; a new loop starts only when turning on. */
    method ToggleWatch()
      modifies this`watching, this`loopsStarted
      ensures watching == !old(watching)
      ensures loopsStarted == old(loopsStarted) + (if old(watching) then 0 else 1)
    {
      if watching {
        StopWatching();
      } else {
        StartWatching();
      }
    }

    /** One pass of `watch_loop` over a single process list: every pair in order, the
        target started iff the trigger runs and the target does not. */
    method WatchTick(snapshot: Snapshot)
      modifies this`launches
      ensures launches == old(launches) + TickLaunches(pairs, snapshot)
    {
      for i := 0 to |pairs|
        invariant launches == old(launches) + TickLaunches(pairs[..i], snapshot)
      {
        assert pairs[..i + 1][..i] == pairs[..i];
        var triggerRunning := IsProcessRunning(snapshot, pairs[i].trigger);
        if triggerRunning {
          var targetRunning := IsProcessRunning(snapshot, pairs[i].launch);
          if !targetRunning {
            launches := launches + [pairs[i].launch];
          }
        }
      }
      assert pairs[..|pairs|] == pairs;
    }

    /** What the watcher meets between two reads of `watching`, a stop aside: a pass
        over the current registry, or an add or remove click. */
    method MeetMoment(m: Moment)
      requires !m.StopClicked? && Valid()
      modifies this`launches, this`pairs, this`store
      ensures Valid()
      ensures pairs == Edited(old(pairs), m)
      ensures launches == old(launches) + MomentLaunches(old(pairs), m)
    {
      match m {
        case Poll(snapshot) => WatchTick(snapshot);
        case AddClicked(triggerPath, launchPath) =>
          var _ := AddPair(triggerPath, launchPath);
        case RemoveClicked(selection) =>
          var _ := RemoveSelected(selection);
      }
    }

    /** `watch_loop`: passes run while `watching` reads true at the loop head, each over
        the registry as it stands then. Entered with `watching` clear it does nothing;
        otherwise the moments before the first stop take effect, in order, and none after
        it. */
    method WatchLoop(schedule: seq<Moment>)
      requires loopsStarted > 0 && Valid()
      modifies this`watching, this`launches, this`pairs, this`store
      ensures Valid()
      ensures launches == old(launches) + (if old(watching) then LoopLaunches(old(pairs), schedule) else [])
      ensures pairs == if old(watching) then LoopPairs(old(pairs), schedule) else old(pairs)
      ensures watching <==> old(watching) && forall k :: 0 <= k < |schedule| ==> !schedule[k].StopClicked?
    {
      if !watching {
        return;
      }
      ghost var total := LoopLaunches(pairs, schedule);
      ghost var final := LoopPairs(pairs, schedule);
      var i := 0;
      while i < |schedule| && watching
        invariant 0 <= i <= |schedule| && Valid()
        invariant watching ==> forall k :: 0 <= k < i ==> !schedule[k].StopClicked?
        invariant watching ==> launches + LoopLaunches(pairs, schedule[i..]) == old(launches) + total
        invariant watching ==> LoopPairs(pairs, schedule[i..]) == final
        invariant !watching ==> launches == old(launches) + total && pairs == final
        invariant !watching ==> 0 < i && schedule[i - 1].StopClicked?
      {
        LoopUnfold(pairs, schedule, i);
        if schedule[i].StopClicked? {
          StopWatching();
        } else {
          ghost var before, registry := launches, pairs;
          MeetMoment(schedule[i]);
          ConcatAssoc(before, MomentLaunches(registry, schedule[i]), LoopLaunches(pairs, schedule[i + 1..]));
        }
        i := i + 1;
      }
    }
  }

  /** Application start-up: `__init__` runs `load_pairs`, which raises on a malformed
      file; otherwise the watcher starts idle with the saved registry. */
  method Open(file: PairsFile) returns (r: Result<AppWatcher, LoadError>)
    ensures r.Err? <==> file.Malformed?
    ensures r.Ok? ==> fresh(r.value) && r.value.Valid() && !r.value.watching
    ensures r.Ok? ==> r.value.pairs == (if file.Saved? then file.pairs else [])
  {
    match LoadPairs(file) {
      case Err(e) =>
        r := Err(e);
      case Ok(loaded) =>
        var w := new AppWatcher(file, loaded);
        r := Ok(w);
    }
  }
}
