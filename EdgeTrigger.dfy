/** The launch decision shared by the two single-pair watchers. Each pass of
    `monitor_loop` compares the target name with the running process names and uses the
    flag `already_launched` to turn "the trigger is running" into one launch per
    presence episode. This module states that rule on plain values and proves what it
    does over a whole run. */
module EdgeTrigger {
  import Paths

  /** The running process names, each lower-cased. */
  function LowerAll(names: seq<string>): (r: seq<string>)
    ensures |r| == |names|
    ensures forall i :: 0 <= i < |names| ==> r[i] == Paths.Lower(names[i])
  {
    seq(|names|, i requires 0 <= i < |names| => Paths.Lower(names[i]))
  }

  /** `target.lower() in [p.name().lower() for p in processes]`: the target matches iff
      some running name equals it up to letter case. */
  function Present(target: string, running: seq<string>): (b: bool)
    ensures b <==> exists i :: 0 <= i < |running| && Paths.Lower(running[i]) == Paths.Lower(target)
  {
    Paths.Lower(target) in LowerAll(running)
  }

  /** The match is the case-blind comparison of names: the target is present iff some
      running name spells it up to letter case. */
  lemma PresentIffSameUpToCase(target: string, running: seq<string>)
    ensures Present(target, running) <==>
      exists i :: 0 <= i < |running| && Paths.SameUpToCase(running[i], target)
  {
    forall i | 0 <= i < |running| {
      Paths.LowerEqualIffSameUpToCase(running[i], target);
    }
  }

  /** One pass of the loop body launches iff watching, the target is present and it has
      not been launched in this presence episode. */
  predicate Fires(watching: bool, launched: bool, present: bool)
  {
    watching && present && !launched
  }

  /** The flag after one pass: untouched while not watching, set when present (launched
      now or earlier), cleared when absent. */
  function NextLaunched(watching: bool, launched: bool, present: bool): bool
  {
    if !watching then launched
    else if present then true
    else false
  }

  /** What happens between two reads of the flags: a pass of the loop that saw the
      target present or absent, or a click on "Pause Watching" / "Resume Watching". */
  datatype Control = Poll(present: bool) | Pause | Resume

  datatype Engine = Engine(watching: bool, launched: bool)

  function Step(e: Engine, c: Control): Engine
  {
    match c
    case Poll(present) => Engine(e.watching, NextLaunched(e.watching, e.launched, present))
    case Pause => Engine(false, e.launched)
    case Resume => Engine(true, e.launched)
  }

  function LaunchesAt(e: Engine, c: Control): nat
  {
    if c.Poll? && Fires(e.watching, e.launched, c.present) then 1 else 0
  }

  /** The engine after a whole run. */
  function Run(e: Engine, cs: seq<Control>): Engine
    decreases |cs|
  {
    if cs == [] then e else Run(Step(e, cs[0]), cs[1..])
  }

  /** How many launches the engine issues over a run. */
  function CountLaunches(e: Engine, cs: seq<Control>): nat
    decreases |cs|
  {
    if cs == [] then 0 else LaunchesAt(e, cs[0]) + CountLaunches(Step(e, cs[0]), cs[1..])
  }

  /** The presence seen by the polls that ran while watching, in order. Polls while
      paused are dropped: they neither launch nor touch the flag. */
  function ObservedTrace(watching: bool, cs: seq<Control>): seq<bool>
    decreases |cs|
  {
    if cs == [] then []
    else match cs[0]
      case Poll(present) => (if watching then [present] else []) + ObservedTrace(watching, cs[1..])
      case Pause => ObservedTrace(false, cs[1..])
      case Resume => ObservedTrace(true, cs[1..])
  }

  /** Reference count, independent of the flag: the number of absent-to-present
      transitions in a presence trace, `prev` standing for the presence before it. */
  function RisingEdges(prev: bool, trace: seq<bool>): nat
    decreases |trace|
  {
    if trace == [] then 0
    else (if trace[0] && !prev then 1 else 0) + RisingEdges(trace[0], trace[1..])
  }

  /** Over any interleaving of polls, pauses and resumes, the launches are exactly the
      rising edges of what the polls observed while watching, the flag standing for the
      presence seen before the run. */
  lemma {:induction false} LaunchesAreRisingEdges(e: Engine, cs: seq<Control>)
    ensures CountLaunches(e, cs) == RisingEdges(e.launched, ObservedTrace(e.watching, cs))
    decreases |cs|
  {
    if cs != [] {
      LaunchesAreRisingEdges(Step(e, cs[0]), cs[1..]);
      match cs[0]
      case Poll(present) =>
        var rest := ObservedTrace(e.watching, cs[1..]);
        if e.watching {
          assert ObservedTrace(e.watching, cs) == [present] + rest;
          assert ([present] + rest)[1..] == rest;
        } else {
          assert ObservedTrace(e.watching, cs) == [] + rest == rest;
        }
      case Pause =>
      case Resume =>
    }
  }

  /** After a run, the flag holds the presence seen by the last poll that ran while
      watching, or its old value when no poll ran. */
  lemma {:induction false} FlagIsLastObservedPresence(e: Engine, cs: seq<Control>)
    ensures var t := ObservedTrace(e.watching, cs);
      Run(e, cs).launched == if t == [] then e.launched else t[|t| - 1]
    decreases |cs|
  {
    if cs != [] {
      FlagIsLastObservedPresence(Step(e, cs[0]), cs[1..]);
      var rest := ObservedTrace(Step(e, cs[0]).watching, cs[1..]);
      if cs[0].Poll? && e.watching {
        assert ObservedTrace(e.watching, cs) == [cs[0].present] + rest;
      } else {
        assert ObservedTrace(e.watching, cs) == rest;
      }
    }
  }

  /** One presence episode, however many polls it lasts, fires once if the flag was
      clear and never if it was set. */
  lemma {:induction false} OneLaunchPerEpisode(prev: bool, trace: seq<bool>)
    requires trace != []
    requires forall i :: 0 <= i < |trace| ==> trace[i]
    ensures RisingEdges(prev, trace) == if prev then 0 else 1
    decreases |trace|
  {
    if |trace| > 1 {
      OneLaunchPerEpisode(trace[0], trace[1..]);
    }
  }

  /** A trigger that appeared while paused fires once on the first poll after resuming
      when the flag was clear, and not at all when it was already set (resuming in the
      middle of an episode that had fired). */
  lemma {:induction false} ResumeAfterPausedPolls(launched: bool, paused: seq<Control>)
    requires forall k :: 0 <= k < |paused| ==> paused[k].Poll?
    ensures CountLaunches(Engine(false, launched), paused + [Resume, Poll(true)])
      == if launched then 0 else 1
    decreases |paused|
  {
    if paused != [] {
      assert (paused + [Resume, Poll(true)])[1..] == paused[1..] + [Resume, Poll(true)];
      ResumeAfterPausedPolls(launched, paused[1..]);
    } else {
      var tail: seq<Control> := [Resume, Poll(true)];
      assert paused + tail == tail;
      assert tail[1..] == [Poll(true)] && tail[1..][1..] == [];
      var resumed := Engine(true, launched);
      assert CountLaunches(resumed, [Poll(true)]) == if launched then 0 else 1;
    }
  }

  /** The worked example: absent, present, present, present, absent, present while
      watching, starting from a clear flag, launches twice. */
  lemma TwoEpisodesTwoLaunches()
    ensures CountLaunches(Engine(true, false),
      [Poll(false), Poll(true), Poll(true), Poll(true), Poll(false), Poll(true)]) == 2
  {
  }

  /** `count` copies of the launch path: what the launch log gains over a run. */
  function Repeat(x: string, count: nat): (r: seq<string>)
    ensures |r| == count && forall i :: 0 <= i < |r| ==> r[i] == x
  {
    seq(count, _ => x)
  }
}
