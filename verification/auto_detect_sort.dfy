/**
 * auto_detect_sort.py: the camera loop of auto_detect.py with a servo sorter
 * attached. The frame that fires the trigger is analysed, and the item is
 * routed to the left (safe) or right (unsafe) bin by the Arduino, when one is
 * connected; the sorter is centred and closed when the loop ends.
 */
module AutoDetectSort {
  import opened Wrappers
  import opened Stabilization
  import FinalAnalyze
  import ArduinoUtils
  import Sorter
  import opened AutoDetect

  /** The line `perform_sorting` sends: only the exact label "Safe to Shred" goes to the left bin. */
  function SortLine(safetyLevel: string): (line: string)
    ensures line == "L180\n" <==> safetyLevel == FinalAnalyze.SafeToShred
    ensures line == "R180\n" <==> safetyLevel != FinalAnalyze.SafeToShred
  {
    if safetyLevel == FinalAnalyze.SafeToShred then "L180\n" else "R180\n"
  }

  /** The bin lines for a run of analysis results, one each, in order. */
  function SortLines(records: seq<FinalAnalyze.AnalysisRecord>): (lines: seq<string>)
    ensures |lines| == |records|
    ensures forall k :: 0 <= k < |records| ==> lines[k] == SortLine(records[k].safetyLevel)
    decreases |records|
  {
    if records == [] then []
    else SortLines(records[..|records| - 1]) + [SortLine(records[|records| - 1].safetyLevel)]
  }

  /** An analysis that fails (upload, model call or parse) leaves "Do Not Shred", so the item goes right. */
  lemma FailedAnalysisSortsUnsafe(timestamp: string, message: string)
    ensures SortLine(CaptureRecord(Shot(timestamp, FinalAnalyze.Failed(message))).safetyLevel) == "R180\n"
  {
  }

  /** An answer without a `safety_level` key keeps the default and also goes right. */
  lemma MissingLabelSortsUnsafe(timestamp: string, answer: FinalAnalyze.Answer)
    requires answer.safetyLevel.None?
    ensures SortLine(CaptureRecord(Shot(timestamp, FinalAnalyze.Answered(answer))).safetyLevel) == "R180\n"
  {
  }

  /**
   * The sorter's connection flag and log after results `records` have been
   * routed, starting from flag `connected0` and log `written0`: with a
   * working link every record sends its bin line; a failing link sends
   * nothing and drops the flag at the first record.
   */
  predicate SorterFed(connected0: bool, written0: seq<string>, healthy: bool, records: seq<FinalAnalyze.AnalysisRecord>,
                      connected: bool, written: seq<string>)
  {
    && connected == (connected0 && (healthy || records == []))
    && written == written0 + (if connected0 && healthy then SortLines(records) else [])
  }

  lemma SorterFedStep(connected0: bool, written0: seq<string>, healthy: bool, records: seq<FinalAnalyze.AnalysisRecord>,
                      connected: bool, written: seq<string>, added: seq<FinalAnalyze.AnalysisRecord>)
    requires SorterFed(connected0, written0, healthy, records, connected, written)
    requires |added| <= 1
    ensures SorterFed(connected0, written0, healthy, records + added,
                      connected && (healthy || added == []),
                      written + (if added != [] && connected && healthy then [SortLine(added[0].safetyLevel)] else []))
  {
    if added != [] {
      assert (records + added)[..|records|] == records;
    } else {
      assert records + added == records;
    }
  }

  /** Observing one more frame routes that frame's capture, if it fired, after the earlier ones. */
  lemma RoutedStep(c0: Counters, seen: seq<Frame>, f: Frame, connected0: bool, written0: seq<string>, healthy: bool,
                   connected: bool, written: seq<string>)
    requires SorterFed(connected0, written0, healthy, Captures(Trace(c0, Areas(seen)), seen), connected, written)
    ensures var s := Step(Stabilization.Run(c0, Areas(seen)), f.area).status;
      SorterFed(connected0, written0, healthy, Captures(Trace(c0, Areas(seen + [f])), seen + [f]),
                connected && (healthy || s != Analyzing),
                written + (if s == Analyzing && connected && healthy then [SortLine(CaptureRecord(f.shot).safetyLevel)] else []))
  {
    FeedOne(c0, seen, f);
    var s := Step(Stabilization.Run(c0, Areas(seen)), f.area).status;
    SorterFedStep(connected0, written0, healthy, Captures(Trace(c0, Areas(seen)), seen), connected, written,
                  if s == Analyzing then [CaptureRecord(f.shot)] else []);
  }

  /** Routing the results and then centring at shutdown leaves the bin lines followed by "L90". */
  lemma SessionLog(connected0: bool, written0: seq<string>, healthy: bool, records: seq<FinalAnalyze.AnalysisRecord>,
                   connected: bool, written: seq<string>)
    requires SorterFed(connected0, written0, healthy, records, connected, written)
    ensures written + (if connected && healthy then ["L90\n"] else [])
            == written0 + (if connected0 && healthy then SortLines(records) + ["L90\n"] else [])
  {
    if connected0 && healthy {
      assert written0 + SortLines(records) + ["L90\n"] == written0 + (SortLines(records) + ["L90\n"]);
    }
  }

  class AutoDetectorWithSorting {
    /** `self.prev_frame is not None`. */
    var primed: bool
    var stableCount: nat
    var cooldownCount: nat
    var objectDetected: bool
    /** The status overlaid on each processed frame, in order. */
    var shown: seq<Status>
    /** Every analysis result, in order. */
    var results: seq<FinalAnalyze.AnalysisRecord>
    /** `self.arduino`: the controller if `connect` succeeded, otherwise `None`. */
    const arduino: Sorter.ArduinoController?

    function State(): Counters
      reads this
    {
      Counters(stableCount, cooldownCount, objectDetected)
    }

    predicate Valid()
      reads this, arduino
    {
      && Stabilization.Valid(State())
      && (arduino != null ==> arduino.Valid())
    }

    /** Whether writes to the sorter go through (its port is not one that fails on write). */
    predicate Healthy()
      reads this, arduino
    {
      arduino != null && arduino.port.Some? && arduino.port.value !in arduino.world.faulty
    }

    /**
     * The sorter kept its port and link objects and has had `records` routed
     * since its flag was `connected0` and its log `written0`.
     */
    predicate Routed(port0: Option<string>, hasConnection0: bool, linkOpen0: bool, connected0: bool, written0: seq<string>,
                     records: seq<FinalAnalyze.AnalysisRecord>)
      reads this, arduino
    {
      arduino != null ==>
        && arduino.port == port0 && arduino.hasConnection == hasConnection0 && arduino.linkOpen == linkOpen0
        && SorterFed(connected0, written0, Healthy(), records, arduino.connected, arduino.written)
    }

    /**
     * `__init__`: auto-detect and connect the sorter; keep it only if
     * `connect` succeeded. The home command is refused at that point, so
     * nothing has been written yet.
     */
    constructor (world: ArduinoUtils.SerialWorld)
      ensures Valid()
      ensures !primed && State() == Initial && shown == [] && results == []
      ensures arduino != null <==> ArduinoUtils.FirstArduino(world.ports, world.openable).Some?
      ensures arduino != null ==>
        && fresh(arduino) && arduino.world == world
        && arduino.port == ArduinoUtils.FirstArduino(world.ports, world.openable)
        && arduino.connected && arduino.written == []
    {
      primed := false;
      stableCount, cooldownCount, objectDetected := 0, 0, false;
      shown, results := [], [];
      var controller := new Sorter.ArduinoController(None, 9600, world);
      var ok := controller.Connect();
      arduino := if ok then controller else null;
    }

    /** `perform_sorting`: skipped without a connected sorter; otherwise left for "Safe to Shred", right for anything else. */
    method PerformSorting(safetyLevel: string)
      requires Valid()
      modifies arduino
      ensures Valid()
      ensures arduino != null ==> arduino.port == old(arduino.port) && arduino.hasConnection == old(arduino.hasConnection)
      ensures arduino != null ==> arduino.linkOpen == old(arduino.linkOpen)
      ensures arduino != null ==> arduino.connected == (old(arduino.connected) && Healthy())
      ensures arduino != null ==>
        arduino.written == old(arduino.written) + (if old(arduino.connected) && Healthy() then [SortLine(safetyLevel)] else [])
    {
      if arduino == null || !arduino.connected {
        return;
      }
      if safetyLevel == FinalAnalyze.SafeToShred {
        var _ := arduino.SortSafe();
      } else {
        var _ := arduino.SortUnsafe();
      }
    }

    /** The trigger frame's work: analyse the saved photo, record the result, sort the item. */
    method CaptureAndSort(shot: Shot)
      requires Valid()
      modifies this`results, arduino
      ensures Valid()
      ensures results == old(results) + [CaptureRecord(shot)]
      ensures arduino != null ==>
        && arduino.port == old(arduino.port) && arduino.hasConnection == old(arduino.hasConnection)
        && arduino.linkOpen == old(arduino.linkOpen)
        && arduino.connected == (old(arduino.connected) && Healthy())
        && arduino.written == old(arduino.written)
             + (if old(arduino.connected) && Healthy() then [SortLine(CaptureRecord(shot).safetyLevel)] else [])
    {
      var result := FinalAnalyze.AnalyzeOneImage("auto_" + shot.timestamp + ".jpg", 1, 1, shot.outcome);
      results := results + [result];
      PerformSorting(result.safetyLevel);
    }

    /**
     * A frame compared with the previous one: the same rules as auto_detect.py;
     * on the trigger frame the photo is analysed and the item sorted.
     */
    method Observe(frame: Frame) returns (s: Status)
      requires Valid()
      modifies this`stableCount, this`cooldownCount, this`objectDetected, this`shown, this`results, arduino
      ensures Valid()
      ensures s == Step(old(State()), frame.area).status
      ensures State() == Step(old(State()), frame.area).next
      ensures shown == old(shown) + [s]
      ensures results == old(results) + (if s == Analyzing then [CaptureRecord(frame.shot)] else [])
      ensures arduino != null ==>
        && arduino.port == old(arduino.port) && arduino.hasConnection == old(arduino.hasConnection)
        && arduino.linkOpen == old(arduino.linkOpen)
        && arduino.connected == (old(arduino.connected) && (Healthy() || s != Analyzing))
        && arduino.written == old(arduino.written)
             + (if s == Analyzing && old(arduino.connected) && Healthy() then [SortLine(CaptureRecord(frame.shot).safetyLevel)] else [])
    {
      var area := frame.area;
      s := Waiting;
      if cooldownCount > 0 {
        cooldownCount := cooldownCount - 1;
        s := Cooldown(cooldownCount);
      } else if area > AreaThreshold {
        stableCount := 0;
        s := MotionDetected;
      } else if area < QuietArea {
        stableCount := stableCount + 1;
        if stableCount > StabilityFrames && !objectDetected {
          s := StableNoObject;
        }
      } else {
        stableCount := stableCount + 1;
        if stableCount > StabilityFrames {
          if !objectDetected {
            s := Analyzing;
            CaptureAndSort(frame.shot);
            objectDetected := true;
            cooldownCount := CooldownFrames;
          } else {
            s := ObjectPresent;
          }
        } else {
          s := Stabilizing(stableCount);
        }
      }
      if area < QuietArea && cooldownCount == 0 {
        objectDetected := false;
      }
      shown := shown + [s];
    }

    /**
     * One pass of the watch loop: `frames[i]` is observed after the frames
     * before it, and the counters, overlay statuses, results and sorter log
     * move on by that one frame.
     */
    method Feed(frames: seq<Frame>, i: nat, ghost c0: Counters, ghost shown0: seq<Status>,
                ghost results0: seq<FinalAnalyze.AnalysisRecord>, ghost port0: Option<string>, ghost hasConnection0: bool,
                ghost linkOpen0: bool, ghost connected0: bool, ghost written0: seq<string>)
      requires i < |frames| && Valid()
      requires Fed(c0, frames[..i], shown0, results0, State(), shown, results)
      requires Routed(port0, hasConnection0, linkOpen0, connected0, written0,
                      Captures(Trace(c0, Areas(frames[..i])), frames[..i]))
      modifies this`stableCount, this`cooldownCount, this`objectDetected, this`shown, this`results, arduino
      ensures Valid()
      ensures Fed(c0, frames[..i + 1], shown0, results0, State(), shown, results)
      ensures Routed(port0, hasConnection0, linkOpen0, connected0, written0,
                     Captures(Trace(c0, Areas(frames[..i + 1])), frames[..i + 1]))
    {
      var seen, frame := frames[..i], frames[i];
      assert frames[..i + 1] == seen + [frame];
      ghost var state, shownBefore, resultsBefore := State(), shown, results;
      ghost var connected := arduino != null && arduino.connected;
      ghost var written := if arduino != null then arduino.written else [];
      var s := Observe(frame);
      FedStep(c0, seen, frame, shown0, results0, state, shownBefore, resultsBefore);
      if arduino != null {
        RoutedStep(c0, seen, frame, connected0, written0, Healthy(), connected, written);
      }
    }

    /** The `while True` loop of `run`, over the frames after the first one. */
    method Watch(frames: seq<Frame>)
      requires Valid() && primed
      modifies this`stableCount, this`cooldownCount, this`objectDetected, this`shown, this`results, arduino
      ensures Valid()
      ensures Fed(old(State()), frames, old(shown), old(results), State(), shown, results)
      ensures arduino != null ==>
        && arduino.port == old(arduino.port) && arduino.hasConnection == old(arduino.hasConnection)
        && arduino.linkOpen == old(arduino.linkOpen)
        && SorterFed(old(arduino.connected), old(arduino.written), Healthy(), Captures(Trace(old(State()), Areas(frames)), frames),
                     arduino.connected, arduino.written)
    {
      ghost var c0 := State();
      ghost var shown0, results0 := shown, results;
      ghost var port0 := if arduino != null then arduino.port else None;
      ghost var hasConnection0 := arduino != null && arduino.hasConnection;
      ghost var linkOpen0 := arduino != null && arduino.linkOpen;
      ghost var connected0 := arduino != null && arduino.connected;
      ghost var written0 := if arduino != null then arduino.written else [];
      var i := 0;
      while i < |frames|
        invariant i <= |frames|
        invariant Valid()
        invariant Fed(c0, frames[..i], shown0, results0, State(), shown, results)
        invariant Routed(port0, hasConnection0, linkOpen0, connected0, written0,
                         Captures(Trace(c0, Areas(frames[..i])), frames[..i]))
      {
        Feed(frames, i, c0, shown0, results0, port0, hasConnection0, linkOpen0, connected0, written0);
        i := i + 1;
      }
      assert frames[..i] == frames;
    }

    /** The clean-up after the loop: centre and close the sorter if there is one. */
    method Shutdown()
      requires Valid()
      modifies arduino
      ensures Valid()
      ensures arduino != null ==> !arduino.connected && arduino.port == old(arduino.port)
      ensures arduino != null ==>
        arduino.written == old(arduino.written) + (if old(arduino.connected) && Healthy() then ["L90\n"] else [])
    {
      if arduino != null {
        arduino.Disconnect();
      }
    }

    /**
     * `run`: process camera reads until the camera stops delivering frames or
     * the user quits (`frames` are the reads before that), then shut the
     * sorter down. With a working link the sorter receives exactly one bin
     * line per analysed item, in order, and then the centring line.
     */
    method Run(frames: seq<Frame>)
      requires Valid()
      modifies this, arduino
      ensures Valid()
      ensures primed == (old(primed) || frames != [])
      ensures var fed := if old(primed) || frames == [] then frames else frames[1..];
        && Fed(old(State()), fed, old(shown), old(results), State(), shown, results)
        && (arduino != null ==>
             && !arduino.connected
             && arduino.written == old(arduino.written)
                  + (if old(arduino.connected) && Healthy()
                     then SortLines(Captures(Trace(old(State()), Areas(fed)), fed)) + ["L90\n"]
                     else []))
    {
      var fed := frames;
      if frames != [] && !primed {
        primed := true;
        fed := frames[1..];
      }
      ghost var connected0 := arduino != null && arduino.connected;
      ghost var written0 := if arduino != null then arduino.written else [];
      if primed {
        Watch(fed);
      } else {
        assert shown + [] == shown && results + [] == results;
      }
      ghost var connected := arduino != null && arduino.connected;
      ghost var written := if arduino != null then arduino.written else [];
      Shutdown();
      if arduino != null {
        SessionLog(connected0, written0, Healthy(), Captures(Trace(old(State()), Areas(fed)), fed), connected, written);
      }
    }
  }
}
