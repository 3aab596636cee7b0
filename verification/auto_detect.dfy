/**
 * auto_detect.py: the camera loop of `AutoDetector`. Every frame after the
 * first is reduced to its changed area and fed to the stabilisation rules;
 * the frame that fires the trigger is saved and analysed once.
 */
module AutoDetect {
  import opened Wrappers
  import opened Text
  import opened Stabilization
  import FinalAnalyze

  /** What the analyser answers for a saved photo, and the clock reading that names it. */
  datatype Shot = Shot(timestamp: string, outcome: FinalAnalyze.ModelOutcome)

  /** One camera read: the changed area against the previous frame, and what a capture would see. */
  datatype Frame = Frame(area: real, shot: Shot)

  /**
   * `analyze_one_image(Path(photo_path), 1, 1)` on the photo saved as
   * `captured_photos/auto_<timestamp>.jpg`: the record is keyed by the file name.
   */
  function CaptureRecord(shot: Shot): FinalAnalyze.AnalysisRecord {
    FinalAnalyze.Analyzed("auto_" + shot.timestamp + ".jpg", 1, shot.outcome)
  }

  /** The overlay text for a status; the capture frame reads "ANALYZING...". */
  function StatusText(s: Status): string {
    match s
    case Cooldown(n) => "COOLDOWN: " + NatToString(n)
    case MotionDetected => "MOTION DETECTED"
    case Waiting => "WAITING"
    case StableNoObject => "STABLE - NO OBJECT"
    case Analyzing => "ANALYZING..."
    case ObjectPresent => "OBJECT PRESENT"
    case Stabilizing(n) => "STABILIZING... " + NatToString(n) + "/" + NatToString(StabilityFrames)
  }

  /** The cooldown overlay carries the number of cooldown frames left. */
  lemma CooldownTextShowsCount(n: nat)
    ensures StartsWith(StatusText(Cooldown(n)), "COOLDOWN: ")
    ensures var d := StatusText(Cooldown(n))[10..];
      (forall i :: 0 <= i < |d| ==> IsDigit(d[i])) && ParseNat(d) == n
  {
    var d := NatToString(n);
    ParseNatToString(n);
    StartsWithConcat("COOLDOWN: ", d);
    assert StatusText(Cooldown(n))[10..] == d;
  }

  /** The stabilising overlay reads "STABILIZING... <count>/10". */
  lemma StabilizingTextShowsTarget(n: nat)
    ensures StartsWith(StatusText(Stabilizing(n)), "STABILIZING... ")
    ensures EndsWith(StatusText(Stabilizing(n)), "/10")
  {
    var head := "STABILIZING... " + NatToString(n);
    assert NatToString(10) == "10";
    assert StatusText(Stabilizing(n)) == head + "/10";
    StartsWithConcat("STABILIZING... ", NatToString(n));
    StartsWithLonger(head, "STABILIZING... ", "/10");
    EndsWithConcat(head, "/10");
  }

  /** The console block printed after an analysis; the hazards line only when there are hazards. */
  function ResultLines(r: FinalAnalyze.AnalysisRecord): (lines: seq<string>)
    ensures |lines| == if r.hazards == [] then 3 else 4
    ensures lines[0] == "\nRESULT:" && lines[1] == "  Item: " + r.itemName && lines[2] == "  Safety: " + r.safetyLevel
    ensures r.hazards != [] ==> lines[3] == "  Hazards: " + Join(r.hazards, ", ")
  {
    ["\nRESULT:", "  Item: " + r.itemName, "  Safety: " + r.safetyLevel]
      + (if r.hazards != [] then ["  Hazards: " + Join(r.hazards, ", ")] else [])
  }

  /** The changed areas of a run of frames. */
  function Areas(frames: seq<Frame>): (areas: seq<real>)
    ensures |areas| == |frames|
    ensures forall k :: 0 <= k < |frames| ==> areas[k] == frames[k].area
    decreases |frames|
  {
    if frames == [] then [] else Areas(frames[..|frames| - 1]) + [frames[|frames| - 1].area]
  }

  /** The records of the frames whose status is `Analyzing`, in order. */
  function Captures(statuses: seq<Status>, frames: seq<Frame>): seq<FinalAnalyze.AnalysisRecord>
    requires |statuses| == |frames|
    decreases |frames|
  {
    if frames == [] then []
    else
      var n := |frames|;
      Captures(statuses[..n - 1], frames[..n - 1]) + (if statuses[n - 1] == Analyzing then [CaptureRecord(frames[n - 1].shot)] else [])
  }

  /** Feeding one more frame: one more step, one more status, and its capture if it fired. */
  lemma FeedOne(c: Counters, p: seq<Frame>, f: Frame)
    ensures var o := Step(Stabilization.Run(c, Areas(p)), f.area);
      && Stabilization.Run(c, Areas(p + [f])) == o.next
      && Trace(c, Areas(p + [f])) == Trace(c, Areas(p)) + [o.status]
      && Captures(Trace(c, Areas(p + [f])), p + [f])
         == Captures(Trace(c, Areas(p)), p) + (if o.status == Analyzing then [CaptureRecord(f.shot)] else [])
  {
    assert (p + [f])[..|p|] == p;
    assert Areas(p + [f]) == Areas(p) + [f.area];
    assert (Areas(p) + [f.area])[..|p|] == Areas(p);
    var t := Trace(c, Areas(p + [f]));
    assert t[..|p|] == Trace(c, Areas(p));
  }

  /**
   * The detector after `frames` have been observed from counters `c0`, with
   * statuses `shown0` and results `results0` already recorded.
   */
  predicate Fed(c0: Counters, frames: seq<Frame>, shown0: seq<Status>, results0: seq<FinalAnalyze.AnalysisRecord>,
                state: Counters, shown: seq<Status>, results: seq<FinalAnalyze.AnalysisRecord>)
  {
    && state == Stabilization.Run(c0, Areas(frames))
    && shown == shown0 + Trace(c0, Areas(frames))
    && results == results0 + Captures(Trace(c0, Areas(frames)), frames)
  }

  lemma FedStep(c0: Counters, frames: seq<Frame>, f: Frame, shown0: seq<Status>, results0: seq<FinalAnalyze.AnalysisRecord>,
                state: Counters, shown: seq<Status>, results: seq<FinalAnalyze.AnalysisRecord>)
    requires Fed(c0, frames, shown0, results0, state, shown, results)
    ensures var o := Step(state, f.area);
      Fed(c0, frames + [f], shown0, results0, o.next, shown + [o.status],
          results + (if o.status == Analyzing then [CaptureRecord(f.shot)] else []))
  {
    FeedOne(c0, frames, f);
    var o := Step(state, f.area);
    var t := Trace(c0, Areas(frames));
    var added := if o.status == Analyzing then [CaptureRecord(f.shot)] else [];
    var cs := Captures(t, frames);
    assert shown0 + (t + [o.status]) == (shown0 + t) + [o.status];
    assert results0 + (cs + added) == (results0 + cs) + added;
  }

  /** Nothing is analysed exactly when no status reads `Analyzing`. */
  lemma {:induction false} CapturesOnlyOnTrigger(statuses: seq<Status>, frames: seq<Frame>)
    requires |statuses| == |frames|
    ensures |Captures(statuses, frames)| == 0 <==> forall k :: 0 <= k < |statuses| ==> statuses[k] != Analyzing
    decreases |frames|
  {
    if frames != [] {
      var n := |frames|;
      var sp, fp := statuses[..n - 1], frames[..n - 1];
      CapturesOnlyOnTrigger(sp, fp);
      assert forall k :: 0 <= k < n - 1 ==> sp[k] == statuses[k];
    }
  }

  /** Every analysis belongs to a frame that fired, so there are at most as many as frames. */
  lemma {:induction false} CapturesBounded(statuses: seq<Status>, frames: seq<Frame>)
    requires |statuses| == |frames|
    ensures |Captures(statuses, frames)| <= |frames|
    decreases |frames|
  {
    if frames != [] {
      var n := |frames|;
      CapturesBounded(statuses[..n - 1], frames[..n - 1]);
    }
  }

  /** An all-quiet scene analyses nothing. */
  lemma QuietSceneCapturesNothing(c: Counters, frames: seq<Frame>)
    requires forall k :: 0 <= k < |frames| ==> IsQuiet(frames[k].area)
    ensures Captures(Trace(c, Areas(frames)), frames) == []
  {
    assert forall k :: 0 <= k < |frames| ==> IsQuiet(Areas(frames)[k]);
    QuietNeverFires(c, Areas(frames));
    CapturesOnlyOnTrigger(Trace(c, Areas(frames)), frames);
  }

  class AutoDetector {
    /** `self.prev_frame is not None`. */
    var primed: bool
    var stableCount: nat
    var cooldownCount: nat
    var objectDetected: bool
    /** The status overlaid on each processed frame, in order. */
    var shown: seq<Status>
    /** Every analysis result, in order. */
    var results: seq<FinalAnalyze.AnalysisRecord>

    function State(): Counters
      reads this
    {
      Counters(stableCount, cooldownCount, objectDetected)
    }

    predicate Valid()
      reads this
    {
      Stabilization.Valid(State())
    }

    /** `__init__`: the thresholds are the module constants; no previous frame yet. */
    constructor ()
      ensures Valid()
      ensures !primed && State() == Initial && shown == [] && results == []
    {
      primed := false;
      stableCount, cooldownCount, objectDetected := 0, 0, false;
      shown, results := [], [];
    }

    /**
     * One pass of the frame loop: the first frame only becomes the previous
     * frame, every later one is observed.
     */
    method ProcessFrame(frame: Frame) returns (status: Option<Status>)
      requires Valid()
      modifies this
      ensures Valid() && primed
      ensures !old(primed) ==> status == None && State() == old(State()) && shown == old(shown) && results == old(results)
      ensures old(primed) ==>
        && status == Some(Step(old(State()), frame.area).status)
        && State() == Step(old(State()), frame.area).next
        && shown == old(shown) + [status.value]
        && results == old(results) + (if status.value == Analyzing then [CaptureRecord(frame.shot)] else [])
    {
      if !primed {
        primed := true;
        return None;
      }
      var s := Observe(frame);
      return Some(s);
    }

    /**
     * A frame compared with the previous one: the cooldown / motion / quiet /
     * steady rules, then the flag reset; the photo is analysed on the trigger
     * frame.
     */
    method Observe(frame: Frame) returns (s: Status)
      requires Valid()
      modifies this`stableCount, this`cooldownCount, this`objectDetected, this`shown, this`results
      ensures Valid()
      ensures s == Step(old(State()), frame.area).status
      ensures State() == Step(old(State()), frame.area).next
      ensures shown == old(shown) + [s]
      ensures results == old(results) + (if s == Analyzing then [CaptureRecord(frame.shot)] else [])
    {
      var area := frame.area;
      s := Waiting;
      if cooldownCount > 0 {
        cooldownCount := cooldownCount - 1;
        s := Cooldown(cooldownCount);
      } else if area > AreaThreshold {
        stableCount := 0;
        s := MotionDetected;
      } else if area < QuietArea {
        stableCount := stableCount + 1;
        if stableCount > StabilityFrames && !objectDetected {
          s := StableNoObject;
        }
      } else {
        stableCount := stableCount + 1;
        if stableCount > StabilityFrames {
          if !objectDetected {
            s := Analyzing;
            var result := FinalAnalyze.AnalyzeOneImage("auto_" + frame.shot.timestamp + ".jpg", 1, 1, frame.shot.outcome);
            results := results + [result];
            objectDetected := true;
            cooldownCount := CooldownFrames;
          } else {
            s := ObjectPresent;
          }
        } else {
          s := Stabilizing(stableCount);
        }
      }
      if area < QuietArea && cooldownCount == 0 {
        objectDetected := false;
      }
      shown := shown + [s];
    }

    /** The frame loop once a first frame has been seen. */
    method Watch(frames: seq<Frame>)
      requires Valid() && primed
      modifies this`stableCount, this`cooldownCount, this`objectDetected, this`shown, this`results
      ensures Valid()
      ensures Fed(old(State()), frames, old(shown), old(results), State(), shown, results)
    {
      ghost var c0 := State();
      ghost var shown0 := shown;
      ghost var results0 := results;
      var i := 0;
      while i < |frames|
        invariant i <= |frames|
        invariant Valid()
        invariant Fed(c0, frames[..i], shown0, results0, State(), shown, results)
      {
        ghost var state, shownBefore, resultsBefore := State(), shown, results;
        var _ := Observe(frames[i]);
        FedStep(c0, frames[..i], frames[i], shown0, results0, state, shownBefore, resultsBefore);
        assert frames[..i + 1] == frames[..i] + [frames[i]];
        i := i + 1;
      }
      assert frames[..i] == frames;
    }

    /**
     * `run`: process camera reads until the camera stops delivering frames or
     * the user quits; `frames` are the reads that came before that.
     */
    method Run(frames: seq<Frame>)
      requires Valid()
      modifies this
      ensures Valid()
      ensures primed == (old(primed) || frames != [])
      ensures var fed := if old(primed) || frames == [] then frames else frames[1..];
        Fed(old(State()), fed, old(shown), old(results), State(), shown, results)
    {
      if frames == [] {
        assert shown + [] == shown && results + [] == results;
        return;
      }
      if primed {
        Watch(frames);
      } else {
        var _ := ProcessFrame(frames[0]);
        Watch(frames[1..]);
      }
    }
  }
}
