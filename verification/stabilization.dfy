/**
 * The per-frame stabilisation/capture decision shared by auto_detect.py and
 * auto_detect_sort.py. Each frame is reduced to its changed area (`total_area`);
 * the detector keeps two counters and a flag and decides, first rule wins:
 * cooldown, motion, quiet scene, or a small steady change (an object at rest).
 */
module Stabilization {

  /** `area_threshold`: a total changed area above this is motion. */
  const AreaThreshold: real := 5000.0
  /** The literal 500: a total changed area below this is a quiet (empty) scene. */
  const QuietArea: real := 500.0
  /** `stability_frames`: steady frames needed before an object counts as at rest. */
  const StabilityFrames: nat := 10
  /** `cooldown_frames`: frames suppressed after a capture. */
  const CooldownFrames: nat := 30

  datatype Counters = Counters(stableCount: nat, cooldownCount: nat, objectDetected: bool)

  /** The status shown on screen for a frame; `Analyzing` is the capture trigger. */
  datatype Status =
    | Cooldown(remaining: nat)
    | MotionDetected
    | Waiting
    | StableNoObject
    | Analyzing
    | ObjectPresent
    | Stabilizing(count: nat)

  /** The fields as `__init__` leaves them. */
  const Initial: Counters := Counters(0, 0, false)

  /** What every reachable state satisfies. */
  predicate Valid(c: Counters) {
    c.cooldownCount <= CooldownFrames
  }

  datatype Outcome = Outcome(next: Counters, status: Status)

  predicate IsMotion(area: real) { area > AreaThreshold }
  predicate IsQuiet(area: real) { area < QuietArea }
  predicate IsSteady(area: real) { QuietArea <= area <= AreaThreshold }

  /** The decision made before the flag-reset rule runs. */
  function Decide(c: Counters, area: real): Outcome {
    if c.cooldownCount > 0 then
      Outcome(c.(cooldownCount := c.cooldownCount - 1), Cooldown(c.cooldownCount - 1))
    else if IsMotion(area) then
      Outcome(c.(stableCount := 0), MotionDetected)
    else if IsQuiet(area) then
      var n := c.stableCount + 1;
      Outcome(c.(stableCount := n), if n > StabilityFrames && !c.objectDetected then StableNoObject else Waiting)
    else
      var n := c.stableCount + 1;
      if n > StabilityFrames then
        if !c.objectDetected then Outcome(Counters(n, CooldownFrames, true), Analyzing)
        else Outcome(c.(stableCount := n), ObjectPresent)
      else
        Outcome(c.(stableCount := n), Stabilizing(n))
  }

  /** One frame (after the first): the decision, then the reset of the handled flag. */
  function Step(c: Counters, area: real): (o: Outcome)
    // cooldown has priority: it only counts down, whatever the area
    ensures c.cooldownCount > 0 ==>
      && o.status == Cooldown(c.cooldownCount - 1)
      && o.next.cooldownCount == c.cooldownCount - 1
      && o.next.stableCount == c.stableCount
    // outside cooldown, motion (strictly above the threshold) resets the stable count
    ensures c.cooldownCount == 0 && IsMotion(area) ==>
      o.status == MotionDetected && o.next.stableCount == 0 && o.next.cooldownCount == 0
    // outside cooldown, any other frame adds exactly one to the stable count
    ensures c.cooldownCount == 0 && !IsMotion(area) ==> o.next.stableCount == c.stableCount + 1
    // only a motion frame lowers the stable count
    ensures o.next.stableCount < c.stableCount ==> c.cooldownCount == 0 && IsMotion(area) && o.next.stableCount == 0
    // the trigger fires exactly on a steady, stable, not yet handled frame outside cooldown
    ensures o.status == Analyzing <==>
      c.cooldownCount == 0 && IsSteady(area) && c.stableCount + 1 > StabilityFrames && !c.objectDetected
    ensures o.status == Analyzing ==> o.next.objectDetected && o.next.cooldownCount == CooldownFrames
    ensures o.status != Analyzing ==> o.next.cooldownCount == (if c.cooldownCount > 0 then c.cooldownCount - 1 else 0)
    // the flag is set only by the trigger and cleared only on a quiet frame that ends with no cooldown
    ensures o.next.objectDetected <==>
      o.status == Analyzing || (c.objectDetected && !(IsQuiet(area) && o.next.cooldownCount == 0))
    ensures Valid(c) ==> Valid(o.next)
  {
    var d := Decide(c, area);
    if IsQuiet(area) && d.next.cooldownCount == 0 then
      Outcome(d.next.(objectDetected := false), d.status)
    else
      d
  }

  /** The status rules of auto_detect.py for a frame outside cooldown. */
  lemma StatusOutsideCooldown(c: Counters, area: real)
    requires c.cooldownCount == 0
    ensures IsQuiet(area) ==>
      Step(c, area).status == (if c.stableCount + 1 > StabilityFrames && !c.objectDetected then StableNoObject else Waiting)
    ensures IsSteady(area) && c.stableCount + 1 > StabilityFrames && c.objectDetected ==>
      Step(c, area).status == ObjectPresent && Step(c, area).next == c.(stableCount := c.stableCount + 1)
    ensures IsSteady(area) && c.stableCount + 1 <= StabilityFrames ==>
      Step(c, area).status == Stabilizing(c.stableCount + 1)
  {
  }

  // ---------------------------------------------------------------------------
  // Runs of frames

  /** The counters after feeding `areas` one frame at a time. */
  function Run(c: Counters, areas: seq<real>): Counters
    decreases |areas|
  {
    if areas == [] then c else Step(Run(c, areas[..|areas| - 1]), areas[|areas| - 1]).next
  }

  /** The status of every frame of `areas`. */
  function Trace(c: Counters, areas: seq<real>): (t: seq<Status>)
    ensures |t| == |areas|
    decreases |areas|
  {
    if areas == [] then []
    else
      var p := areas[..|areas| - 1];
      Trace(c, p) + [Step(Run(c, p), areas[|areas| - 1]).status]
  }

  lemma {:induction false} TraceAt(c: Counters, areas: seq<real>, k: nat)
    requires k < |areas|
    ensures Trace(c, areas)[k] == Step(Run(c, areas[..k]), areas[k]).status
    decreases |areas|
  {
    var p := areas[..|areas| - 1];
    if k < |areas| - 1 {
      TraceAt(c, p, k);
      assert p[..k] == areas[..k];
    } else {
      assert p == areas[..k];
    }
  }

  lemma {:induction false} RunAppend(c: Counters, a: seq<real>, b: seq<real>)
    ensures Run(c, a + b) == Run(Run(c, a), b)
    ensures Trace(c, a + b) == Trace(c, a) + Trace(Run(c, a), b)
    decreases |b|
  {
    if b == [] {
      assert a + b == a;
    } else {
      var b' := b[..|b| - 1];
      assert (a + b)[..|a + b| - 1] == a + b';
      RunAppend(c, a, b');
    }
  }

  /** Every state reached from a valid state is valid. */
  lemma {:induction false} RunValid(c: Counters, areas: seq<real>)
    requires Valid(c)
    ensures Valid(Run(c, areas))
    decreases |areas|
  {
    if areas != [] {
      RunValid(c, areas[..|areas| - 1]);
    }
  }

  /**
   * During a cooldown of `c.cooldownCount` frames every frame reports the
   * countdown, the stable count is frozen and nothing fires.
   */
  lemma {:induction false} CooldownCountsDown(c: Counters, areas: seq<real>)
    requires |areas| <= c.cooldownCount
    ensures Run(c, areas).cooldownCount == c.cooldownCount - |areas|
    ensures Run(c, areas).stableCount == c.stableCount
    ensures forall k :: 0 <= k < |areas| ==> Trace(c, areas)[k] == Cooldown(c.cooldownCount - 1 - k)
    decreases |areas|
  {
    if areas != [] {
      CooldownCountsDown(c, areas[..|areas| - 1]);
    }
  }

  /**
   * Once the flag is set, it stays set and nothing fires until a quiet frame
   * arrives on which the cooldown has run out: a frame `k` with
   * `k + 1 >= c.cooldownCount` is the first that can clear it.
   */
  lemma {:induction false} FlagHeldUntilQuiet(c: Counters, areas: seq<real>)
    requires c.objectDetected
    requires forall k :: 0 <= k < |areas| && k + 1 >= c.cooldownCount ==> !IsQuiet(areas[k])
    ensures Run(c, areas).objectDetected
    ensures Run(c, areas).cooldownCount == if |areas| < c.cooldownCount then c.cooldownCount - |areas| else 0
    ensures forall k :: 0 <= k < |areas| ==> Trace(c, areas)[k] != Analyzing
    decreases |areas|
  {
    if areas != [] {
      FlagHeldUntilQuiet(c, areas[..|areas| - 1]);
    }
  }

  /**
   * Single shot: after a capture, another capture needs the full cooldown and
   * then a quiet frame (the earliest being the frame that ends the cooldown).
   */
  lemma SingleShotAfterCapture(c: Counters, areas: seq<real>, area: real)
    requires c.objectDetected && c.cooldownCount == CooldownFrames
    requires Step(Run(c, areas), area).status == Analyzing
    ensures |areas| >= CooldownFrames
    ensures exists k :: CooldownFrames <= k + 1 <= |areas| && IsQuiet(areas[k])
  {
    if forall k :: 0 <= k < |areas| && k + 1 >= c.cooldownCount ==> !IsQuiet(areas[k]) {
      FlagHeldUntilQuiet(c, areas);
    }
  }

  lemma RunPrefixStep(c: Counters, areas: seq<real>, i: nat)
    requires i < |areas|
    ensures Run(c, areas[..i + 1]) == Step(Run(c, areas[..i]), areas[i]).next
  {
    assert areas[..i + 1][..i] == areas[..i];
  }

  /** The statuses from frame `n` on are the trace of the state reached after `n` frames. */
  lemma TraceSuffix(c: Counters, areas: seq<real>, n: nat, k: nat)
    requires n <= k < |areas|
    ensures Trace(c, areas)[k] == Trace(Run(c, areas[..n]), areas[n..])[k - n]
  {
    var a, b := areas[..n], areas[n..];
    assert a + b == areas;
    RunAppend(c, a, b);
    var t, u := Trace(c, a), Trace(Run(c, a), b);
    assert Trace(c, areas) == t + u;
    assert (t + u)[k] == u[k - n];
  }

  /** The state right after a capture at frame `i`. */
  lemma AfterCapture(c: Counters, areas: seq<real>, i: nat)
    requires i < |areas| && Trace(c, areas)[i] == Analyzing
    ensures Run(c, areas[..i + 1]).objectDetected
    ensures Run(c, areas[..i + 1]).cooldownCount == CooldownFrames
  {
    TraceAt(c, areas, i);
    RunPrefixStep(c, areas, i);
  }

  /**
   * The single-shot guarantee over a whole run: two captures at frames `i < j`
   * are separated by `CooldownFrames` cooldown frames and at least one quiet
   * frame after them.
   */
  lemma SingleShot(c: Counters, areas: seq<real>, i: nat, j: nat)
    requires i < j < |areas|
    requires Trace(c, areas)[i] == Analyzing && Trace(c, areas)[j] == Analyzing
    ensures j - i > CooldownFrames
    ensures forall k :: i < k <= i + CooldownFrames ==> Trace(c, areas)[k] == Cooldown(CooldownFrames - (k - i))
    ensures exists k :: i + CooldownFrames <= k < j && IsQuiet(areas[k])
  {
    SingleShotQuiet(c, areas, i, j);
    SingleShotCooldown(c, areas, i);
  }

  lemma SingleShotQuiet(c: Counters, areas: seq<real>, i: nat, j: nat)
    requires i < j < |areas|
    requires Trace(c, areas)[i] == Analyzing && Trace(c, areas)[j] == Analyzing
    ensures exists k :: i + CooldownFrames <= k < j && IsQuiet(areas[k])
  {
    AfterCapture(c, areas, i);
    var after := Run(c, areas[..i + 1]);
    var between := areas[i + 1..j];
    TraceAt(c, areas, j);
    assert areas[..j] == areas[..i + 1] + between;
    RunAppend(c, areas[..i + 1], between);
    SingleShotAfterCapture(after, between, areas[j]);
    var k :| CooldownFrames <= k + 1 <= |between| && IsQuiet(between[k]);
    assert areas[i + 1 + k] == between[k];
  }

  lemma SingleShotCooldown(c: Counters, areas: seq<real>, i: nat)
    requires i < |areas| && Trace(c, areas)[i] == Analyzing
    ensures forall k :: i < k <= i + CooldownFrames && k < |areas| ==> Trace(c, areas)[k] == Cooldown(CooldownFrames - (k - i))
  {
    forall k | i < k <= i + CooldownFrames && k < |areas|
      ensures Trace(c, areas)[k] == Cooldown(CooldownFrames - (k - i))
    {
      CooldownFrameAfterCapture(c, areas, i, k);
    }
  }

  lemma CooldownFrameAfterCapture(c: Counters, areas: seq<real>, i: nat, k: nat)
    requires i < k <= i + CooldownFrames && k < |areas|
    requires Trace(c, areas)[i] == Analyzing
    ensures Trace(c, areas)[k] == Cooldown(CooldownFrames - (k - i))
  {
    AfterCapture(c, areas, i);
    var after := Run(c, areas[..i + 1]);
    var rest := areas[i + 1..];
    var m := k - i;
    CooldownCountsDown(after, rest[..m]);
    TracePrefix(after, rest, m, m - 1);
    TraceSuffix(c, areas, i + 1, k);
  }

  /** A frame's status does not depend on the frames after it. */
  lemma TracePrefix(c: Counters, areas: seq<real>, n: nat, k: nat)
    requires k < n <= |areas|
    ensures Trace(c, areas[..n])[k] == Trace(c, areas)[k]
  {
    var a, b := areas[..n], areas[n..];
    assert a + b == areas;
    RunAppend(c, a, b);
    var t, u := Trace(c, a), Trace(Run(c, a), b);
    assert Trace(c, areas) == t + u;
    assert (t + u)[k] == t[k];
  }

  /** Frames that never leave the quiet zone never fire a capture. */
  lemma {:induction false} QuietNeverFires(c: Counters, areas: seq<real>)
    requires forall k :: 0 <= k < |areas| ==> IsQuiet(areas[k])
    ensures forall k :: 0 <= k < |areas| ==> Trace(c, areas)[k] in {Waiting, StableNoObject} || Trace(c, areas)[k].Cooldown?
    decreases |areas|
  {
    if areas != [] {
      QuietNeverFires(c, areas[..|areas| - 1]);
    }
  }

  /** Without a motion frame the stable count never drops (cooldown does not reset it). */
  lemma {:induction false} StableCountKeptWithoutMotion(c: Counters, areas: seq<real>)
    requires forall k :: 0 <= k < |areas| ==> !IsMotion(areas[k])
    ensures Run(c, areas).stableCount >= c.stableCount
    decreases |areas|
  {
    if areas != [] {
      StableCountKeptWithoutMotion(c, areas[..|areas| - 1]);
    }
  }

  /**
   * After a capture, once the flag has been cleared and no motion frame has
   * come, the very next steady frame captures again.
   */
  lemma RecaptureWithoutMotion(c: Counters, areas: seq<real>, area: real)
    requires c.stableCount > StabilityFrames
    requires forall k :: 0 <= k < |areas| ==> !IsMotion(areas[k])
    requires Run(c, areas).cooldownCount == 0 && !Run(c, areas).objectDetected
    requires IsSteady(area)
    ensures Step(Run(c, areas), area).status == Analyzing
  {
    StableCountKeptWithoutMotion(c, areas);
  }
}
