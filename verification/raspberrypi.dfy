/**
 * raspberrpypi.py: the Raspberry Pi end of the link. It reads one line at a
 * time from the serial port, classifies it as "left", "right" or nothing, and
 * swings the servo to that side before returning it to the middle.
 */
module RaspberryPi {
  import opened Wrappers
  import opened Text

  /** The three duty cycles the script uses, named by the position they give. */
  datatype Position = Left | Right | Mid

  /**
   * The direction strings `move_servo` tells apart: "left", "right", "mid",
   * and every other string.
   */
  datatype Direction = GoLeft | GoRight | GoMid | Unknown

  function DirectionOf(s: string): (d: Direction)
    ensures d == GoLeft <==> s == "left"
    ensures d == GoRight <==> s == "right"
    ensures d == GoMid <==> s == "mid"
  {
    if s == "left" then GoLeft
    else if s == "right" then GoRight
    else if s == "mid" then GoMid
    else Unknown
  }

  /** The string `receive_command` hands to `move_servo` for a direction. */
  function Word(d: Direction): (w: string)
    ensures DirectionOf(w) == d
  {
    match d
    case GoLeft => "left"
    case GoRight => "right"
    case GoMid => "mid"
    case Unknown => "unknown"
  }

  /** The tests of `receive_command` on the stripped, lower-cased line: "left" first. */
  function Classify(l: string): Option<Direction>
  {
    if Mentions(l, "left") then Some(GoLeft)
    else if Mentions(l, "right") then Some(GoRight)
    else None
  }

  /**
   * `receive_command` on one line already read and decoded; the string it
   * returns ("left" or "right") is given as its `Direction`.
   */
  function ReceiveCommand(line: string): (r: Option<Direction>)
    ensures r == None || r == Some(GoLeft) || r == Some(GoRight)
  {
    Classify(Lower(Strip(line)))
  }

  lemma ClassifyWords(l: string)
    ensures Classify(l) == Some(GoLeft) <==> Contains(l, "left")
    ensures Classify(l) == Some(GoRight) <==> !Contains(l, "left") && Contains(l, "right")
    ensures Classify(l) == None <==> !Contains(l, "left") && !Contains(l, "right")
  {
    MentionsContains(l, "left");
    MentionsContains(l, "right");
  }

  /**
   * Which answer a line gets depends only on the words in it: "left" wins even
   * when the line also says "right", and surrounding whitespace never matters.
   */
  lemma ReceiveCommandClassifies(line: string)
    ensures ReceiveCommand(line) == Some(GoLeft) <==> Contains(Lower(line), "left")
    ensures ReceiveCommand(line) == Some(GoRight) <==> !Contains(Lower(line), "left") && Contains(Lower(line), "right")
    ensures ReceiveCommand(line) == None <==> !Contains(Lower(line), "left") && !Contains(Lower(line), "right")
  {
    var l := Lower(Strip(line));
    assert ReceiveCommand(line) == Classify(l);
    ClassifyWords(l);
    NormalFormKeepsWords(line, "left");
    NormalFormKeepsWords(line, "right");
    assert Contains(l, "left") == Contains(Lower(line), "left");
    assert Contains(l, "right") == Contains(Lower(line), "right");
  }

  lemma NormalFormKeepsWords(line: string, w: string)
    requires NoSpace(w)
    ensures Contains(Lower(Strip(line)), w) <==> Contains(Lower(line), w)
  {
    LowerStrip(line);
    StripKeepsWords(Lower(line), w);
  }

  lemma NormalFormIgnoresCase(line: string)
    ensures Lower(Strip(Lower(line))) == Lower(Strip(line))
  {
    LowerStrip(Lower(line));
    LowerStrip(line);
    LowerIdempotent(line);
  }

  /** The classification does not depend on letter case. */
  lemma ReceiveCommandIgnoresCase(line: string)
    ensures ReceiveCommand(Lower(line)) == ReceiveCommand(line)
  {
    NormalFormIgnoresCase(line);
  }

  /** The lines the sender writes ("LEFT\n", "RIGHT\n") are understood whatever their case. */
  lemma SentLeftUnderstood(word: string)
    requires Lower(word) == "left"
    ensures ReceiveCommand(word + "\n") == Some(GoLeft)
  {
    var a := Lower(word + "\n");
    LowerConcat(word, "\n");
    assert a[0..4] == "left";
    assert OccursAt(a, "left", 0);
    ReceiveCommandClassifies(word + "\n");
  }

  lemma SentRightUnderstood(word: string)
    requires Lower(word) == "right"
    ensures ReceiveCommand(word + "\n") == Some(GoRight)
  {
    var b := Lower(word + "\n");
    LowerConcat(word, "\n");
    assert b == "right\n";
    assert b[0] == 'r' && b[1] == 'i' && b[2] == 'g';
    forall i | 0 <= i <= |b| - 4
      ensures !OccursAt(b, "left", i)
    {
      assert b[i] != 'l';
      assert b[i..i + 4][0] == b[i];
    }
    assert !Contains(b, "left");
    assert b[0..5] == "right";
    assert OccursAt(b, "right", 0);
    ReceiveCommandClassifies(word + "\n");
  }

  /** A read that times out yields an empty line, which asks for nothing. */
  lemma EmptyLineIgnored()
    ensures ReceiveCommand("") == None
  {
    ReceiveCommandClassifies("");
  }

  /** The positions one `move_servo(direction)` call commands, in order. */
  function MoveSequence(direction: Direction): (ps: seq<Position>)
    ensures 1 <= |ps| <= 2 && ps[|ps| - 1] == Mid
    ensures direction == GoLeft <==> ps == [Left, Mid]
    ensures direction == GoRight <==> ps == [Right, Mid]
    ensures direction == Unknown <==> ps == [Mid]
  {
    match direction
    case GoLeft => [Left, Mid]
    case GoRight => [Right, Mid]
    case GoMid => [Mid, Mid]
    case Unknown => [Mid]
  }

  /** The answer `receive_command` gives for each line the port delivers. */
  function Answers(lines: seq<string>): (a: seq<Option<Direction>>)
    ensures |a| == |lines|
  {
    seq(|lines|, k requires 0 <= k < |lines| => ReceiveCommand(lines[k]))
  }

  /** The directions among a run of answers, in order. */
  function Kept(answers: seq<Option<Direction>>): seq<Direction>
    decreases |answers|
  {
    if answers == [] then []
    else
      var c := answers[|answers| - 1];
      Kept(answers[..|answers| - 1]) + (if c.Some? then [c.value] else [])
  }

  /** The directions `main` acts on: the lines that classify as something, in order. */
  function Directions(lines: seq<string>): seq<Direction>
  {
    Kept(Answers(lines))
  }

  /** The positions commanded by one `move_servo` call per direction. */
  function Moves(ds: seq<Direction>): seq<Position>
    decreases |ds|
  {
    if ds == [] then [] else Moves(ds[..|ds| - 1]) + MoveSequence(ds[|ds| - 1])
  }

  lemma KeptSnoc(answers: seq<Option<Direction>>, i: nat)
    requires i < |answers|
    ensures Kept(answers[..i + 1]) == Kept(answers[..i]) + (if answers[i].Some? then [answers[i].value] else [])
  {
    assert answers[..i + 1][..i] == answers[..i];
  }

  /** Lines that classify as nothing add no direction. */
  lemma {:induction false} KeptSkipsSilence(answers: seq<Option<Direction>>, a: nat, b: nat)
    requires a <= b <= |answers|
    requires forall k :: a <= k < b ==> answers[k].None?
    ensures Kept(answers[..b]) == Kept(answers[..a])
    decreases b - a
  {
    if a < b {
      KeptSkipsSilence(answers, a, b - 1);
      KeptSnoc(answers, b - 1);
    }
  }

  lemma MovesSnoc(ds: seq<Direction>, d: Direction)
    ensures Moves(ds + [d]) == Moves(ds) + MoveSequence(d)
  {
    assert (ds + [d])[..|ds|] == ds;
  }

  /** Each `move_servo` call commands one or two positions and leaves the servo in the middle. */
  lemma {:induction false} MovesShape(ds: seq<Direction>)
    ensures |ds| <= |Moves(ds)| <= 2 * |ds|
    ensures ds != [] ==> Moves(ds)[|Moves(ds)| - 1] == Mid
    decreases |ds|
  {
    if ds != [] {
      MovesShape(ds[..|ds| - 1]);
    }
  }

  /** Answers that are all "left" or "right" move the servo out and back: two positions each. */
  lemma {:induction false} MovesOfKept(answers: seq<Option<Direction>>)
    requires forall k :: 0 <= k < |answers| && answers[k].Some? ==> answers[k].value != GoMid && answers[k].value != Unknown
    ensures |Moves(Kept(answers))| == 2 * |Kept(answers)|
    decreases |answers|
  {
    if answers != [] {
      var init := answers[..|answers| - 1];
      MovesOfKept(init);
      var c := answers[|answers| - 1];
      assert forall k :: 0 <= k < |init| ==> init[k] == answers[k];
      if c.Some? {
        assert Kept(answers) == Kept(init) + [c.value];
        MovesSnoc(Kept(init), c.value);
        assert |MoveSequence(c.value)| == 2;
      } else {
        assert Kept(answers) == Kept(init) + [];
        assert Kept(init) + [] == Kept(init);
      }
    }
  }

  /** Every direction `main` acts on swings the servo out and back: two positions each. */
  lemma MovesOfDirections(lines: seq<string>)
    ensures |Moves(Directions(lines))| == 2 * |Directions(lines)|
  {
    MovesOfKept(Answers(lines));
  }

  /** The PWM output and the serial port of the script. */
  class ServoRig {
    /** Every position commanded so far, starting with the one `start` sets. */
    var positions: seq<Position>
    /** False once `cleanup` has stopped the PWM and closed the port. */
    var active: bool

    constructor ()
      ensures positions == [Mid] && active
    {
      positions := [Mid];
      active := true;
    }

    /** `move_servo`: the requested side, if it is one, then back to the middle. */
    method MoveServo(direction: string)
      modifies this`positions
      ensures positions == old(positions) + MoveSequence(DirectionOf(direction))
      ensures positions[|positions| - 1] == Mid
    {
      if direction == "left" {
        positions := positions + [Left];
      } else if direction == "right" {
        positions := positions + [Right];
      } else if direction == "mid" {
        positions := positions + [Mid];
      }
      positions := positions + [Mid];
    }

    method Cleanup()
      modifies this`active
      ensures !active
    {
      active := false;
    }

    /**
     * `main`: poll lines until one classifies, move once, repeat. `lines` are
     * the lines the port delivers (a read that times out gives ""); the run
     * ends when they are used up, and `cleanup` runs in the `finally`.
     */
    method Serve(lines: seq<string>)
      modifies this
      ensures positions == old(positions) + Moves(Directions(lines))
      ensures !active
    {
      var i := 0;
      while i < |lines|
        invariant 0 <= i <= |lines|
        invariant positions == old(positions) + Moves(Kept(Answers(lines)[..i]))
      {
        var start := i;
        var direction;
        direction, i := PollDirection(lines, start);
        PolledMoves(old(positions), lines, start, i, direction);
        if direction.Some? {
          MoveServo(Word(direction.value));
        }
      }
      assert Answers(lines)[..|lines|] == Answers(lines);
      Cleanup();
    }
  }

  /** No line in `lines[a..b]` classifies as a direction. */
  predicate Silent(lines: seq<string>, a: nat, b: nat)
    requires a <= b <= |lines|
  {
    forall k :: a <= k < b ==> ReceiveCommand(lines[k]).None?
  }

  /**
   * The inner loop of `main`: read lines from `start` until one classifies.
   * Either it returns that line's direction, with `i` just past the line and
   * every line before it since `start` silent, or the lines run out silent.
   */
  method PollDirection(lines: seq<string>, start: nat) returns (direction: Option<Direction>, i: nat)
    requires start <= |lines|
    ensures start <= i <= |lines|
    ensures direction.None? ==> i == |lines| && Silent(lines, start, i)
    ensures direction.Some? ==> start < i && Silent(lines, start, i - 1) && direction == ReceiveCommand(lines[i - 1])
  {
    i := start;
    direction := None;
    while direction.None? && i < |lines|
      invariant start <= i <= |lines|
      invariant direction.None? ==> Silent(lines, start, i)
      invariant direction.Some? ==> start < i && Silent(lines, start, i - 1) && direction == ReceiveCommand(lines[i - 1])
    {
      direction := ReceiveCommand(lines[i]);
      i := i + 1;
    }
  }

  /** A run of silent answers, closed by at most one direction, adds that direction. */
  lemma RoundKept(answers: seq<Option<Direction>>, start: nat, i: nat, direction: Option<Direction>)
    requires start <= i <= |answers|
    requires direction.None? ==> forall k :: start <= k < i ==> answers[k].None?
    requires direction.Some? ==> start < i && answers[i - 1] == direction && forall k :: start <= k < i - 1 ==> answers[k].None?
    ensures direction.None? ==> Kept(answers[..i]) == Kept(answers[..start])
    ensures direction.Some? ==> Kept(answers[..i]) == Kept(answers[..start]) + [direction.value]
  {
    if direction.None? {
      KeptSkipsSilence(answers, start, i);
    } else {
      KeptSkipsSilence(answers, start, i - 1);
      KeptSnoc(answers, i - 1);
    }
  }

  /** What one round of polling adds to the directions acted on. */
  lemma PolledDirections(lines: seq<string>, start: nat, i: nat, direction: Option<Direction>)
    requires start <= i <= |lines|
    requires direction.None? ==> Silent(lines, start, i)
    requires direction.Some? ==> start < i && Silent(lines, start, i - 1) && direction == ReceiveCommand(lines[i - 1])
    ensures direction.None? ==> Kept(Answers(lines)[..i]) == Kept(Answers(lines)[..start])
    ensures direction.Some? ==> Kept(Answers(lines)[..i]) == Kept(Answers(lines)[..start]) + [direction.value]
  {
    var answers := Answers(lines);
    var end := if direction.None? then i else i - 1;
    forall k | start <= k < end
      ensures answers[k].None?
    {
      assert answers[k] == ReceiveCommand(lines[k]);
    }
    if direction.Some? {
      assert answers[i - 1] == ReceiveCommand(lines[i - 1]);
    }
    RoundKept(answers, start, i, direction);
  }

  /** The positions one round of polling and moving adds. */
  lemma PolledMoves(before: seq<Position>, lines: seq<string>, start: nat, i: nat, direction: Option<Direction>)
    requires start <= i <= |lines|
    requires direction.None? ==> Silent(lines, start, i)
    requires direction.Some? ==> start < i && Silent(lines, start, i - 1) && direction == ReceiveCommand(lines[i - 1])
    ensures direction.None? ==> before + Moves(Kept(Answers(lines)[..i])) == before + Moves(Kept(Answers(lines)[..start]))
    ensures direction.Some? ==> before + Moves(Kept(Answers(lines)[..i]))
                                == before + Moves(Kept(Answers(lines)[..start])) + MoveSequence(direction.value)
  {
    PolledDirections(lines, start, i, direction);
    if direction.Some? {
      MovesSnoc(Kept(Answers(lines)[..start]), direction.value);
    }
  }

  /** After serving any input the servo rests in the middle. */
  lemma ServeEndsAtMid(before: seq<Position>, lines: seq<string>)
    requires before != [] && before[|before| - 1] == Mid
    ensures var after := before + Moves(Directions(lines)); after[|after| - 1] == Mid
  {
    MovesShape(Directions(lines));
  }
}
