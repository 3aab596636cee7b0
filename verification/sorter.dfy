/**
 * utils/sorter.py: the Arduino servo controller. Commands are a letter and a
 * number of degrees ("L180", "R180", "L90", "H90"), each written as one line.
 */
module Sorter {
  import opened Wrappers
  import opened Text
  import ArduinoUtils

  /** `max(0, min(180, degrees))`. */
  function Clamp(degrees: int): (d: nat)
    ensures d <= 180
    ensures 0 <= degrees <= 180 ==> d == degrees
    ensures degrees < 0 ==> d == 0
    ensures degrees > 180 ==> d == 180
  {
    if degrees < 0 then 0 else if degrees > 180 then 180 else degrees
  }

  /**
   * The command `move_servo` sends for `direction` and optional `degrees`,
   * or None when the direction is not left, right or center (any case).
   */
  function ServoCommand(direction: string, degrees: Option<int>): (r: Option<string>)
    ensures r.Some? <==> Lower(direction) in ["left", "right", "center"]
    ensures Lower(direction) == "left" ==> r == Some("L" + NatToString(Clamp(if degrees.Some? then degrees.value else 180)))
    ensures Lower(direction) == "right" ==> r == Some("R" + NatToString(Clamp(if degrees.Some? then degrees.value else 180)))
    ensures Lower(direction) == "center" ==> r == Some("L90")
  {
    var dir := Lower(direction);
    if degrees.None? && dir != "left" && dir != "right" && dir != "center" then None
    else
      var deg := Clamp(if degrees.Some? then degrees.value
                       else if dir == "left" then 180
                       else if dir == "right" then 180
                       else 90);
      if dir == "left" then Some("L" + NatToString(deg))
      else if dir == "right" then Some("R" + NatToString(deg))
      else if dir == "center" then Some("L90")
      else None
  }

  /** How the firmware reads a command line: a letter followed by decimal degrees. */
  function DecodeCommand(line: string): Option<(char, nat)> {
    if |line| >= 2 && (forall i :: 1 <= i < |line| ==> IsDigit(line[i])) then
      Some((line[0], ParseNat(line[1..])))
    else None
  }

  lemma DecodeLetterAndNumber(letter: char, n: nat)
    ensures DecodeCommand([letter] + NatToString(n)) == Some((letter, n))
  {
    var line := [letter] + NatToString(n);
    assert line[1..] == NatToString(n);
    ParseNatToString(n);
  }

  /**
   * Round trip: every command `move_servo` sends decodes to its letter and
   * the clamped angle ("center" always to 90).
   */
  lemma ServoCommandDecodes(direction: string, degrees: Option<int>)
    requires ServoCommand(direction, degrees).Some?
    ensures var deg := Clamp(if degrees.Some? then degrees.value else 180);
      DecodeCommand(ServoCommand(direction, degrees).value) ==
        if Lower(direction) == "left" then Some(('L', deg))
        else if Lower(direction) == "right" then Some(('R', deg))
        else Some(('L', 90))
  {
    var deg := Clamp(if degrees.Some? then degrees.value else 180);
    var dir := Lower(direction);
    if dir == "left" {
      DecodeLetterAndNumber('L', deg);
    } else if dir == "right" {
      DecodeLetterAndNumber('R', deg);
    } else {
      Literals();
      DecodeLetterAndNumber('L', 90);
    }
  }

  /** The values of the literal directions and angles the controller uses. */
  lemma Literals()
    ensures Lower("left") == "left" && Lower("right") == "right" && Lower("center") == "center"
    ensures NatToString(180) == "180" && NatToString(90) == "90"
    ensures "L" + NatToString(90) == "L90"
  {
    assert NatToString(1) == "1";
    assert NatToString(18) == NatToString(1) + "8";
    assert NatToString(9) == "9";
    assert NatToString(90) == NatToString(9) + "0";
  }

  /** The commands of the fixed moves the controller makes. */
  lemma FixedCommands()
    ensures ServoCommand("left", Some(180)) == Some("L180") && "L180" + "\n" == "L180\n"
    ensures ServoCommand("right", Some(180)) == Some("R180") && "R180" + "\n" == "R180\n"
    ensures ServoCommand("center", Some(90)) == Some("L90") && ServoCommand("center", None) == Some("L90")
    ensures "L90" + "\n" == "L90\n"
  {
    Literals();
    assert Clamp(180) == 180;
    assert "L" + NatToString(180) == "L180";
    assert "R" + NatToString(180) == "R180";
  }

  /** The five moves of `test_servo`. */
  const TestSequence: seq<(string, int)> := [("center", 90), ("left", 180), ("center", 90), ("right", 180), ("center", 90)]

  /** The lines `test_servo` writes when every move goes through. */
  const TestLines: seq<string> := ["L90\n", "L180\n", "L90\n", "R180\n", "L90\n"]

  /** Test move `i` is written as line `i` of `TestLines`. */
  lemma TestMove(i: nat)
    requires i < |TestSequence|
    ensures ServoCommand(TestSequence[i].0, Some(TestSequence[i].1)).Some?
    ensures ServoCommand(TestSequence[i].0, Some(TestSequence[i].1)).value + "\n" == TestLines[i]
  {
    FixedCommands();
  }

  lemma PrefixSnoc(lines: seq<string>, i: nat)
    requires i < |lines|
    ensures lines[..i + 1] == lines[..i] + [lines[i]]
  {
  }

  class ArduinoController {
    /** The ports present and how the devices behave (an oracle for the serial library). */
    const world: ArduinoUtils.SerialWorld
    const baudRate: int
    var port: Option<string>
    /** `self.connection is not None` (a closed connection object stays truthy). */
    var hasConnection: bool
    /** Whether the current connection object is open. */
    var linkOpen: bool
    var connected: bool
    /** Every line written to the serial device, in order, newline included. */
    var written: seq<string>

    predicate Valid()
      reads this
    {
      && (connected ==> hasConnection && linkOpen)
      && (hasConnection ==> port.Some?)
      && (linkOpen ==> hasConnection)
    }

    /** `__init__`: keep the given port, or auto-detect one; start disconnected. */
    constructor (port: Option<string>, baudRate: int, world: ArduinoUtils.SerialWorld)
      ensures Valid()
      ensures this.world == world && this.baudRate == baudRate
      ensures this.port == if port.Some? then port else ArduinoUtils.FirstArduino(world.ports, world.openable)
      ensures !hasConnection && !linkOpen && !connected && written == []
    {
      var p := port;
      if p.None? {
        p := ArduinoUtils.FindArduinoPort(world.ports, world.openable);
      }
      this.world := world;
      this.baudRate := baudRate;
      this.port := p;
      hasConnection, linkOpen, connected := false, false, false;
      written := [];
    }

    /**
     * `send_command`: refused unless connected; a write failure drops the
     * connection flag; otherwise the command and a newline are written.
     */
    method SendCommand(command: string) returns (ok: bool)
      requires Valid()
      modifies this`connected, this`written
      ensures Valid()
      ensures ok <==> old(connected) && port.value !in world.faulty
      ensures written == if ok then old(written) + [command + "\n"] else old(written)
      ensures connected == (old(connected) && ok)
    {
      if !connected || !hasConnection {
        return false;
      }
      if port.value in world.faulty {
        // write or flush raised
        connected := false;
        return false;
      }
      written := written + [command + "\n"];
      return true;
    }

    /** `move_servo`: send the command for the direction, or fail without sending. */
    method MoveServo(direction: string, degrees: Option<int>) returns (ok: bool)
      requires Valid()
      modifies this`connected, this`written
      ensures Valid()
      ensures ServoCommand(direction, degrees).None? ==> !ok && written == old(written) && connected == old(connected)
      ensures ServoCommand(direction, degrees).Some? ==>
        && (ok <==> old(connected) && port.value !in world.faulty)
        && written == (if ok then old(written) + [ServoCommand(direction, degrees).value + "\n"] else old(written))
        && connected == (old(connected) && ok)
    {
      var command := ServoCommand(direction, degrees);
      if command.None? {
        return false;
      }
      ok := SendCommand(command.value);
    }

    /** `sort_safe`: push the item into the safe (left) bin. */
    method SortSafe() returns (ok: bool)
      requires Valid()
      modifies this`connected, this`written
      ensures Valid()
      ensures ok <==> old(connected) && port.value !in world.faulty
      ensures written == if ok then old(written) + ["L180\n"] else old(written)
      ensures connected == (old(connected) && ok)
    {
      FixedCommands();
      ok := MoveServo("left", Some(180));
    }

    /** `sort_unsafe`: push the item into the unsafe (right) bin. */
    method SortUnsafe() returns (ok: bool)
      requires Valid()
      modifies this`connected, this`written
      ensures Valid()
      ensures ok <==> old(connected) && port.value !in world.faulty
      ensures written == if ok then old(written) + ["R180\n"] else old(written)
      ensures connected == (old(connected) && ok)
    {
      FixedCommands();
      ok := MoveServo("right", Some(180));
    }

    /**
     * `connect`: find a port if none is known, open it, send the home command
     * (refused unless already connected, since the flag is set afterwards) and
     * mark the controller connected.
     */
    method Connect() returns (ok: bool)
      requires Valid()
      modifies this
      ensures Valid()
      ensures port == if old(port).Some? then old(port) else ArduinoUtils.FirstArduino(world.ports, world.openable)
      ensures ok <==> port.Some? && port.value in world.openable
      ensures ok ==> hasConnection && linkOpen && connected
      ensures ok ==> written == old(written) + (if old(connected) && port.value !in world.faulty then ["H90\n"] else [])
      ensures !ok ==> hasConnection == old(hasConnection) && linkOpen == old(linkOpen)
                      && connected == old(connected) && written == old(written)
    {
      if port.None? {
        port := ArduinoUtils.FindArduinoPort(world.ports, world.openable);
        if port.None? {
          return false;
        }
      }
      if port.value !in world.openable {
        // serial.Serial raised SerialException
        return false;
      }
      hasConnection, linkOpen := true, true;
      var _ := SendCommand("H90");
      assert "H90" + "\n" == "H90\n";
      connected := true;
      return true;
    }

    /** `test_servo`: run the five test moves, stopping at the first failure. */
    method TestServo() returns (ok: bool)
      requires Valid()
      modifies this`connected, this`written
      ensures Valid()
      ensures ok <==> old(connected) && port.value !in world.faulty
      ensures written == if ok then old(written) + TestLines else old(written)
      ensures connected == (old(connected) && ok)
    {
      var i := 0;
      while i < |TestSequence|
        invariant 0 <= i <= |TestSequence|
        invariant Valid()
        invariant i > 0 ==> old(connected) && port.value !in world.faulty
        invariant connected == old(connected)
        invariant written == old(written) + TestLines[..i]
      {
        TestMove(i);
        PrefixSnoc(TestLines, i);
        var (direction, degrees) := TestSequence[i];
        var moved := MoveServo(direction, Some(degrees));
        if !moved {
          return false;
        }
        i := i + 1;
      }
      assert TestLines[..|TestSequence|] == TestLines;
      return true;
    }

    /** `disconnect`: only with a connection object: centre, close, clear the flag. */
    method Disconnect()
      requires Valid()
      modifies this
      ensures Valid()
      ensures port == old(port) && hasConnection == old(hasConnection)
      ensures !old(hasConnection) ==> linkOpen == old(linkOpen) && connected == old(connected) && written == old(written)
      ensures old(hasConnection) ==> !linkOpen && !connected
      ensures old(hasConnection) ==>
        written == old(written) + (if old(connected) && port.value !in world.faulty then ["L90\n"] else [])
    {
      if hasConnection {
        FixedCommands();
        var _ := MoveServo("center", None);
        linkOpen := false;
        connected := false;
      }
    }
  }
}
