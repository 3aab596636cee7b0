/**
 * utils/arduino_utils.py: find the Arduino among the serial ports by keyword,
 * confirming each candidate with a probe open.
 */
module ArduinoUtils {
  import opened Wrappers
  import opened Text

  /** One entry of `serial.tools.list_ports.comports()`. */
  datatype PortInfo = PortInfo(device: string, description: string)

  /**
   * The serial world the scripts see: the listed ports, the devices that can
   * be opened, and the devices on which a write or flush raises.
   */
  datatype SerialWorld = SerialWorld(ports: seq<PortInfo>, openable: set<string>, faulty: set<string>)

  const ArduinoKeywords: seq<string> := ["usbmodem", "usbserial", "Arduino", "CH340", "CP210", "FTDI", "USB"]

  /** The lower-cased `"device description"` string the keywords are matched against. */
  function PortText(p: PortInfo): string {
    Lower(p.device + " " + p.description)
  }

  predicate KeywordMatches(p: PortInfo, keyword: string) {
    Contains(PortText(p), Lower(keyword))
  }

  predicate IsCandidate(p: PortInfo) {
    exists k | 0 <= k < |ArduinoKeywords| :: KeywordMatches(p, ArduinoKeywords[k])
  }

  predicate Accepted(p: PortInfo, openable: set<string>) {
    IsCandidate(p) && p.device in openable
  }

  /** The device of the first port, in list order, that is a candidate and opens. */
  function FirstArduino(ports: seq<PortInfo>, openable: set<string>): (r: Option<string>)
    ensures r.None? <==> forall i :: 0 <= i < |ports| ==> !Accepted(ports[i], openable)
    ensures r.Some? ==> exists i ::
      && 0 <= i < |ports| && ports[i].device == r.value && Accepted(ports[i], openable)
      && forall j :: 0 <= j < i ==> !Accepted(ports[j], openable)
  {
    if ports == [] then None
    else if Accepted(ports[0], openable) then Some(ports[0].device)
    else
      var r := FirstArduino(ports[1..], openable);
      assert forall i :: 1 <= i < |ports| ==> ports[i] == ports[1..][i - 1];
      r
  }

  /** Any port whose text mentions "usb", in any letter case, is a candidate. */
  lemma UsbPortIsCandidate(p: PortInfo)
    requires Contains(PortText(p), "usb")
    ensures IsCandidate(p)
  {
    assert Lower(ArduinoKeywords[6]) == "usb";
    assert KeywordMatches(p, ArduinoKeywords[6]);
  }

  /**
   * The inner loop of `find_arduino_port` for one port: try the keywords in
   * order and probe-open the port on each match.
   */
  method ProbePort(port: PortInfo, openable: set<string>) returns (found: bool)
    ensures found <==> Accepted(port, openable)
  {
    var portText := Lower(port.device + " " + port.description);
    var k := 0;
    while k < |ArduinoKeywords|
      invariant 0 <= k <= |ArduinoKeywords|
      invariant forall m :: 0 <= m < k ==> !(KeywordMatches(port, ArduinoKeywords[m]) && port.device in openable)
    {
      if Contains(portText, Lower(ArduinoKeywords[k])) {
        // the probe `serial.Serial(port.device, 9600, timeout=1)`; a failure moves on to the next keyword
        if port.device in openable {
          return true;
        }
      }
      k := k + 1;
    }
    return false;
  }

  /** The first accepted port of `ports[i..]` is decided by `ports[i]` or left to the rest. */
  lemma FirstArduinoFrom(ports: seq<PortInfo>, openable: set<string>, i: nat)
    requires i < |ports|
    ensures Accepted(ports[i], openable) ==> FirstArduino(ports[i..], openable) == Some(ports[i].device)
    ensures !Accepted(ports[i], openable) ==> FirstArduino(ports[i..], openable) == FirstArduino(ports[i + 1..], openable)
  {
    assert ports[i..][0] == ports[i];
    assert ports[i..][1..] == ports[i + 1..];
  }

  /** `find_arduino_port`: scan ports, then keywords; probe-open each match. */
  method FindArduinoPort(ports: seq<PortInfo>, openable: set<string>) returns (r: Option<string>)
    ensures r == FirstArduino(ports, openable)
  {
    var i := 0;
    assert ports[0..] == ports;
    while i < |ports|
      invariant 0 <= i <= |ports|
      invariant FirstArduino(ports, openable) == FirstArduino(ports[i..], openable)
    {
      var found := ProbePort(ports[i], openable);
      FirstArduinoFrom(ports, openable, i);
      if found {
        return Some(ports[i].device);
      }
      i := i + 1;
    }
    assert ports[i..] == [];
    return None;
  }

  /**
   * `get_arduino_connection`: the device of the opened connection, or None
   * when no port is found (an empty device name counts as none) or it fails to open.
   */
  method GetArduinoConnection(world: SerialWorld) returns (conn: Option<string>)
    ensures FirstArduino(world.ports, world.openable) == None ==> conn == None
    ensures conn.Some? <==> match FirstArduino(world.ports, world.openable)
                              case None => false
                              case Some(d) => d != "" && d in world.openable
    ensures conn.Some? ==> conn == FirstArduino(world.ports, world.openable)
  {
    var port := FindArduinoPort(world.ports, world.openable);
    if port == None || port.value == "" {
      return None;
    }
    if port.value in world.openable {
      conn := port;
    } else {
      conn := None;
    }
  }
}
