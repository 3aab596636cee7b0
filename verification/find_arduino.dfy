/**
 * tests/find_arduino.py: the diagnostic search, which matches device and
 * description separately against a shorter id list and does not probe.
 */
module FindArduino {
  import opened Wrappers
  import opened Text
  import ArduinoUtils

  const ArduinoIds: seq<string> := ["usbmodem", "usbserial", "Arduino", "CH340", "CP210", "FTDI"]

  predicate IdMatches(p: ArduinoUtils.PortInfo, id: string) {
    Contains(Lower(p.device), Lower(id)) || Contains(Lower(p.description), Lower(id))
  }

  predicate Matches(p: ArduinoUtils.PortInfo) {
    exists k | 0 <= k < |ArduinoIds| :: IdMatches(p, ArduinoIds[k])
  }

  /** `find_arduino`: the device of the first matching port, or None. */
  method Find(ports: seq<ArduinoUtils.PortInfo>) returns (r: Option<string>)
    ensures ports == [] ==> r == None
    ensures r.None? <==> forall i :: 0 <= i < |ports| ==> !Matches(ports[i])
    ensures r.Some? ==> exists i ::
      && 0 <= i < |ports| && ports[i].device == r.value && Matches(ports[i])
      && forall j :: 0 <= j < i ==> !Matches(ports[j])
  {
    if |ports| == 0 {
      return None;
    }
    var i := 0;
    while i < |ports|
      invariant 0 <= i <= |ports|
      invariant forall j :: 0 <= j < i ==> !Matches(ports[j])
    {
      var port := ports[i];
      var portLower := Lower(port.device);
      var descLower := Lower(port.description);
      var k := 0;
      while k < |ArduinoIds|
        invariant 0 <= k <= |ArduinoIds|
        invariant forall m :: 0 <= m < k ==> !IdMatches(port, ArduinoIds[m])
      {
        var id := Lower(ArduinoIds[k]);
        if Contains(portLower, id) || Contains(descLower, id) {
          assert IdMatches(port, ArduinoIds[k]);
          return Some(port.device);
        }
        k := k + 1;
      }
      i := i + 1;
    }
    return None;
  }

  /**
   * Every port the diagnostic script accepts is also a candidate of
   * utils/arduino_utils.py: its ids are among that keyword list, and a match
   * in the device or the description is a match in "device description".
   */
  lemma MatchIsCandidate(p: ArduinoUtils.PortInfo)
    requires Matches(p)
    ensures ArduinoUtils.IsCandidate(p)
  {
    var k :| 0 <= k < |ArduinoIds| && IdMatches(p, ArduinoIds[k]);
    assert ArduinoIds[k] == ArduinoUtils.ArduinoKeywords[k];
    var id := Lower(ArduinoIds[k]);
    LowerConcat(p.device + " ", p.description);
    LowerConcat(p.device, " ");
    assert ArduinoUtils.PortText(p) == Lower(p.device) + Lower(" ") + Lower(p.description);
    if Contains(Lower(p.device), id) {
      ContainsLeft(Lower(p.device), Lower(" ") + Lower(p.description), id);
      assert Lower(p.device) + (Lower(" ") + Lower(p.description)) == ArduinoUtils.PortText(p);
    } else {
      ContainsRight(Lower(p.device) + Lower(" "), Lower(p.description), id);
    }
    assert ArduinoUtils.KeywordMatches(p, ArduinoUtils.ArduinoKeywords[k]);
  }
}
