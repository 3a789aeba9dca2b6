/** Worked examples of the engine on concrete address blocks: a Raspberry Pi,
    a TP-Link router, an unmatched MQTT device, cache hits and forced refreshes,
    plus the vendor-table quirks the rule order produces. Each example holds for
    every MAC in the named block, in either letter case.

    The vendor-label lemmas take the label as a parameter pinned by `requires`
    (`v == "Raspberry Pi"`) rather than writing the literal inline: the solver
    then reasons about `v` and a few chosen slices of it instead of unfolding
    the whole literal at every use, which keeps each proof small. */
module Scenarios {
  import opened Base
  import opened Strings
  import opened Vendors
  import opened Engine

  /** "Raspberry Pi" names neither a router nor an access point. */
  lemma RaspberryPiNotAccessPoint(v: string, ports: set<int>)
    requires v == "Raspberry Pi"
    ensures !Fires(AccessPoint, v, ports)
  {
    NotContainsMissingChar(v, "Router", 1);
    NotContainsMissingChar(v, "AP", 0);
  }

  /** "Raspberry Pi" mentions the dev-board word "PI" at index 10. */
  lemma RaspberryPiMentionsPi(v: string)
    requires v == "Raspberry Pi"
    ensures MentionsAny(v, DevBoardWords)
  {
    assert Upper(v)[10..12] == "PI";
    MentionsAt(v, DevBoardWords, 2, 10);
  }

  /** Where the Raspberry Pi entry leads: a dev board whatever the ports. */
  lemma RaspberryPiRules(v: string, ports: set<int>)
    requires v == "Raspberry Pi"
    ensures Pick(v, ports) == DevBoard
    ensures Label(DevBoard, v) == "Dev Board: Raspberry Pi"
  {
    RaspberryPiNotAccessPoint(v, ports);
    RaspberryPiMentionsPi(v);
  }

  /** A MAC in the B8:27:EB block is a Raspberry Pi dev board at 90 (10 + 50 + 30),
      whatever the probe says, and a fresh classification stores exactly that record. */
  lemma ScenarioRaspberryPi(ip: string, mac: string, probe: Probe, now: string)
    requires StartsWith(Upper(mac), "B8:27:EB")
    ensures var o := Classify(ip, mac, map[], false, probe, now);
            && o.classification == "Dev Board: Raspberry Pi"
            && o.confidence == 90
            && o.cache == map[Upper(mac) := Record(ip, "Dev Board: Raspberry Pi", 90, now)]
            && o.saved
  {
    LookupOuiDb(0, mac);
    LookupCaseInsensitive(OuiDb, mac);
    RaspberryPiRules(LookupVendor(Upper(mac)), OpenPorts(probe));
  }

  /** With `force`, a stale record for a Raspberry Pi is recomputed and overwritten,
      and the records of other MACs are kept. */
  lemma ScenarioForcedPi(ip: string, mac: string, cache: Cache, probe: Probe, now: string)
    requires StartsWith(Upper(mac), "B8:27:EB")
    ensures var o := Classify(ip, mac, cache, true, probe, now);
            && o.classification == "Dev Board: Raspberry Pi"
            && o.confidence == 90
            && o.cache == cache[Upper(mac) := Record(ip, "Dev Board: Raspberry Pi", 90, now)]
            && o.saved
  {
    LookupOuiDb(0, mac);
    LookupCaseInsensitive(OuiDb, mac);
    RaspberryPiRules(LookupVendor(Upper(mac)), OpenPorts(probe));
  }

  /** A Raspberry Pi already in the cache is answered from the cache without probing:
      the stored Raspberry Pi pair comes back and the cache is left alone. */
  lemma ScenarioCachedPi(ip: string, mac: string, stored: Record, probe: Probe, now: string)
    requires StartsWith(Upper(mac), "B8:27:EB")
    requires stored.classification == "Dev Board: Raspberry Pi" && stored.confidence == 90
    ensures var cache := map[Upper(mac) := stored];
            var o := Classify(ip, mac, cache, false, probe, now);
            o.classification == "Dev Board: Raspberry Pi" && o.confidence == 90 && o.cache == cache && !o.saved
  {
  }

  /** A label naming a router (or containing "AP") is an access point, whatever the ports. */
  lemma RouterRule(v: string, ports: set<int>)
    requires Contains(v, "Router") || Contains(v, "AP")
    ensures Pick(v, ports) == AccessPoint
  {
  }

  /** "TP-Link Router" names a router, and its access-point label. */
  lemma TpLinkRouterLabel(v: string)
    requires v == "TP-Link Router"
    ensures Contains(v, "Router")
    ensures Label(AccessPoint, v) == "AP: TP-Link Router"
  {
    ContainsAt(v, "Router", 8);
  }

  /** A MAC in the F4:F2:6D block is a TP-Link access point at 90; the cap at 100 does not bite. */
  lemma ScenarioRouter(ip: string, mac: string, probe: Probe, now: string)
    requires StartsWith(Upper(mac), "F4:F2:6D")
    ensures var o := Classify(ip, mac, map[], false, probe, now);
            o.classification == "AP: TP-Link Router" && o.confidence == 90
  {
    LookupOuiDb(9, mac);
    LookupCaseInsensitive(OuiDb, mac);
    TpLinkRouterLabel(LookupVendor(Upper(mac)));
    RouterRule(LookupVendor(Upper(mac)), OpenPorts(probe));
  }

  /** The two labels an unmatched MAC can receive. */
  lemma UnknownLabels(v: string)
    requires v == Unknown
    ensures Label(IoTDevice, v) == "IoT Device: Unknown"
    ensures Label(UnknownDevice, v) == "Unknown Device (Unknown)"
  {
  }

  /** The fresh verdict for an upper-cased MAC that matches no directory entry and lies
      outside the generic octets depends on the ports alone. */
  lemma StrangerVerdict(key: string, ports: set<int>)
    requires LookupVendor(key) == Unknown
    requires Take(key, 2) !in GenericOctets
    ensures Assess(key, ports) ==
              if MqttPort in ports || CoapPort in ports
              then Verdict("IoT Device: Unknown", 30)
              else Verdict("Unknown Device (Unknown)", 10)
  {
    var v := LookupVendor(key);
    UnknownVendorRules(ports);
    assert Pick(v, ports) == Pick(Unknown, ports);
    UnknownLabels(v);
    assert SignalBonus(key, v) == 0;
  }

  /** A MAC matching no directory entry and outside the generic octets is classified by
      its ports alone: an IoT device at 10 + 20 when MQTT or CoAP is open, otherwise an
      unknown device at the bare 10. */
  lemma ScenarioStranger(ip: string, mac: string, probe: Probe, now: string)
    requires LookupVendor(mac) == Unknown
    requires Take(Upper(mac), 2) !in GenericOctets
    ensures var o := Classify(ip, mac, map[], false, probe, now);
            var ports := OpenPorts(probe);
            if MqttPort in ports || CoapPort in ports
            then o.classification == "IoT Device: Unknown" && o.confidence == 30
            else o.classification == "Unknown Device (Unknown)" && o.confidence == 10
  {
    LookupCaseInsensitive(OuiDb, mac);
    StrangerVerdict(Upper(mac), OpenPorts(probe));
  }

  /** No `OUI_DB` key begins with the letter A. */
  lemma NoKeyStartsWithA()
    ensures forall i :: 0 <= i < |OuiDb| ==> |OuiDb[i].0| > 0 && OuiDb[i].0[0] != 'A'
  {
  }

  /** No directory key starts with "AA", so a MAC beginning with AA is looked up as
      "Unknown". */
  lemma LookupMissesA(mac: string)
    requires StartsWith(Upper(mac), "AA")
    ensures LookupVendor(mac) == Unknown
  {
    OuiDbWellFormed();
    NoKeyStartsWithA();
    var p := MacPrefix(mac);
    assert p[0] == 'A';
    forall i | 0 <= i < |OuiDb|
      ensures !StartsWith(p, OuiDb[i].0)
    {
      assert OuiDb[i].0[0] != p[0];
    }
    LookupUnknownIff(OuiDb, mac);
  }

  /** `AA:BB:CC:DD:EE:FF` is such a stranger: with port 1883 open it is
      "IoT Device: Unknown" at 30. */
  lemma ScenarioMqttStranger(ip: string, mac: string, ports: set<int>, now: string)
    requires StartsWith(Upper(mac), "AA")
    requires MqttPort in ports
    ensures var o := Classify(ip, mac, map[], false, Some(ports), now);
            o.classification == "IoT Device: Unknown" && o.confidence == 30
  {
    LookupMissesA(mac);
    assert Take(Upper(mac), 2) == "AA";
    ScenarioStranger(ip, mac, Some(ports), now);
  }

  /** "Google Pixel" mentions "PI" (inside "Pixel") and "GOOGLE" in upper case. */
  lemma PixelMentions(v: string)
    requires v == "Google Pixel"
    ensures MentionsAny(v, DevBoardWords) && MentionsAny(v, ClientWords)
  {
    assert Upper(v)[7..9] == "PI";
    MentionsAt(v, DevBoardWords, 2, 7);
    assert Upper(v)[0..6] == "GOOGLE";
    MentionsAt(v, ClientWords, 8, 0);
  }

  /** "Google Pixel" fires both the dev-board and the client rule; the earlier one wins. */
  lemma PixelRules(v: string, ports: set<int>)
    requires v == "Google Pixel"
    ensures Fires(ClientDevice, v, ports)
    ensures Pick(v, ports) == DevBoard
    ensures Label(DevBoard, v) == "Dev Board: Google Pixel"
  {
    NoCapitalsNotAccessPoint(v, ports);
    PixelMentions(v);
  }

  /** The case-insensitive "Pi" alternative matches inside "Google Pixel": a Pixel phone
      is classified as a dev board at 90 although its label also names a client vendor. */
  lemma PixelIsDevBoard(ip: string, mac: string, probe: Probe, now: string)
    requires StartsWith(Upper(mac), "00:9A:CD")
    ensures var o := Classify(ip, mac, map[], false, probe, now);
            o.classification == "Dev Board: Google Pixel" && o.confidence == 90
  {
    LookupOuiDb(23, mac);
    LookupCaseInsensitive(OuiDb, mac);
    PixelRules(LookupVendor(Upper(mac)), OpenPorts(probe));
  }

  /** "HP Laptop" mentions no dev-board word in any letter case. */
  lemma LaptopNotDevBoard(v: string, ports: set<int>)
    requires v == "HP Laptop"
    ensures !Fires(DevBoard, v, ports)
  {
    var u := Upper(v);
    assert u == "HP LAPTOP";
    NotContainsMissingChar(u, "ESP", 1);
    NotContainsMissingChar(u, "ARDUINO", 1);
    NotContainsMissingChar(u, "PI", 1);
  }

  /** "HP Laptop" with no IoT port open reaches the client rule. */
  lemma LaptopRules(v: string, ports: set<int>)
    requires v == "HP Laptop"
    requires MqttPort !in ports && CoapPort !in ports
    ensures Pick(v, ports) == ClientDevice
    ensures Label(ClientDevice, v) == "Client: HP Laptop"
  {
    NoCapitalsNotAccessPoint(v, ports);
    LaptopNotDevBoard(v, ports);
    assert Upper(v)[0..2] == "HP";
    MentionsAt(v, ClientWords, 5, 0);
  }

  /** The access-point test is case-sensitive: "HP Laptop" contains "ap" but not "AP",
      so with a failed probe it reaches the client rule and scores 10 + 50 + 20. */
  lemma LaptopIsClient(ip: string, mac: string, now: string)
    requires StartsWith(Upper(mac), "40:8D:5C")
    ensures var o := Classify(ip, mac, map[], false, None, now);
            o.classification == "Client: HP Laptop" && o.confidence == 80
  {
    LookupOuiDb(26, mac);
    LookupCaseInsensitive(OuiDb, mac);
    LaptopRules(LookupVendor(Upper(mac)), {});
  }

  /** A MAC in the 00:1A:11 block carries both signals (a directory match and the generic
      first octet "00"), yet only the vendor bonus is added. */
  lemma BothSignalsVendorWins(mac: string)
    requires StartsWith(Upper(mac), "00:1A:11")
    ensures LookupVendor(mac) == "TP-Link AP"
    ensures Take(Upper(mac), 2) in GenericOctets
    ensures SignalBonus(Upper(mac), LookupVendor(mac)) == VendorBonus
  {
    LookupOuiDb(8, mac);
    assert Take(Upper(mac), 2) == "00";
  }
}
