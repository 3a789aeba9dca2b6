/** The classification engine (`classify_device` in classifier.py) with the
    port scan turned into an input and the cache turned into a value:
    confidence scoring, the first-match-wins label rules, and the cache
    write-through. */
module Engine {
  import opened Base
  import opened Strings
  import opened Vendors

  /** One cache entry, as written for every freshly classified MAC. */
  datatype Record = Record(ip: string, classification: string, confidence: int, lastSeen: string)

  /** The classification cache, keyed by upper-cased MAC address. */
  type Cache = map<string, Record>

  /** Confidence every fresh classification starts from. */
  const BaseConfidence: int := 10
  /** Added when the MAC prefix is in the vendor directory. */
  const VendorBonus: int := 50
  /** Added instead when the vendor is unknown but the first octet is a generic one. */
  const GenericBonus: int := 25
  /** Upper bound applied to every fresh confidence. */
  const ConfidenceCap: int := 100
  /** First octets that earn the generic bonus. */
  const GenericOctets: seq<string> := ["00", "F4", "B8"]
  /** MQTT and CoAP: an open one of these marks an IoT device. */
  const MqttPort: int := 1883
  const CoapPort: int := 5683
  /** The dev-board alternation, upper-cased for case-insensitive search. */
  const DevBoardWords: seq<string> := ["ESP", "ARDUINO", "PI"]
  /** The end-user-device alternation, upper-cased for case-insensitive search. */
  const ClientWords: seq<string> := ["APPLE", "SAMSUNG", "INTEL", "HUAWEI", "DELL", "HP", "XIAOMI", "ONEPLUS", "GOOGLE"]

  /** A MAC-derived signal: the bonus the MAC itself earns before any port is looked at.
      The vendor match and the generic octet are alternatives, never added together. */
  function SignalBonus(key: string, vendor: string): (b: int)
    ensures b == VendorBonus <==> vendor != Unknown
    ensures b == GenericBonus <==> vendor == Unknown && Take(key, 2) in GenericOctets
    ensures b == 0 <==> vendor == Unknown && Take(key, 2) !in GenericOctets
  {
    if vendor != Unknown then VendorBonus
    else if Take(key, 2) in GenericOctets then GenericBonus
    else 0
  }

  /** Case-insensitive search for any of `words` (given upper-cased) in `s`:
      what a `re.search` over a literal alternation with `re.IGNORECASE` decides. */
  function MentionsAny(s: string, words: seq<string>): (b: bool)
    ensures b <==> exists k :: 0 <= k < |words| && Contains(Upper(s), words[k])
    decreases |words|
  {
    if |words| == 0 then false
    else if Contains(Upper(s), words[0]) then true
    else
      var rest := MentionsAny(s, words[1..]);
      assert forall k :: 1 <= k < |words| ==> words[1..][k - 1] == words[k];
      rest
  }

  /** An alternation matches as soon as one of its words occurs in the upper-cased text. */
  lemma MentionsAt(s: string, words: seq<string>, k: nat, i: nat)
    requires k < |words|
    requires i + |words[k]| <= |s| && Upper(s)[i..i + |words[k]|] == words[k]
    ensures MentionsAny(s, words)
  {
    ContainsAt(Upper(s), words[k], i);
  }

  /** The device categories, one per branch of the label rule chain. */
  datatype Category = AccessPoint | DevBoard | IoTDevice | ClientDevice | UnknownDevice

  /** The rules in the order they are tried; the last one always fires. */
  const RuleOrder: seq<Category> := [AccessPoint, DevBoard, IoTDevice, ClientDevice, UnknownDevice]

  /** Position of a category's rule in `RuleOrder`. */
  function Rank(c: Category): (n: nat)
    ensures n < |RuleOrder| && RuleOrder[n] == c
  {
    match c
    case AccessPoint => 0
    case DevBoard => 1
    case IoTDevice => 2
    case ClientDevice => 3
    case UnknownDevice => 4
  }

  /** Whether the rule for `c` accepts the vendor label and open-port set, taken on its own.
      The access-point test is case-sensitive; the two alternations are not. */
  predicate Fires(c: Category, vendor: string, ports: set<int>)
  {
    match c
    case AccessPoint => Contains(vendor, "Router") || Contains(vendor, "AP")
    case DevBoard => MentionsAny(vendor, DevBoardWords)
    case IoTDevice => MqttPort in ports || CoapPort in ports
    case ClientDevice => MentionsAny(vendor, ClientWords)
    case UnknownDevice => true
  }

  /** The `if`/`elif` chain that chooses the category. */
  function Pick(vendor: string, ports: set<int>): Category
  {
    if Contains(vendor, "Router") || Contains(vendor, "AP") then AccessPoint
    else if MentionsAny(vendor, DevBoardWords) then DevBoard
    else if MqttPort in ports || CoapPort in ports then IoTDevice
    else if MentionsAny(vendor, ClientWords) then ClientDevice
    else UnknownDevice
  }

  /** The chain picks a rule that fires, and every rule tried before it does not. */
  lemma PickFires(vendor: string, ports: set<int>)
    ensures Fires(Pick(vendor, ports), vendor, ports)
    ensures forall d :: Rank(d) < Rank(Pick(vendor, ports)) ==> !Fires(d, vendor, ports)
  {
    var c := Pick(vendor, ports);
    forall d | Rank(d) < Rank(c)
      ensures !Fires(d, vendor, ports)
    {
      match d
      case AccessPoint =>
      case DevBoard =>
      case IoTDevice =>
      case ClientDevice =>
      case UnknownDevice =>
    }
  }

  /** First match wins, and nothing else: the category picked is the one and only
      category whose rule fires while every rule tried before it does not. */
  lemma PickIsFirstMatch(vendor: string, ports: set<int>, c: Category)
    ensures Pick(vendor, ports) == c <==>
              Fires(c, vendor, ports) && forall d :: Rank(d) < Rank(c) ==> !Fires(d, vendor, ports)
  {
    var p := Pick(vendor, ports);
    PickFires(vendor, ports);
    if Fires(c, vendor, ports) && forall d :: Rank(d) < Rank(c) ==> !Fires(d, vendor, ports) {
      assert !(Rank(p) < Rank(c));
      assert Rank(c) == Rank(p);
    }
  }

  /** The confidence bonus each rule adds. */
  function RuleBonus(c: Category): (b: int)
    ensures 0 <= b <= 30
    ensures b == 30 <==> c == AccessPoint || c == DevBoard
    ensures b == 20 <==> c == IoTDevice || c == ClientDevice
    ensures b == 0 <==> c == UnknownDevice
  {
    match c
    case AccessPoint => 30
    case DevBoard => 30
    case IoTDevice => 20
    case ClientDevice => 20
    case UnknownDevice => 0
  }

  /** The label each rule gives, built around the vendor label. */
  function Label(c: Category, vendor: string): (s: string)
    ensures |s| > 0
  {
    match c
    case AccessPoint => "AP: " + vendor
    case DevBoard => "Dev Board: " + vendor
    case IoTDevice => "IoT Device: " + vendor
    case ClientDevice => "Client: " + vendor
    case UnknownDevice => "Unknown Device (" + vendor + ")"
  }

  /** A label records both its category and its vendor: distinct (category, vendor)
      pairs never share a label. */
  lemma LabelInjective(c1: Category, v1: string, c2: Category, v2: string)
    requires Label(c1, v1) == Label(c2, v2)
    ensures c1 == c2 && v1 == v2
  {
    var s := Label(c1, v1);
    assert s[0] == Label(c2, v2)[0];
    match c1
    case AccessPoint =>
      assert s[4..] == v1 && Label(c2, v2)[4..] == v2;
    case DevBoard =>
      assert s[11..] == v1 && Label(c2, v2)[11..] == v2;
    case IoTDevice =>
      assert s[12..] == v1 && Label(c2, v2)[12..] == v2;
    case ClientDevice =>
      assert s[8..] == v1 && Label(c2, v2)[8..] == v2;
    case UnknownDevice =>
      assert s[16..|s| - 1] == v1 && Label(c2, v2)[16..|s| - 1] == v2;
  }

  /** Python's `min(x, 100)`. */
  function Cap(x: int): (r: int)
    ensures r <= ConfidenceCap
    ensures r == x || r == ConfidenceCap
    ensures x <= ConfidenceCap ==> r == x
  {
    if x < ConfidenceCap then x else ConfidenceCap
  }

  /** What a fresh classification decides. */
  datatype Verdict = Verdict(classification: string, confidence: int)

  /** The fresh-computation path for the upper-cased MAC `key` and the open-port set.
      Its confidence adds at most 50 + 30 to the base, so it stays within 10..90. */
  function Assess(key: string, ports: set<int>): (v: Verdict)
    ensures BaseConfidence <= v.confidence <= 90
    ensures var vendor := LookupVendor(key);
            v.classification == Label(Pick(vendor, ports), vendor)
  {
    var vendor := LookupVendor(key);
    var category := Pick(vendor, ports);
    Verdict(Label(category, vendor), Cap(BaseConfidence + SignalBonus(key, vendor) + RuleBonus(category)))
  }

  /** The cap at 100 never changes a fresh confidence: the sum is at most 10 + 50 + 30. */
  lemma CapNeverBinds(key: string, ports: set<int>)
    ensures var vendor := LookupVendor(key);
            Assess(key, ports).confidence
              == BaseConfidence + SignalBonus(key, vendor) + RuleBonus(Pick(vendor, ports))
  {
  }

  /** The upper-cased sentinel. */
  lemma UpperUnknown()
    ensures Upper(Unknown) == "UNKNOWN"
  {
  }

  /** The access-point test is case-sensitive: a label with no capital R and no capital A
      never fires it, whatever lower-case "router" or "ap" it contains. */
  lemma NoCapitalsNotAccessPoint(vendor: string, ports: set<int>)
    requires forall i :: 0 <= i < |vendor| ==> vendor[i] != 'R' && vendor[i] != 'A'
    ensures !Fires(AccessPoint, vendor, ports)
  {
    NotContainsMissingChar(vendor, "Router", 0);
    NotContainsMissingChar(vendor, "AP", 0);
  }

  /** The sentinel names no router or access point. */
  lemma UnknownNotAccessPoint(ports: set<int>)
    ensures !Fires(AccessPoint, Unknown, ports)
  {
    NoCapitalsNotAccessPoint(Unknown, ports);
  }

  /** The sentinel mentions no dev-board word in any letter case. */
  lemma UnknownNotDevBoard(ports: set<int>)
    ensures !Fires(DevBoard, Unknown, ports)
  {
    var u := Upper(Unknown);
    UpperUnknown();
    NotContainsMissingChar(u, DevBoardWords[0], 0);
    NotContainsMissingChar(u, DevBoardWords[1], 0);
    NotContainsMissingChar(u, DevBoardWords[2], 0);
  }

  /** The sentinel mentions no end-user-device word in any letter case. */
  lemma UnknownNotClient(ports: set<int>)
    ensures !Fires(ClientDevice, Unknown, ports)
  {
    UpperUnknown();
    forall k | 0 <= k < |ClientWords|
      ensures !Contains("UNKNOWN", ClientWords[k])
    {
      var w := ClientWords[k];
      if w == "ONEPLUS" {
        NotContainsMissingChar("UNKNOWN", w, 2);
      } else {
        NotContainsMissingChar("UNKNOWN", w, 0);
      }
    }
  }

  /** The sentinel vendor label fires none of the vendor-text rules, so an unmatched MAC
      is only ever an IoT device or an unknown device. */
  lemma UnknownVendorRules(ports: set<int>)
    ensures Pick(Unknown, ports) == if MqttPort in ports || CoapPort in ports then IoTDevice else UnknownDevice
  {
    UnknownNotAccessPoint(ports);
    UnknownNotDevBoard(ports);
    UnknownNotClient(ports);
  }

  /** The top confidence, 90, is given exactly to access points and dev boards. */
  lemma TopConfidenceIff(key: string, ports: set<int>)
    ensures var c := Pick(LookupVendor(key), ports);
            Assess(key, ports).confidence == 90 <==> c == AccessPoint || c == DevBoard
  {
    var vendor := LookupVendor(key);
    if vendor == Unknown {
      UnknownVendorRules(ports);
    }
  }

  /** The port probe's outcome: `None` when the scan raised, else the open TCP ports
      (empty when the scan reported no TCP section). */
  type Probe = Option<set<int>>

  /** A failed probe counts as a scan that found nothing open. */
  function OpenPorts(probe: Probe): (ports: set<int>)
    ensures probe.None? ==> ports == {}
    ensures probe.Some? ==> ports == probe.value
  {
    probe.GetOr({})
  }

  /** What `classify_device` returns together with its effect: the cache after the call,
      and whether it persisted that cache. */
  datatype Outcome = Outcome(classification: string, confidence: int, cache: Cache, saved: bool)

  /** The cache after a fresh classification of `key` differs from `before` only at `key`,
      where it holds the new record. */
  ghost predicate WritesOnly(before: Cache, after: Cache, key: string, r: Record)
  {
    && after.Keys == before.Keys + {key}
    && after[key] == r
    && forall k :: k in before && k != key ==> after[k] == before[k]
  }

  /** Writing one record is a write of that key only. */
  lemma UpdateWritesOnly(cache: Cache, key: string, r: Record)
    ensures WritesOnly(cache, cache[key := r], key, r)
  {
  }

  /** `classify_device(ip, mac, cache, force)` with the port probe's outcome and the
      clock reading supplied by the caller. */
  function Classify(ip: string, mac: string, cache: Cache, force: bool, probe: Probe, now: string): (o: Outcome)
    ensures var key := Upper(mac);
            !force && key in cache ==>
              && o.classification == cache[key].classification
              && o.confidence == cache[key].confidence
              && o.cache == cache
              && !o.saved
    ensures var key := Upper(mac);
            force || key !in cache ==>
              && Verdict(o.classification, o.confidence) == Assess(key, OpenPorts(probe))
              && WritesOnly(cache, o.cache, key, Record(ip, o.classification, o.confidence, now))
              && o.saved
  {
    var key := Upper(mac);
    if !force && key in cache then
      Outcome(cache[key].classification, cache[key].confidence, cache, false)
    else
      var v := Assess(key, OpenPorts(probe));
      var r := Record(ip, v.classification, v.confidence, now);
      UpdateWritesOnly(cache, key, r);
      Outcome(v.classification, v.confidence, cache[key := r], true)
  }

  /** The cache discipline of one classification call `o` for `mac`: afterwards the cache
      holds the returned pair under the upper-cased MAC; a hit without `force` changes
      nothing and saves nothing; otherwise exactly that key is (re)written with a fresh
      confidence in 10..90 and the cache is saved. */
  ghost predicate Keeps(o: Outcome, ip: string, mac: string, cache: Cache, force: bool, now: string)
  {
    var key := Upper(mac);
    && key in o.cache
    && o.cache[key].classification == o.classification
    && o.cache[key].confidence == o.confidence
    && (!force && key in cache ==>
          o.cache == cache && !o.saved
          && o.classification == cache[key].classification && o.confidence == cache[key].confidence)
    && (force || key !in cache ==>
          WritesOnly(cache, o.cache, key, Record(ip, o.classification, o.confidence, now))
          && o.saved && BaseConfidence <= o.confidence <= 90)
  }

  /** `classify_device` keeps the cache discipline on every input. */
  lemma ClassifyKeeps(ip: string, mac: string, cache: Cache, force: bool, probe: Probe, now: string)
    ensures Keeps(Classify(ip, mac, cache, force, probe, now), ip, mac, cache, force, now)
  {
  }

  /** The cache invariant: keys are upper-cased MACs and every stored confidence is in 0..100. */
  ghost predicate ValidCache(cache: Cache)
  {
    forall k :: k in cache ==> IsUpper(k) && 0 <= cache[k].confidence <= ConfidenceCap
  }

  /** Classification keeps the cache invariant, and against a valid cache every
      returned confidence is in 0..100. */
  lemma ClassifyKeepsValid(ip: string, mac: string, cache: Cache, force: bool, probe: Probe, now: string)
    requires ValidCache(cache)
    ensures var o := Classify(ip, mac, cache, force, probe, now);
            ValidCache(o.cache) && 0 <= o.confidence <= ConfidenceCap
  {
    ClassifyKeeps(ip, mac, cache, force, probe, now);
    KeepsValid(Classify(ip, mac, cache, force, probe, now), ip, mac, cache, force, now);
  }

  /** Any call with the cache discipline keeps the cache invariant, and against a valid
      cache returns a confidence in 0..100. */
  lemma KeepsValid(o: Outcome, ip: string, mac: string, cache: Cache, force: bool, now: string)
    requires Keeps(o, ip, mac, cache, force, now)
    requires ValidCache(cache)
    ensures ValidCache(o.cache) && 0 <= o.confidence <= ConfidenceCap
  {
    var key := Upper(mac);
    forall k | k in o.cache
      ensures IsUpper(k) && 0 <= o.cache[k].confidence <= ConfidenceCap
    {
      if k == key {
        UpperIdempotent(mac);
      }
    }
  }

  /** A failed probe and a probe that found no open port classify identically. */
  lemma FailedProbeIsEmpty(ip: string, mac: string, cache: Cache, force: bool, now: string)
    ensures Classify(ip, mac, cache, force, None, now) == Classify(ip, mac, cache, force, Some({}), now)
  {
  }

  /** On a cache hit without `force` neither the probe nor the clock is consulted. */
  lemma CacheHitIgnoresProbe(ip: string, mac: string, cache: Cache, p1: Probe, p2: Probe, t1: string, t2: string)
    requires Upper(mac) in cache
    ensures Classify(ip, mac, cache, false, p1, t1) == Classify(ip, mac, cache, false, p2, t2)
  {
  }

  /** Classifying a MAC a second time without `force` (in any letter case, from any IP)
      repeats the first answer, leaves the cache as the first call left it and saves nothing. */
  lemma RepeatIsCacheHit(ip1: string, mac1: string, ip2: string, mac2: string, cache: Cache, force: bool,
                         p1: Probe, p2: Probe, t1: string, t2: string)
    requires Upper(mac1) == Upper(mac2)
    ensures var o1 := Classify(ip1, mac1, cache, force, p1, t1);
            var o2 := Classify(ip2, mac2, o1.cache, false, p2, t2);
            && o2.classification == o1.classification
            && o2.confidence == o1.confidence
            && o2.cache == o1.cache
            && !o2.saved
  {
  }

  /** The classification cache is keyed case-insensitively: the letter case of the MAC
      never changes the outcome. */
  lemma ClassifyCaseInsensitive(ip: string, mac: string, cache: Cache, force: bool, probe: Probe, now: string)
    ensures Classify(ip, Upper(mac), cache, force, probe, now) == Classify(ip, mac, cache, force, probe, now)
  {
    UpperIdempotent(mac);
  }
}
