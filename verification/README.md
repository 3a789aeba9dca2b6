# Device classifier — a Dafny model

This project models the device-classification engine of `classifier.py`, with the network probes turned into inputs. It has three parts:

- **Vendor lookup.** `OUI_DB` and `lookup_vendor`. The directory is an ordered table of 3-octet MAC prefixes and vendor labels. Lookup upper-cases the MAC, takes its first eight characters, and returns the label of the first key that the prefix starts with, or `"Unknown"`.
- **Classification.** `classify_device`, modelled as a pure function of the IP, the MAC, the cache (a map from upper-cased MAC to record), the `force` flag, the port probe's outcome and the clock reading. On a cache hit without `force` it returns the stored pair. Otherwise it:
  - scores a confidence: base 10, plus 50 for a vendor match or else 25 for a generic first octet (`00`, `F4`, `B8`);
  - runs the first-match-wins label rules (access point, dev board, IoT port, client, unknown), adding +30/+30/+20/+20/0;
  - caps the confidence at 100;
  - writes the record for the upper-cased MAC and saves the cache.
- **Sweep.** `discover_and_classify`, modelled as a left fold of the classification over the discovered hosts. The cache is threaded from one host to the next, so a record written for an earlier host is seen by a later one.

Modules:

- `Base`: the `Option` type.
- `Strings`: ASCII upper-casing, `s[0:n]`, `startswith`, and substring search `t in s`.
- `Vendors`: the directory and the lookup.
- `Engine`: scoring, rules and `Classify`.
- `Scenarios`: worked examples over whole MAC blocks.
- `Sweep`: the fold.

The fold is written over any per-host step that keeps `classify_device`'s cache discipline (`Engine.Keeps`). `Sweep.ClassifyDisciplined` proves that `Classify` is such a step, and `Sweep.DiscoverAndClassify` runs the fold with it.

The port probe is an `Option<set<int>>`. `None` is a scan that raised inside the `try` of classifier.py:96-100, and the code treats it as no open ports. Saving is modelled by the `saved` flag of `Engine.Outcome`, and the sweep tracks the last saved snapshot as `Report.store`.

Two behaviours of the code worth stating:

- The code does not validate MAC or IP strings. Any string is classified, and a short MAC simply has a short prefix.
- A failing cache write is not turned into a reportable error value. The exception propagates, and that path is outside the model (see "Left out").

One consequence of the rule order is worth noting, and is modelled as written. The case-insensitive `Pi` alternative matches inside "Google Pixel", so that vendor's MACs become "Dev Board: Google Pixel" at 90, although its label also names a client vendor (`Scenarios.PixelIsDevBoard`).

## Model

| member | source | states |
|---|---|---|
| Strings.Upper | classifier.py:73 | upper-casing keeps the length, turns each lower-case ASCII letter into its capital (code point minus 32) and leaves every other character as it is |
| Strings.UpperIdempotent | classifier.py:81-86 | upper-casing an already upper-cased MAC changes nothing, so the lookup inside `classify_device` sees the same prefix |
| Strings.Take | classifier.py:73 | `s[0:n]` is a prefix of `s` of length `min(n, len(s))` |
| Strings.ContainsIff | classifier.py:102 | Python's `t in s` holds exactly when `t` occurs at some index of `s` |
| Strings.NotContainsMissingChar | classifier.py:102 | a string that lacks one of `t`'s characters does not contain `t` |
| Vendors.MacPrefix | classifier.py:73 | the compared prefix is the first eight characters of the upper-cased MAC (all of it when shorter), with no lower-case letter |
| Vendors.FirstMatchFrom | classifier.py:74-76 | the loop stops at the first table entry whose key the prefix starts with, and no earlier entry matches; it finds nothing only when no entry matches |
| Vendors.LookupIn | classifier.py:72-77 | the lookup returns "Unknown" when no key matches, and otherwise the label of the first matching key in table order |
| Vendors.LookupCaseInsensitive | classifier.py:72-73 | the lookup gives the same answer for a MAC in any letter case |
| Vendors.LookupRange | classifier.py:72-77 | the answer is "Unknown" or one of the table's labels |
| Vendors.MatchUnique | classifier.py:11-60 | in a table of distinct eight-character upper-case keys at most one entry matches a MAC, so insertion order never decides |
| Vendors.LookupHit | classifier.py:72-77 | in such a table every MAC beginning with a key, in either case, gets that key's label |
| Vendors.LookupUnknownIff | classifier.py:72-77 | in such a table "Unknown" comes back exactly when no key is a prefix of the MAC's prefix |
| Vendors.OuiDbWellFormed | classifier.py:11-60 | `OUI_DB` has 29 distinct upper-case eight-character keys and no label equal to "Unknown" |
| Vendors.LookupOuiDb | classifier.py:11-77 | every MAC beginning with an `OUI_DB` key, in either case, is looked up as that key's label |
| Engine.SignalBonus | classifier.py:89-93 | the vendor bonus (50) applies exactly when the vendor is known; the generic bonus (25) exactly when it is unknown and the first octet is 00, F4 or B8; otherwise nothing; never both |
| Engine.MentionsAny | classifier.py:105 | the case-insensitive alternation matches exactly when some word occurs in the upper-cased vendor label |
| Engine.NoCapitalsNotAccessPoint | classifier.py:102 | the access-point test is case-sensitive: a label with no capital R and no capital A never fires it |
| Engine.PickFires | classifier.py:102-115 | the chosen rule fires, and every rule tried before it does not |
| Engine.PickIsFirstMatch | classifier.py:102-115 | a category is chosen if and only if its rule fires and every earlier rule fails: first match wins, in the order AP, dev board, IoT port, client, unknown |
| Engine.Rank | classifier.py:102-115 | each category sits at its position in the rule order |
| Engine.RuleBonus | classifier.py:102-115 | AP and dev board add 30, IoT and client add 20, and exactly the unknown rule adds nothing |
| Engine.LabelInjective | classifier.py:103-115 | two labels are equal only for the same category and vendor, so a label records both |
| Engine.Cap | classifier.py:117 | `min(x, 100)` is at most 100, is x or 100, and is x whenever x is at most 100 |
| Engine.Assess | classifier.py:86-117 | a fresh confidence is between 10 and 90, and the label is the chosen rule's label for the looked-up vendor |
| Engine.CapNeverBinds | classifier.py:89-117 | the cap never changes a fresh confidence: it is exactly 10 + signal bonus + rule bonus |
| Engine.TopConfidenceIff | classifier.py:89-115 | a fresh confidence is 90 exactly when the access-point or dev-board rule fires |
| Engine.UnknownVendorRules | classifier.py:102-115 | the "Unknown" label fires no vendor-text rule: it becomes an IoT device exactly when port 1883 or 5683 is open, and an unknown device otherwise |
| Engine.OpenPorts | classifier.py:96-100 | a failed scan counts as no open ports; a successful one gives its port set |
| Engine.Classify | classifier.py:79-127 | on a hit without force, the stored pair comes back and the cache is unchanged and not saved; otherwise the fresh verdict is returned, only the upper-cased MAC's record changes (to the ip, the verdict and the clock reading), and the cache is saved |
| Engine.ClassifyKeeps | classifier.py:81-125 | after every call the cache holds the returned pair under the upper-cased MAC, a hit changes and saves nothing, and a fresh call rewrites only that key with a confidence in 10..90 and saves |
| Engine.KeepsValid | classifier.py:117-125 | a call with that discipline keeps keys upper-cased and stored confidences within 0..100, and returns a confidence in 0..100 |
| Engine.ClassifyKeepsValid | classifier.py:79-127 | `classify_device` keeps the cache invariant and, from a valid cache, returns a confidence in 0..100 |
| Engine.FailedProbeIsEmpty | classifier.py:96-100 | a scan that raised and a scan with no open port classify identically |
| Engine.CacheHitIgnoresProbe | classifier.py:83-84 | on a hit without force, neither the probe nor the clock affects the outcome |
| Engine.RepeatIsCacheHit | classifier.py:81-127 | classifying a MAC again without force, in any letter case, repeats the first answer and neither changes nor saves the cache |
| Engine.ClassifyCaseInsensitive | classifier.py:81 | the MAC's letter case never changes the outcome |
| Scenarios.ScenarioRaspberryPi | classifier.py:13 | a B8:27:EB MAC on an empty cache is "Dev Board: Raspberry Pi" at 90 whatever the ports, stored as exactly that record, and saved |
| Scenarios.ScenarioForcedPi | classifier.py:79-127 | with force, a cached Raspberry Pi is recomputed and its record overwritten, and every other record is kept |
| Scenarios.ScenarioCachedPi | classifier.py:83-84 | a cached Raspberry Pi is answered from the cache, unchanged and unsaved |
| Scenarios.RouterRule | classifier.py:102-104 | a label containing "Router" or "AP" is an access point whatever the ports |
| Scenarios.ScenarioRouter | classifier.py:28 | an F4:F2:6D MAC classified on an empty cache is "AP: TP-Link Router" at 90 |
| Scenarios.StrangerVerdict | classifier.py:89-115 | an unmatched, non-generic MAC scores 30 as "IoT Device: Unknown" with MQTT or CoAP open, and 10 as "Unknown Device (Unknown)" otherwise |
| Scenarios.ScenarioStranger | classifier.py:79-127 | the same for a fresh `classify_device` call on an empty cache |
| Scenarios.LookupMissesA | classifier.py:11-77 | no `OUI_DB` key begins with A, so every MAC beginning with AA is looked up as "Unknown" |
| Scenarios.ScenarioMqttStranger | classifier.py:108-110 | a MAC beginning with AA and port 1883 open is "IoT Device: Unknown" at 30 |
| Scenarios.PixelMentions | classifier.py:105-111 | "Google Pixel" matches both case-insensitive alternations: "Pi" inside "Pixel" and "Google" |
| Scenarios.PixelRules | classifier.py:105-111 | "Google Pixel" fires both the dev-board and the client rule, and the dev-board rule wins |
| Scenarios.PixelIsDevBoard | classifier.py:52 | a 00:9A:CD MAC classified on an empty cache is "Dev Board: Google Pixel" at 90 |
| Scenarios.LaptopRules | classifier.py:102-113 | "HP Laptop" with no IoT port open reaches the client rule; its lower-case "ap" does not fire the access-point test |
| Scenarios.LaptopIsClient | classifier.py:57 | a 40:8D:5C MAC classified on an empty cache with a failed scan is "Client: HP Laptop" at 80 |
| Scenarios.BothSignalsVendorWins | classifier.py:90-93 | a 00:1A:11 MAC has both a vendor match and a generic first octet, yet earns only the vendor bonus |
| Sweep.Load | classifier.py:62-66 | loading returns the persisted records, or an empty cache when nothing was ever persisted |
| Sweep.ClassifyDisciplined | classifier.py:79-127 | `classify_device` keeps the cache discipline on every input |
| Sweep.Fold | classifier.py:138-147 | the loop reports exactly one device per discovered host |
| Sweep.FoldReportsHosts | classifier.py:138-147 | device i carries host i's IP and MAC, as discovered and in discovery order |
| Sweep.FoldPersists | classifier.py:125 | the saved store never falls behind the in-memory cache |
| Sweep.DiscoverAndClassify | classifier.py:129-149 | one device per host, in discovery order, and the saved store equals the final cache |
| Sweep.FoldSplit | classifier.py:138-147 | the sweep is a left fold: a sweep over a + b is a sweep over a, then over b from the cache a left |
| Sweep.DeviceFromPrefix | classifier.py:132-139 | host i is classified against the cache left by hosts 0..i-1 |
| Sweep.FoldKeys | classifier.py:119-124 | after a sweep the cache keys are exactly the loaded keys plus the upper-cased MACs visited |
| Sweep.FoldFrame | classifier.py:119-124 | a sweep leaves the record of every MAC it did not visit unchanged |
| Sweep.FoldKeepsEntries | classifier.py:83-84 | without force, a sweep never changes a record that was already cached |
| Sweep.FoldHitsCache | classifier.py:83-84 | without force, a host already cached is reported with its cached pair |
| Sweep.DuplicateReusesFirst | classifier.py:138-139 | without force, a MAC seen twice is reported on its second sighting exactly as on its first |
| Sweep.FoldKeepsValid | classifier.py:117-124 | a sweep keeps the cache invariant |
| Sweep.FoldConfidenceBounded | classifier.py:117 | from a valid cache, every reported confidence is within 0..100 |
| Sweep.SweepDuplicates | classifier.py:129-149 | `discover_and_classify` without force reports a repeated MAC identically both times |
| Sweep.SweepHonoursStore | classifier.py:132-139 | without force, persisted records are reported as stored and never changed |
| Sweep.SweepForcedIsFresh | classifier.py:129-149 | with force, every host is assessed afresh from its own MAC and probe |
| Sweep.SweepFrame | classifier.py:129-149 | the final cache holds the loaded keys plus the visited MACs, unvisited records are untouched, and a valid store yields confidences within 0..100 |

## Left out

- The nmap port scan (classifier.py:96-100) is an input, `Probe`. The model does not scan, and it does not distinguish a host missing from the scan result from one with no TCP section: both give a set of open ports.
- Constructing the scanner (`nmap.PortScanner()`, classifier.py:95) sits outside the `try`. If it raises, for example when the nmap program is missing, the exception escapes `classify_device` on every fresh call and aborts `discover_and_classify` mid-sweep, after earlier hosts' saves. This failure is not modelled: every fresh call in the model returns a verdict.
- The scapy ARP sweep (classifier.py:134-136) is an input: the sequence of `Sighting`s, each carrying its IP, MAC, probe outcome and clock reading.
- The `target` subnet of `discover_and_classify` (classifier.py:129) only steers the ARP sweep, so it does not appear in the model.
- `datetime.now().isoformat()` (classifier.py:123) is an opaque string input.
- JSON reading and writing of the cache file (classifier.py:62-70) is modelled only as a snapshot. `Load` gives an empty cache for a missing store, and a saved call replaces the snapshot. File contents, malformed JSON and write failures (which raise in the code) are not modelled.
- Regular expressions (classifier.py:105, 111) are modelled only as the literal alternations they are: case-insensitive substring tests.
- `str.upper` is modelled for ASCII letters only. Unicode case mapping is left out because MACs and vendor labels are ASCII.
- main.py (UI, scheduling, interface introspection) is not part of this model.
- The field names of a returned device record are not modelled. Records are positional datatypes.
