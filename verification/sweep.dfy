/** One discovery sweep (`discover_and_classify` in classifier.py): load the
    cache once, then classify every discovered host in discovery order,
    threading the cache from one host to the next so that a record written
    for an earlier host is seen by a later one.

    The loop is written over any per-host step that keeps `classify_device`'s
    cache discipline (`Disciplined`); the sweep itself runs it with `Classify`.
    The properties of the loop need only that discipline, not the scoring. */
module Sweep {
  import opened Base
  import opened Strings
  import opened Engine

  /** A discovered host together with what the port probe and the clock answer
      when the sweep reaches it (both are ignored on a cache hit). */
  datatype Sighting = Sighting(ip: string, mac: string, probe: Probe, now: string)

  /** One element of the returned list; the MAC is reported as discovered, not upper-cased. */
  datatype Device = Device(ip: string, mac: string, classification: string, confidence: int)

  /** The result of a sweep: the device list, the in-memory cache at the end, and the
      persisted store (`None` while nothing has ever been persisted). */
  datatype Report = Report(devices: seq<Device>, cache: Cache, store: Option<Cache>)

  /** A per-host classification step with `classify_device`'s signature
      (ip, mac, cache, force, probe, clock). */
  type Step = (string, string, Cache, bool, Probe, string) -> Outcome

  /** The step keeps the cache discipline on every input. */
  ghost predicate Disciplined(step: Step)
  {
    forall ip, mac, cache, force, probe, now ::
      Keeps(step(ip, mac, cache, force, probe, now), ip, mac, cache, force, now)
  }

  /** `classify_device` is such a step. */
  lemma ClassifyDisciplined()
    ensures Disciplined(Classify)
  {
    forall ip, mac, cache, force, probe, now
      ensures Keeps(Classify(ip, mac, cache, force, probe, now), ip, mac, cache, force, now)
    {
      ClassifyKeeps(ip, mac, cache, force, probe, now);
    }
  }

  /** `load_cache`: the persisted records, or an empty cache when none were persisted. */
  function Load(store: Option<Cache>): (cache: Cache)
    ensures store.None? ==> cache == map[]
    ensures store.Some? ==> cache == store.value
  {
    store.GetOr(map[])
  }

  /** The upper-cased MACs of the given sightings: the cache keys a sweep over them may write. */
  function Visited(hosts: seq<Sighting>): set<string>
  {
    set i | 0 <= i < |hosts| :: Upper(hosts[i].mac)
  }

  /** The classification loop over `hosts`, starting from `cache` and the persisted `store`:
      each host is classified against the cache the previous one left, and a call that
      saves replaces the store with its cache. */
  function Fold(step: Step, hosts: seq<Sighting>, cache: Cache, force: bool, store: Option<Cache>): (r: Report)
    ensures |r.devices| == |hosts|
    decreases |hosts|
  {
    if |hosts| == 0 then Report([], cache, store)
    else
      var h := hosts[0];
      var o := step(h.ip, h.mac, cache, force, h.probe, h.now);
      var s := if o.saved then Some(o.cache) else store;
      var rest := Fold(step, hosts[1..], o.cache, force, s);
      Report([Device(h.ip, h.mac, o.classification, o.confidence)] + rest.devices, rest.cache, rest.store)
  }

  /** The loop reports every host once, in discovery order, under its own IP and MAC. */
  lemma {:induction false} FoldReportsHosts(step: Step, hosts: seq<Sighting>, cache: Cache, force: bool, store: Option<Cache>)
    ensures var r := Fold(step, hosts, cache, force, store);
            forall i :: 0 <= i < |hosts| ==> r.devices[i].ip == hosts[i].ip && r.devices[i].mac == hosts[i].mac
    decreases |hosts|
  {
    if |hosts| > 0 {
      var h := hosts[0];
      var o := step(h.ip, h.mac, cache, force, h.probe, h.now);
      var s := if o.saved then Some(o.cache) else store;
      FoldReportsHosts(step, hosts[1..], o.cache, force, s);
      var rest := Fold(step, hosts[1..], o.cache, force, s);
      var r := Fold(step, hosts, cache, force, store);
      forall i | 1 <= i < |hosts|
        ensures r.devices[i].ip == hosts[i].ip && r.devices[i].mac == hosts[i].mac
      {
        assert hosts[1..][i - 1] == hosts[i];
        assert r.devices[i] == rest.devices[i - 1];
      }
    }
  }

  /** The persisted store never falls behind: if it agreed with the cache when the loop
      started, it agrees with the cache the loop ends with. */
  lemma {:induction false} FoldPersists(step: Step, hosts: seq<Sighting>, cache: Cache, force: bool, store: Option<Cache>)
    requires Disciplined(step)
    requires Load(store) == cache
    ensures var r := Fold(step, hosts, cache, force, store);
            Load(r.store) == r.cache
    decreases |hosts|
  {
    if |hosts| > 0 {
      var h := hosts[0];
      var o := step(h.ip, h.mac, cache, force, h.probe, h.now);
      var s := if o.saved then Some(o.cache) else store;
      FoldPersists(step, hosts[1..], o.cache, force, s);
    }
  }

  /** `discover_and_classify(target, force)` with the discovery result supplied as `hosts`
      and the persisted cache as `store`: one device per host, in discovery order, and the
      store left in step with the cache. */
  function DiscoverAndClassify(store: Option<Cache>, hosts: seq<Sighting>, force: bool): (r: Report)
    ensures |r.devices| == |hosts|
    ensures forall i :: 0 <= i < |hosts| ==> r.devices[i].ip == hosts[i].ip && r.devices[i].mac == hosts[i].mac
    ensures Load(r.store) == r.cache
  {
    ClassifyDisciplined();
    FoldPersists(Classify, hosts, Load(store), force, store);
    FoldReportsHosts(Classify, hosts, Load(store), force, store);
    Fold(Classify, hosts, Load(store), force, store)
  }

  /** The loop is a left fold: running it over `a + b` is running it over `a` and then
      over `b` from the cache and store `a` left behind. */
  lemma {:induction false} FoldSplit(step: Step, a: seq<Sighting>, b: seq<Sighting>, cache: Cache, force: bool, store: Option<Cache>)
    ensures var ra := Fold(step, a, cache, force, store);
            var rb := Fold(step, b, ra.cache, force, ra.store);
            Fold(step, a + b, cache, force, store) == Report(ra.devices + rb.devices, rb.cache, rb.store)
    decreases |a|
  {
    if |a| == 0 {
      assert a + b == b;
    } else {
      var h := a[0];
      var o := step(h.ip, h.mac, cache, force, h.probe, h.now);
      var s := if o.saved then Some(o.cache) else store;
      assert (a + b)[0] == h;
      assert (a + b)[1..] == a[1..] + b;
      FoldSplit(step, a[1..], b, o.cache, force, s);
      var ra' := Fold(step, a[1..], o.cache, force, s);
      var rb := Fold(step, b, ra'.cache, force, ra'.store);
      var d := Device(h.ip, h.mac, o.classification, o.confidence);
      assert [d] + (ra'.devices + rb.devices) == ([d] + ra'.devices) + rb.devices;
    }
  }

  /** Host `i` is classified against the cache left by hosts `0..i-1`, so every record
      written earlier in the sweep is visible to it. */
  lemma DeviceFromPrefix(step: Step, hosts: seq<Sighting>, cache: Cache, force: bool, store: Option<Cache>, i: nat)
    requires i < |hosts|
    ensures var before := Fold(step, hosts[..i], cache, force, store).cache;
            var h := hosts[i];
            var o := step(h.ip, h.mac, before, force, h.probe, h.now);
            Fold(step, hosts, cache, force, store).devices[i] == Device(h.ip, h.mac, o.classification, o.confidence)
  {
    assert hosts == hosts[..i] + hosts[i..];
    FoldSplit(step, hosts[..i], hosts[i..], cache, force, store);
    assert hosts[i..][0] == hosts[i];
  }

  /** The set of visited MACs of a non-empty sweep: the first host's, then the rest. */
  lemma VisitedCons(hosts: seq<Sighting>)
    requires |hosts| > 0
    ensures Visited(hosts) == {Upper(hosts[0].mac)} + Visited(hosts[1..])
  {
    forall k | k in Visited(hosts)
      ensures k in {Upper(hosts[0].mac)} + Visited(hosts[1..])
    {
      var i :| 0 <= i < |hosts| && k == Upper(hosts[i].mac);
      if i > 0 {
        assert hosts[1..][i - 1] == hosts[i];
      }
    }
    forall k | k in Visited(hosts[1..])
      ensures k in Visited(hosts)
    {
      var i :| 0 <= i < |hosts[1..]| && k == Upper(hosts[1..][i].mac);
      assert hosts[1..][i] == hosts[i + 1];
    }
  }

  /** The keys after a sweep are the keys before it plus the visited MACs. */
  lemma {:induction false} FoldKeys(step: Step, hosts: seq<Sighting>, cache: Cache, force: bool, store: Option<Cache>)
    requires Disciplined(step)
    ensures Fold(step, hosts, cache, force, store).cache.Keys == cache.Keys + Visited(hosts)
    decreases |hosts|
  {
    if |hosts| > 0 {
      var h := hosts[0];
      var o := step(h.ip, h.mac, cache, force, h.probe, h.now);
      var s := if o.saved then Some(o.cache) else store;
      assert Keeps(o, h.ip, h.mac, cache, force, h.now);
      assert o.cache.Keys == cache.Keys + {Upper(h.mac)};
      FoldKeys(step, hosts[1..], o.cache, force, s);
      VisitedCons(hosts);
      var r := Fold(step, hosts, cache, force, store);
      assert r.cache == Fold(step, hosts[1..], o.cache, force, s).cache;
      assert cache.Keys + Visited(hosts) == o.cache.Keys + Visited(hosts[1..]);
    }
  }

  /** A record for a MAC the sweep did not visit is untouched. */
  lemma {:induction false} FoldFrame(step: Step, hosts: seq<Sighting>, cache: Cache, force: bool, store: Option<Cache>)
    requires Disciplined(step)
    ensures var r := Fold(step, hosts, cache, force, store);
            forall k :: k in cache && k !in Visited(hosts) ==> k in r.cache && r.cache[k] == cache[k]
    decreases |hosts|
  {
    if |hosts| > 0 {
      var h := hosts[0];
      var o := step(h.ip, h.mac, cache, force, h.probe, h.now);
      var s := if o.saved then Some(o.cache) else store;
      assert Keeps(o, h.ip, h.mac, cache, force, h.now);
      FoldFrame(step, hosts[1..], o.cache, force, s);
      VisitedCons(hosts);
    }
  }

  /** Without `force` a sweep never changes a record that is already cached. */
  lemma {:induction false} FoldKeepsEntries(step: Step, hosts: seq<Sighting>, cache: Cache, store: Option<Cache>)
    requires Disciplined(step)
    ensures var r := Fold(step, hosts, cache, false, store);
            forall k :: k in cache ==> k in r.cache && r.cache[k] == cache[k]
    decreases |hosts|
  {
    if |hosts| > 0 {
      var h := hosts[0];
      var o := step(h.ip, h.mac, cache, false, h.probe, h.now);
      FoldKeepsEntries(step, hosts[1..], o.cache, if o.saved then Some(o.cache) else store);
    }
  }

  /** Without `force`, a host whose MAC is already cached when the loop starts is
      reported with the cached classification and confidence. */
  lemma {:induction false} FoldHitsCache(step: Step, hosts: seq<Sighting>, cache: Cache, store: Option<Cache>, j: nat)
    requires Disciplined(step)
    requires j < |hosts| && Upper(hosts[j].mac) in cache
    ensures var d := Fold(step, hosts, cache, false, store).devices[j];
            var rec := cache[Upper(hosts[j].mac)];
            d.classification == rec.classification && d.confidence == rec.confidence
    decreases |hosts|
  {
    var h := hosts[0];
    var o := step(h.ip, h.mac, cache, false, h.probe, h.now);
    var s := if o.saved then Some(o.cache) else store;
    if j > 0 {
      assert hosts[1..][j - 1] == hosts[j];
      FoldHitsCache(step, hosts[1..], o.cache, s, j - 1);
    }
  }

  /** A MAC discovered twice in one sweep without `force` is classified on its second
      sighting from the record its first sighting wrote: both are reported alike. */
  lemma {:induction false} DuplicateReusesFirst(step: Step, hosts: seq<Sighting>, cache: Cache, store: Option<Cache>, i: nat, j: nat)
    requires Disciplined(step)
    requires i < j < |hosts|
    requires Upper(hosts[i].mac) == Upper(hosts[j].mac)
    ensures var r := Fold(step, hosts, cache, false, store);
            r.devices[j].classification == r.devices[i].classification
            && r.devices[j].confidence == r.devices[i].confidence
    decreases |hosts|
  {
    var h := hosts[0];
    var o := step(h.ip, h.mac, cache, false, h.probe, h.now);
    var s := if o.saved then Some(o.cache) else store;
    var rest := Fold(step, hosts[1..], o.cache, false, s);
    var r := Fold(step, hosts, cache, false, store);
    assert hosts[1..][j - 1] == hosts[j];
    assert r.devices[j] == rest.devices[j - 1];
    if i == 0 {
      FoldHitsCache(step, hosts[1..], o.cache, s, j - 1);
    } else {
      assert hosts[1..][i - 1] == hosts[i];
      assert r.devices[i] == rest.devices[i - 1];
      DuplicateReusesFirst(step, hosts[1..], o.cache, s, i - 1, j - 1);
    }
  }

  /** A loop keeps the cache invariant. */
  lemma {:induction false} FoldKeepsValid(step: Step, hosts: seq<Sighting>, cache: Cache, force: bool, store: Option<Cache>)
    requires Disciplined(step)
    requires ValidCache(cache)
    ensures ValidCache(Fold(step, hosts, cache, force, store).cache)
    decreases |hosts|
  {
    if |hosts| > 0 {
      var h := hosts[0];
      var o := step(h.ip, h.mac, cache, force, h.probe, h.now);
      KeepsValid(o, h.ip, h.mac, cache, force, h.now);
      FoldKeepsValid(step, hosts[1..], o.cache, force, if o.saved then Some(o.cache) else store);
    }
  }

  /** From a valid cache, every confidence the loop reports lies in 0..100. */
  lemma FoldConfidenceBounded(step: Step, hosts: seq<Sighting>, cache: Cache, force: bool, store: Option<Cache>, i: nat)
    requires Disciplined(step)
    requires ValidCache(cache)
    requires i < |hosts|
    ensures 0 <= Fold(step, hosts, cache, force, store).devices[i].confidence <= ConfidenceCap
  {
    var before := Fold(step, hosts[..i], cache, force, store).cache;
    var h := hosts[i];
    FoldKeepsValid(step, hosts[..i], cache, force, store);
    DeviceFromPrefix(step, hosts, cache, force, store, i);
    KeepsValid(step(h.ip, h.mac, before, force, h.probe, h.now), h.ip, h.mac, before, force, h.now);
  }

  /** A sweep without `force` reports a MAC seen twice identically, whatever the probe
      and the clock say on the second sighting. */
  lemma SweepDuplicates(store: Option<Cache>, hosts: seq<Sighting>, i: nat, j: nat)
    requires i < j < |hosts|
    requires Upper(hosts[i].mac) == Upper(hosts[j].mac)
    ensures var r := DiscoverAndClassify(store, hosts, false);
            r.devices[j].classification == r.devices[i].classification
            && r.devices[j].confidence == r.devices[i].confidence
  {
    ClassifyDisciplined();
    DuplicateReusesFirst(Classify, hosts, Load(store), store, i, j);
  }

  /** A sweep without `force` reports every host already in the persisted store with its
      stored pair, and leaves every stored record as it was. */
  lemma SweepHonoursStore(store: Option<Cache>, hosts: seq<Sighting>, j: nat)
    requires j < |hosts| && Upper(hosts[j].mac) in Load(store)
    ensures var r := DiscoverAndClassify(store, hosts, false);
            var rec := Load(store)[Upper(hosts[j].mac)];
            && r.devices[j].classification == rec.classification
            && r.devices[j].confidence == rec.confidence
            && forall k :: k in Load(store) ==> k in r.cache && r.cache[k] == Load(store)[k]
  {
    ClassifyDisciplined();
    FoldHitsCache(Classify, hosts, Load(store), store, j);
    FoldKeepsEntries(Classify, hosts, Load(store), store);
  }

  /** With `force` every host is assessed afresh from its own MAC and probe, whatever the
      store holds. */
  lemma SweepForcedIsFresh(store: Option<Cache>, hosts: seq<Sighting>, i: nat)
    requires i < |hosts|
    ensures var d := DiscoverAndClassify(store, hosts, true).devices[i];
            var h := hosts[i];
            Verdict(d.classification, d.confidence) == Assess(Upper(h.mac), OpenPorts(h.probe))
  {
    var h := hosts[i];
    var before := Fold(Classify, hosts[..i], Load(store), true, store).cache;
    DeviceFromPrefix(Classify, hosts, Load(store), true, store, i);
    var o := Classify(h.ip, h.mac, before, true, h.probe, h.now);
  }

  /** After a sweep the cache holds exactly the keys loaded plus the visited MACs, and
      unvisited records are untouched; when the store was valid, every key is upper-cased
      and every reported confidence lies in 0..100. */
  lemma SweepFrame(store: Option<Cache>, hosts: seq<Sighting>, force: bool)
    ensures var r := DiscoverAndClassify(store, hosts, force);
            && r.cache.Keys == Load(store).Keys + Visited(hosts)
            && forall k :: k in Load(store) && k !in Visited(hosts) ==> r.cache[k] == Load(store)[k]
    ensures ValidCache(Load(store)) ==>
              var r := DiscoverAndClassify(store, hosts, force);
              ValidCache(r.cache) && forall i :: 0 <= i < |r.devices| ==> 0 <= r.devices[i].confidence <= ConfidenceCap
  {
    ClassifyDisciplined();
    FoldKeys(Classify, hosts, Load(store), force, store);
    FoldFrame(Classify, hosts, Load(store), force, store);
    if ValidCache(Load(store)) {
      FoldKeepsValid(Classify, hosts, Load(store), force, store);
      forall i | 0 <= i < |hosts|
        ensures 0 <= Fold(Classify, hosts, Load(store), force, store).devices[i].confidence <= ConfidenceCap
      {
        FoldConfidenceBounded(Classify, hosts, Load(store), force, store, i);
      }
    }
  }
}
