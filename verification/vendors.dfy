/** The vendor directory: an ordered table from 3-octet MAC prefixes
    ("B8:27:EB") to vendor labels, and the first-match lookup over it
    (`OUI_DB` and `lookup_vendor` in classifier.py). */
module Vendors {
  import opened Base
  import opened Strings

  /** An ordered table of (prefix, label) entries; order is the tie-break. */
  type Directory = seq<(string, string)>

  /** The label returned when no prefix matches. */
  const Unknown: string := "Unknown"

  /** Number of MAC characters compared against the table: three octets and two colons. */
  const PrefixLength: nat := 8

  /** `OUI_DB`, in the insertion order that Python's dict iteration follows. */
  const OuiDb: Directory := [
    ("B8:27:EB", "Raspberry Pi"),
    ("DC:A6:32", "Raspberry Pi"),
    ("E4:5F:01", "Raspberry Pi"),
    ("24:6F:28", "ESP8266/ESP32"),
    ("7C:9E:BD", "ESP32"),
    ("30:AE:A4", "ESP8266"),
    ("84:0D:8E", "Arduino"),
    ("90:A2:DA", "Arduino"),
    ("00:1A:11", "TP-Link AP"),
    ("F4:F2:6D", "TP-Link Router"),
    ("F4:F5:D8", "Ubiquiti AP"),
    ("24:A4:3C", "Ubiquiti Router"),
    ("20:0C:C8", "Netgear Router"),
    ("10:DA:43", "Netgear Router"),
    ("00:1B:54", "Cisco Router"),
    ("3C:CE:73", "Cisco Device"),
    ("00:25:9C", "Linksys Router"),
    ("14:91:82", "Linksys Device"),
    ("3C:5A:B4", "Samsung Phone"),
    ("D0:37:45", "Apple Device"),
    ("F8:27:93", "Huawei Device"),
    ("54:27:58", "Xiaomi Phone"),
    ("04:4B:ED", "OnePlus Device"),
    ("00:9A:CD", "Google Pixel"),
    ("00:1C:BF", "Intel Laptop"),
    ("EC:A8:6B", "Dell Laptop"),
    ("40:8D:5C", "HP Laptop"),
    ("00:50:56", "VMware Virtual NIC"),
    ("00:0C:29", "VMware Host")
  ]

  /** The part of a MAC address compared against the table: its first eight
      characters after upper-casing. */
  function MacPrefix(mac: string): (p: string)
    ensures |p| <= PrefixLength
    ensures IsUpper(p)
    ensures p <= Upper(mac)
    ensures |p| == if |mac| < PrefixLength then |mac| else PrefixLength
  {
    Take(Upper(mac), PrefixLength)
  }

  /** Entry `i` of `db` matches `prefix` when the prefix starts with the entry's key. */
  ghost predicate MatchesAt(db: Directory, prefix: string, i: int)
  {
    0 <= i < |db| && StartsWith(prefix, db[i].0)
  }

  /** The scan of `lookup_vendor`'s loop from entry `k` on: the index of the first
      entry at or after `k` whose key `prefix` starts with. */
  function FirstMatchFrom(db: Directory, prefix: string, k: nat): (r: Option<nat>)
    requires k <= |db|
    ensures r.Some? ==> k <= r.value && MatchesAt(db, prefix, r.value)
    ensures r.Some? ==> forall j :: k <= j < r.value ==> !MatchesAt(db, prefix, j)
    ensures r.None? ==> forall j :: k <= j < |db| ==> !MatchesAt(db, prefix, j)
    decreases |db| - k
  {
    if k == |db| then None
    else if StartsWith(prefix, db[k].0) then Some(k)
    else FirstMatchFrom(db, prefix, k + 1)
  }

  /** The index of the first entry whose key `prefix` starts with, in table order. */
  function FirstMatch(db: Directory, prefix: string): Option<nat>
  {
    FirstMatchFrom(db, prefix, 0)
  }

  /** `lookup_vendor` against an arbitrary table. */
  function LookupIn(db: Directory, mac: string): (vendor: string)
    ensures (forall i :: !MatchesAt(db, MacPrefix(mac), i)) ==> vendor == Unknown
    ensures forall i :: MatchesAt(db, MacPrefix(mac), i) && (forall j :: 0 <= j < i ==> !MatchesAt(db, MacPrefix(mac), j))
                        ==> vendor == db[i].1
  {
    match FirstMatch(db, MacPrefix(mac))
    case Some(i) => db[i].1
    case None => Unknown
  }

  /** `lookup_vendor`: the label of the first `OUI_DB` entry matching the MAC, or "Unknown". */
  function LookupVendor(mac: string): string
  {
    LookupIn(OuiDb, mac)
  }

  /** Lookup ignores the case of the MAC address. */
  lemma LookupCaseInsensitive(db: Directory, mac: string)
    ensures LookupIn(db, Upper(mac)) == LookupIn(db, mac)
  {
    UpperIdempotent(mac);
  }

  /** Lookup returns either the sentinel or one of the table's labels. */
  lemma LookupRange(db: Directory, mac: string)
    ensures LookupIn(db, mac) == Unknown || exists i :: 0 <= i < |db| && LookupIn(db, mac) == db[i].1
  {
  }

  /** A table in the shape `OUI_DB` has: every key is eight upper-case characters,
      no key occurs twice, and no label is the sentinel. */
  ghost predicate WellFormed(db: Directory)
  {
    && (forall i :: 0 <= i < |db| ==> |db[i].0| == PrefixLength && IsUpper(db[i].0))
    && (forall i, j :: 0 <= i < j < |db| ==> db[i].0 != db[j].0)
    && (forall i :: 0 <= i < |db| ==> db[i].1 != Unknown)
  }

  /** In a well-formed table at most one entry matches any MAC, so the
      insertion-order tie-break never decides anything. */
  lemma MatchUnique(db: Directory, mac: string, i: int, j: int)
    requires WellFormed(db)
    requires MatchesAt(db, MacPrefix(mac), i) && MatchesAt(db, MacPrefix(mac), j)
    ensures i == j
  {
    var p := MacPrefix(mac);
    assert db[i].0 == p[..PrefixLength] == db[j].0;
  }

  /** Every MAC that begins with a table key (in either case) is looked up as that key's label. */
  lemma LookupHit(db: Directory, i: int, mac: string)
    requires WellFormed(db)
    requires 0 <= i < |db|
    requires StartsWith(Upper(mac), db[i].0)
    ensures LookupIn(db, mac) == db[i].1
  {
    var p := MacPrefix(mac);
    assert p == db[i].0;
    assert MatchesAt(db, p, i);
    forall j | 0 <= j < i
      ensures !MatchesAt(db, p, j)
    {
      if MatchesAt(db, p, j) {
        MatchUnique(db, mac, i, j);
      }
    }
  }

  /** A MAC whose prefix is in the table never gets the sentinel, and one whose prefix is
      absent always does: `Unknown` means exactly "no key matches". */
  lemma LookupUnknownIff(db: Directory, mac: string)
    requires WellFormed(db)
    ensures LookupIn(db, mac) == Unknown <==> forall i :: 0 <= i < |db| ==> !StartsWith(MacPrefix(mac), db[i].0)
  {
    var p := MacPrefix(mac);
    var r := FirstMatch(db, p);
    if r.Some? {
      assert MatchesAt(db, p, r.value);
    }
  }

  // The facts about the 29 literal entries are split into index ranges of a few
  // entries each (uneven, because pairwise distinctness grows with the index) so
  // that every proof over the literal table stays within the solver's budget.

  /** Keys 0..9 of `OUI_DB` are eight upper-case characters. */
  lemma OuiDbKeysShape0()
    ensures forall i :: 0 <= i < 10 ==> |OuiDb[i].0| == PrefixLength && IsUpper(OuiDb[i].0)
  {
  }

  /** Keys 10..19 of `OUI_DB` are eight upper-case characters. */
  lemma OuiDbKeysShape1()
    ensures forall i :: 10 <= i < 20 ==> |OuiDb[i].0| == PrefixLength && IsUpper(OuiDb[i].0)
  {
  }

  /** Keys 20..28 of `OUI_DB` are eight upper-case characters. */
  lemma OuiDbKeysShape2()
    ensures forall i :: 20 <= i < 29 ==> |OuiDb[i].0| == PrefixLength && IsUpper(OuiDb[i].0)
  {
  }

  lemma OuiDbKeysShape()
    ensures forall i :: 0 <= i < |OuiDb| ==> |OuiDb[i].0| == PrefixLength && IsUpper(OuiDb[i].0)
  {
    OuiDbKeysShape0();
    OuiDbKeysShape1();
    OuiDbKeysShape2();
  }

  /** The keys at indices 0..9 of `OUI_DB` repeat no earlier key. */
  lemma OuiDbKeysDistinct0()
    ensures forall i, j :: 0 <= i < j && 0 <= j < 10 ==> OuiDb[i].0 != OuiDb[j].0
  {
  }

  /** The keys at indices 10..14 of `OUI_DB` repeat no earlier key. */
  lemma OuiDbKeysDistinct1()
    ensures forall i, j :: 0 <= i < j && 10 <= j < 15 ==> OuiDb[i].0 != OuiDb[j].0
  {
  }

  /** The keys at indices 15..18 of `OUI_DB` repeat no earlier key. */
  lemma OuiDbKeysDistinct2()
    ensures forall i, j :: 0 <= i < j && 15 <= j < 19 ==> OuiDb[i].0 != OuiDb[j].0
  {
  }

  /** The keys at indices 19..21 of `OUI_DB` repeat no earlier key. */
  lemma OuiDbKeysDistinct3()
    ensures forall i, j :: 0 <= i < j && 19 <= j < 22 ==> OuiDb[i].0 != OuiDb[j].0
  {
  }

  /** The keys at indices 22..24 of `OUI_DB` repeat no earlier key. */
  lemma OuiDbKeysDistinct4()
    ensures forall i, j :: 0 <= i < j && 22 <= j < 25 ==> OuiDb[i].0 != OuiDb[j].0
  {
  }

  /** The keys at indices 25..26 of `OUI_DB` repeat no earlier key. */
  lemma OuiDbKeysDistinct5()
    ensures forall i, j :: 0 <= i < j && 25 <= j < 27 ==> OuiDb[i].0 != OuiDb[j].0
  {
  }

  /** The keys at indices 27..28 of `OUI_DB` repeat no earlier key. */
  lemma OuiDbKeysDistinct6()
    ensures forall i, j :: 0 <= i < j && 27 <= j < 29 ==> OuiDb[i].0 != OuiDb[j].0
  {
  }

  lemma OuiDbKeysDistinct()
    ensures forall i, j :: 0 <= i < j < |OuiDb| ==> OuiDb[i].0 != OuiDb[j].0
  {
    OuiDbKeysDistinct0();
    OuiDbKeysDistinct1();
    OuiDbKeysDistinct2();
    OuiDbKeysDistinct3();
    OuiDbKeysDistinct4();
    OuiDbKeysDistinct5();
    OuiDbKeysDistinct6();
  }

  lemma OuiDbLabels()
    ensures forall i :: 0 <= i < |OuiDb| ==> OuiDb[i].1 != Unknown
  {
  }

  /** `OUI_DB` has the shape the lemmas above need. */
  lemma OuiDbWellFormed()
    ensures |OuiDb| == 29
    ensures WellFormed(OuiDb)
  {
    OuiDbKeysShape();
    OuiDbKeysDistinct();
    OuiDbLabels();
  }

  /** Every MAC that begins with an `OUI_DB` key, in either letter case, is looked up as
      that key's label: the table order never hides an entry. */
  lemma LookupOuiDb(i: int, mac: string)
    requires 0 <= i < |OuiDb|
    requires StartsWith(Upper(mac), OuiDb[i].0)
    ensures LookupVendor(mac) == OuiDb[i].1
  {
    OuiDbWellFormed();
    LookupHit(OuiDb, i, mac);
  }
}
