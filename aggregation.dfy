/**
 * The value-level logic of MainActivity: the per-location readings, the fold
 * of one scan snapshot into them (`processScanResults`), the SSID table, and
 * the per-access-point summary shown to the user (`processResultsForDisplay`).
 */
module Aggregation {
  import opened Sequences

  /** One entry of the platform's scan snapshot. */
  datatype ScanResult = ScanResult(bssid: string, ssid: string, level: int)

  /**
   * The readings of one location: a map from BSSID to the signal levels seen,
   * in the order they were added. The map in the app is insertion-ordered,
   * and that order is what the display iterates over, so it is kept as `order`.
   */
  datatype Readings = Readings(order: seq<string>, levels: map<string, seq<int>>)

  const NoReadings: Readings := Readings([], map[])

  const HiddenNetwork: string := "<Hidden Network>"
  const UnknownNetwork: string := "<Unknown>"

  /** The insertion order lists each key exactly once, and no key has an empty list. */
  ghost predicate WellFormed(r: Readings) {
    && Distinct(r.order)
    && (forall b :: b in r.order <==> b in r.levels)
    && (forall b :: b in r.levels ==> r.levels[b] != [])
  }

  /** The levels recorded for `bssid`, or none. */
  function Lookup(r: Readings, bssid: string): seq<int> {
    if bssid in r.levels then r.levels[bssid] else []
  }

  /** `getOrPut(bssid) { mutableListOf() }.add(level)`. */
  function Append(r: Readings, bssid: string, level: int): (r': Readings)
    ensures Lookup(r', bssid) == Lookup(r, bssid) + [level]
    ensures forall b :: b != bssid ==> Lookup(r', b) == Lookup(r, b)
    ensures r'.levels.Keys == r.levels.Keys + {bssid}
    ensures r.order <= r'.order
    ensures WellFormed(r) ==> WellFormed(r')
  {
    if bssid in r.levels then Readings(r.order, r.levels[bssid := r.levels[bssid] + [level]])
    else Readings(r.order + [bssid], r.levels[bssid := [level]])
  }

  /** The readings after each result of `results`, first to last, was appended. */
  function AddSnapshot(r: Readings, results: seq<ScanResult>): Readings {
    if results == [] then r
    else
      var last := results[|results| - 1];
      Append(AddSnapshot(r, results[..|results| - 1]), last.bssid, last.level)
  }

  /** The levels of the results that carry `bssid`, in snapshot order. */
  function LevelsOf(results: seq<ScanResult>, bssid: string): seq<int> {
    if results == [] then []
    else
      var last := results[|results| - 1];
      LevelsOf(results[..|results| - 1], bssid) + if last.bssid == bssid then [last.level] else []
  }

  /** The BSSIDs that occur in a snapshot. */
  function BssidsOf(results: seq<ScanResult>): set<string> {
    set i | 0 <= i < |results| :: results[i].bssid
  }

  /** Each BSSID's list grows by exactly the levels the snapshot reports for it, in order. */
  lemma {:induction false} AddSnapshotLevels(r: Readings, results: seq<ScanResult>, bssid: string)
    ensures Lookup(AddSnapshot(r, results), bssid) == Lookup(r, bssid) + LevelsOf(results, bssid)
  {
    if results != [] {
      AddSnapshotLevels(r, results[..|results| - 1], bssid);
    }
  }

  /** A BSSID has readings afterwards iff it had them before or occurs in the snapshot. */
  lemma {:induction false} AddSnapshotKeys(r: Readings, results: seq<ScanResult>)
    ensures AddSnapshot(r, results).levels.Keys == r.levels.Keys + BssidsOf(results)
  {
    if results != [] {
      var p := results[..|results| - 1];
      AddSnapshotKeys(r, p);
      assert BssidsOf(results) == BssidsOf(p) + {results[|results| - 1].bssid} by {
        forall b | b in BssidsOf(results) ensures b in BssidsOf(p) + {results[|results| - 1].bssid} {
          var i :| 0 <= i < |results| && results[i].bssid == b;
          if i < |results| - 1 { assert p[i] == results[i]; }
        }
        forall b | b in BssidsOf(p) ensures b in BssidsOf(results) {
          var i :| 0 <= i < |p| && p[i].bssid == b;
          assert results[i] == p[i];
        }
      }
    }
  }

  /** Folding a snapshot keeps the readings well formed: in particular no list is ever empty. */
  lemma {:induction false} AddSnapshotWellFormed(r: Readings, results: seq<ScanResult>)
    requires WellFormed(r)
    ensures WellFormed(AddSnapshot(r, results))
    ensures r.order <= AddSnapshot(r, results).order
  {
    if results != [] {
      AddSnapshotWellFormed(r, results[..|results| - 1]);
    }
  }

  /** The BSSIDs of a snapshot that `known` lacks, each once, in the order they first occur. */
  function NewBssids(known: seq<string>, results: seq<ScanResult>): seq<string> {
    if results == [] then []
    else
      var earlier := NewBssids(known, results[..|results| - 1]);
      var b := results[|results| - 1].bssid;
      if b in known || b in earlier then earlier else earlier + [b]
  }

  /**
   * The insertion order after a fold: the old keys, then each new BSSID at
   * its first occurrence in the snapshot.
   */
  lemma {:induction false} AddSnapshotOrder(r: Readings, results: seq<ScanResult>)
    requires WellFormed(r)
    ensures AddSnapshot(r, results).order == r.order + NewBssids(r.order, results)
  {
    if results != [] {
      var p := results[..|results| - 1];
      AddSnapshotOrder(r, p);
      AddSnapshotWellFormed(r, p);
    }
  }

  /** The name shown for an SSID: an empty one is a hidden network. */
  function DisplaySsid(ssid: string): (name: string)
    ensures name != []
    ensures ssid != [] ==> name == ssid
    ensures ssid == [] ==> name == HiddenNetwork
  {
    if ssid == [] then HiddenNetwork else ssid
  }

  /** The SSID table after `ssidMap[bssid] = SSID.ifEmpty { "<Hidden Network>" }` for each result in turn. */
  function RecordSsids(ssids: map<string, string>, results: seq<ScanResult>): map<string, string> {
    if results == [] then ssids
    else
      var last := results[|results| - 1];
      RecordSsids(ssids, results[..|results| - 1])[last.bssid := DisplaySsid(last.ssid)]
  }

  /** The last result with a BSSID decides its name. */
  lemma {:induction false} RecordSsidsLastWins(ssids: map<string, string>, results: seq<ScanResult>, k: nat)
    requires k < |results|
    requires forall j :: k < j < |results| ==> results[j].bssid != results[k].bssid
    ensures results[k].bssid in RecordSsids(ssids, results)
    ensures RecordSsids(ssids, results)[results[k].bssid] == DisplaySsid(results[k].ssid)
  {
    if k < |results| - 1 {
      var p := results[..|results| - 1];
      assert p[k] == results[k];
      RecordSsidsLastWins(ssids, p, k);
    }
  }

  /** A BSSID absent from the snapshot keeps its name, or its absence. */
  lemma {:induction false} RecordSsidsOthers(ssids: map<string, string>, results: seq<ScanResult>, bssid: string)
    requires bssid !in BssidsOf(results)
    ensures bssid in RecordSsids(ssids, results) <==> bssid in ssids
    ensures bssid in ssids ==> RecordSsids(ssids, results)[bssid] == ssids[bssid]
  {
    if results != [] {
      var p := results[..|results| - 1];
      RecordSsidsOthers(ssids, p, bssid);
    }
  }

  /** The readings a location index selects: the `when` over 1, 2, 3 with a fresh empty map otherwise. */
  function ReadingsFor(location: int, r1: Readings, r2: Readings, r3: Readings): (r: Readings)
    ensures location == 1 ==> r == r1
    ensures location == 2 ==> r == r2
    ensures location == 3 ==> r == r3
    ensures location !in {1, 2, 3} ==> r == NoReadings
    ensures WellFormed(r1) && WellFormed(r2) && WellFormed(r3) ==> WellFormed(r)
  {
    match location
    case 1 => r1
    case 2 => r2
    case 3 => r3
    case _ => NoReadings
  }

  /** What the display shows for one access point at one location. */
  datatype WifiData = WifiData(
    ssid: string,
    bssid: string,
    minSignalStrength: int,
    maxSignalStrength: int,
    rangeDifference: int,
    samplesCount: int)

  /** `minOrNull() ?: 0` */
  function MinOrZero(s: seq<int>): (m: int)
    ensures s == [] ==> m == 0
    ensures s != [] ==> m in s && forall x :: x in s ==> m <= x
  {
    if s == [] then 0
    else if |s| == 1 then s[0]
    else
      var rest := MinOrZero(s[1..]);
      assert forall x :: x in s ==> x == s[0] || x in s[1..];
      if s[0] <= rest then s[0] else rest
  }

  /** `maxOrNull() ?: 0` */
  function MaxOrZero(s: seq<int>): (m: int)
    ensures s == [] ==> m == 0
    ensures s != [] ==> m in s && forall x :: x in s ==> x <= m
  {
    if s == [] then 0
    else if |s| == 1 then s[0]
    else
      var rest := MaxOrZero(s[1..]);
      assert forall x :: x in s ==> x == s[0] || x in s[1..];
      if s[0] >= rest then s[0] else rest
  }

  /** `w` is the summary of `levels`: their count, least and greatest value and the spread between them. */
  ghost predicate SummaryOf(w: WifiData, levels: seq<int>) {
    && w.samplesCount == |levels|
    && w.minSignalStrength <= w.maxSignalStrength
    && w.rangeDifference == w.maxSignalStrength - w.minSignalStrength
    && (levels == [] ==> w.minSignalStrength == 0 && w.maxSignalStrength == 0)
    && (levels != [] ==>
          && w.minSignalStrength in levels
          && w.maxSignalStrength in levels
          && forall x :: x in levels ==> w.minSignalStrength <= x <= w.maxSignalStrength)
  }

  /** The name shown for a BSSID: the recorded one, or a placeholder. */
  function NameOf(ssids: map<string, string>, bssid: string): string {
    if bssid in ssids then ssids[bssid] else UnknownNetwork
  }

  function Summary(ssids: map<string, string>, bssid: string, levels: seq<int>): (w: WifiData)
    ensures w.bssid == bssid && w.ssid == NameOf(ssids, bssid)
    ensures SummaryOf(w, levels)
  {
    var lo := MinOrZero(levels);
    var hi := MaxOrZero(levels);
    WifiData(NameOf(ssids, bssid), bssid, lo, hi, hi - lo, |levels|)
  }

  /** `processResultsForDisplay`: one summary per key, in the map's order. */
  function Summarize(r: Readings, ssids: map<string, string>): (out: seq<WifiData>)
    ensures |out| == |r.order|
    ensures forall i :: 0 <= i < |out| ==> out[i].bssid == r.order[i]
    ensures forall i :: 0 <= i < |out| ==> out[i].ssid == NameOf(ssids, r.order[i])
    ensures forall i :: 0 <= i < |out| ==> SummaryOf(out[i], Lookup(r, r.order[i]))
    ensures WellFormed(r) ==> forall i, j :: 0 <= i < j < |out| ==> out[i].bssid != out[j].bssid
    ensures WellFormed(r) ==> forall b :: b in r.levels <==> exists i :: 0 <= i < |out| && out[i].bssid == b
    ensures WellFormed(r) ==> forall i :: 0 <= i < |out| ==> out[i].samplesCount >= 1
  {
    seq(|r.order|, i requires 0 <= i < |r.order| => Summary(ssids, r.order[i], Lookup(r, r.order[i])))
  }
}
