/**
 * The computations inside the display layer (WifiScannerUI.kt): the
 * three-way comparison of access-point summaries and the dispatch on the
 * selected location. The composables themselves are layout and are not modelled.
 */
module ScannerUi {
  import opened Wrappers
  import opened Sequences
  import opened Decimal
  import opened Aggregation

  /** One row of the comparison view. */
  datatype LocationComparison = LocationComparison(
    ssid: string,
    bssid: string,
    location1Range: string,
    location2Range: string,
    location3Range: string)

  // ---------------------------------------------------------------------------
  // Lists of BSSIDs
  // ---------------------------------------------------------------------------

  /** Some summary in `l` is about `bssid`. */
  ghost predicate HasBssid(l: seq<WifiData>, bssid: string) {
    exists i :: 0 <= i < |l| && l[i].bssid == bssid
  }

  /** `map { it.bssid }` */
  function Bssids(l: seq<WifiData>): (s: seq<string>)
    ensures |s| == |l|
    ensures forall i :: 0 <= i < |l| ==> s[i] == l[i].bssid
    ensures forall b :: b in s <==> HasBssid(l, b)
  {
    seq(|l|, i requires 0 <= i < |l| => l[i].bssid)
  }

  /** The position of the first occurrence of `x` in `s`. */
  function IndexOf(s: seq<string>, x: string): (k: nat)
    requires x in s
    ensures k < |s| && s[k] == x
    ensures x !in s[..k]
  {
    if s[0] == x then 0
    else
      var k := 1 + IndexOf(s[1..], x);
      assert s[..k] == [s[0]] + s[1..][..k - 1];
      k
  }

  /** `toSet()` on a list: its insertion-ordered set, each element at its first occurrence. */
  function Dedup(s: seq<string>): (d: seq<string>)
    ensures Distinct(d)
    ensures forall x :: x in d <==> x in s
  {
    if s == [] then []
    else
      var p := s[..|s| - 1];
      var x := s[|s| - 1];
      assert s == p + [x];
      if x in p then Dedup(p) else Dedup(p) + [x]
  }

  /** `retainAll(other)` on an insertion-ordered set: the elements of `s` that `t` contains, in the order of `s`. */
  function Retain(s: seq<string>, t: seq<string>): (r: seq<string>)
    ensures forall x :: x in r <==> x in s && x in t
    ensures Distinct(s) ==> Distinct(r)
  {
    if s == [] then []
    else
      var p := s[..|s| - 1];
      var x := s[|s| - 1];
      assert s == p + [x];
      if x in t then Retain(p, t) + [x] else Retain(p, t)
  }

  /** `c` lists elements of `s` in increasing order of their first occurrence in `s`. */
  ghost predicate FollowsOrderOf(c: seq<string>, s: seq<string>) {
    && (forall i :: 0 <= i < |c| ==> c[i] in s)
    && (forall i, j :: 0 <= i < j < |c| && c[i] in s && c[j] in s ==> IndexOf(s, c[i]) < IndexOf(s, c[j]))
  }

  /** An element that occurs in the first `n` positions has its first occurrence there too. */
  lemma IndexOfPrefix(s: seq<string>, n: nat, x: string)
    requires n <= |s| && x in s[..n]
    ensures IndexOf(s, x) == IndexOf(s[..n], x)
  {
    var k, k' := IndexOf(s, x), IndexOf(s[..n], x);
    assert s[..n][..k'] == s[..k'];
  }

  /** The deduplicated list keeps first occurrences in their original order. */
  lemma {:induction false} DedupFollowsOrder(s: seq<string>)
    ensures FollowsOrderOf(Dedup(s), s)
  {
    if s != [] {
      var p := s[..|s| - 1];
      var x := s[|s| - 1];
      DedupFollowsOrder(p);
      var d := Dedup(s);
      forall y | y in p ensures IndexOf(s, y) == IndexOf(p, y) {
        IndexOfPrefix(s, |s| - 1, y);
      }
    }
  }

  /** Retaining a subset keeps the relative order. */
  lemma {:induction false} RetainFollowsOrder(c: seq<string>, t: seq<string>, s: seq<string>)
    requires FollowsOrderOf(c, s)
    ensures FollowsOrderOf(Retain(c, t), s)
  {
    if c != [] {
      var p := c[..|c| - 1];
      var x := c[|c| - 1];
      assert FollowsOrderOf(p, s);
      RetainFollowsOrder(p, t, s);
      var rp := Retain(p, t);
      forall y | y in rp ensures IndexOf(s, y) < IndexOf(s, x) {
        var i :| 0 <= i < |p| && p[i] == y;
        assert c[i] == y;
      }
    }
  }

  /** `location1Bssids.intersect(location2Bssids).intersect(location3Bssids)` */
  function Common(l1: seq<WifiData>, l2: seq<WifiData>, l3: seq<WifiData>): (c: seq<string>)
    ensures Distinct(c)
    ensures forall b :: b in c <==> HasBssid(l1, b) && HasBssid(l2, b) && HasBssid(l3, b)
  {
    Retain(Retain(Dedup(Bssids(l1)), Dedup(Bssids(l2))), Dedup(Bssids(l3)))
  }

  // ---------------------------------------------------------------------------
  // Range text
  // ---------------------------------------------------------------------------

  const RangeSeparator: string := " to "
  const RangeUnit: string := " dBm (\U{394}"
  const RangeClose: string := ")"

  /** `"${min} to ${max} dBm (Δ${rangeDifference})"` */
  function RangeText(w: WifiData): string {
    IntToString(w.minSignalStrength)
      + (RangeSeparator
      + (IntToString(w.maxSignalStrength)
      + (RangeUnit
      + (IntToString(w.rangeDifference)
      + RangeClose))))
  }

  /** The longest prefix of `s` made of characters that can occur in an integer. */
  function NumeralPrefix(s: string): (p: string)
    ensures p <= s
  {
    if s == [] || !IsNumeral(s[0]) then [] else [s[0]] + NumeralPrefix(s[1..])
  }

  lemma {:induction false} NumeralPrefixOf(a: string, t: string)
    requires forall i :: 0 <= i < |a| ==> IsNumeral(a[i])
    requires t == [] || !IsNumeral(t[0])
    ensures NumeralPrefix(a + t) == a
  {
    if a != [] {
      assert (a + t)[1..] == a[1..] + t;
      NumeralPrefixOf(a[1..], t);
    }
  }

  /** The rest of `s` after the literal `lit`, if `s` starts with it. */
  function After(s: string, lit: string): Option<string> {
    if lit <= s then Some(s[|lit|..]) else None
  }

  /** An integer at the front of `s`, and what follows it. */
  function TakeInt(s: string): Option<(int, string)> {
    var p := NumeralPrefix(s);
    match ParseInt(p)
    case Some(n) => Some((n, s[|p|..]))
    case None => None
  }

  /** Reads back (min, max, range) from a range text. */
  function ParseRangeText(s: string): Option<(int, int, int)> {
    match TakeInt(s)
    case None => None
    case Some((lo, s1)) =>
      match After(s1, RangeSeparator)
      case None => None
      case Some(s2) =>
        match TakeInt(s2)
        case None => None
        case Some((hi, s3)) =>
          match After(s3, RangeUnit)
          case None => None
          case Some(s4) =>
            match TakeInt(s4)
            case None => None
            case Some((d, s5)) => if s5 == RangeClose then Some((lo, hi, d)) else None
  }

  lemma TakeIntOf(n: int, t: string)
    requires t != [] && !IsNumeral(t[0])
    ensures TakeInt(IntToString(n) + t) == Some((n, t))
  {
    NumeralPrefixOf(IntToString(n), t);
    ParseIntToString(n);
  }

  lemma AfterOf(lit: string, t: string)
    ensures After(lit + t, lit) == Some(t)
  {
    assert (lit + t)[|lit|..] == t;
  }

  /** A range text determines the three numbers it was made from. */
  lemma RangeTextRoundTrip(w: WifiData)
    ensures ParseRangeText(RangeText(w)) == Some((w.minSignalStrength, w.maxSignalStrength, w.rangeDifference))
  {
    var tail3 := RangeClose;
    var tail2 := RangeUnit + (IntToString(w.rangeDifference) + tail3);
    var tail1 := RangeSeparator + (IntToString(w.maxSignalStrength) + tail2);
    TakeIntOf(w.minSignalStrength, tail1);
    AfterOf(RangeSeparator, IntToString(w.maxSignalStrength) + tail2);
    TakeIntOf(w.maxSignalStrength, tail2);
    AfterOf(RangeUnit, IntToString(w.rangeDifference) + tail3);
    TakeIntOf(w.rangeDifference, tail3);
  }

  lemma TakeIntExact(s: string, n: int, t: string)
    requires TakeInt(s) == Some((n, t))
    ensures s == IntToString(n) + t
  {
    var p := NumeralPrefix(s);
    ParseIntExact(p, n);
    assert s == p + s[|p|..];
  }

  lemma AfterExact(s: string, lit: string, t: string)
    requires After(s, lit) == Some(t)
    ensures s == lit + t
  {
    assert s == s[..|lit|] + s[|lit|..];
  }

  /** The only text that reads back as a summary's three numbers is that summary's range text. */
  lemma ParseRangeTextExact(s: string, w: WifiData)
    requires ParseRangeText(s) == Some(Numbers(w))
    ensures s == RangeText(w)
  {
    var (lo, s1) := TakeInt(s).value;
    TakeIntExact(s, lo, s1);
    var s2 := After(s1, RangeSeparator).value;
    AfterExact(s1, RangeSeparator, s2);
    var (hi, s3) := TakeInt(s2).value;
    TakeIntExact(s2, hi, s3);
    var s4 := After(s3, RangeUnit).value;
    AfterExact(s3, RangeUnit, s4);
    var (d, s5) := TakeInt(s4).value;
    TakeIntExact(s4, d, s5);
  }

  // ---------------------------------------------------------------------------
  // The comparison
  // ---------------------------------------------------------------------------

  /** `l.first { it.bssid == bssid }`, as a position. */
  function FirstIndex(l: seq<WifiData>, bssid: string): (k: nat)
    requires HasBssid(l, bssid)
    ensures k < |l| && l[k].bssid == bssid
    ensures forall j :: 0 <= j < k ==> l[j].bssid != bssid
  {
    var s := Bssids(l);
    var k := IndexOf(s, bssid);
    assert forall j :: 0 <= j < k ==> s[..k][j] == l[j].bssid;
    k
  }

  /** The three numbers a summary's range text carries. */
  function Numbers(w: WifiData): (int, int, int) {
    (w.minSignalStrength, w.maxSignalStrength, w.rangeDifference)
  }

  /** The row for one common BSSID, built from the first summary with it at each location. */
  function Row(bssid: string, l1: seq<WifiData>, l2: seq<WifiData>, l3: seq<WifiData>): (row: LocationComparison)
    requires HasBssid(l1, bssid) && HasBssid(l2, bssid) && HasBssid(l3, bssid)
    ensures row.bssid == bssid
    ensures row.ssid == l1[FirstIndex(l1, bssid)].ssid
    ensures ParseRangeText(row.location1Range) == Some(Numbers(l1[FirstIndex(l1, bssid)]))
    ensures ParseRangeText(row.location2Range) == Some(Numbers(l2[FirstIndex(l2, bssid)]))
    ensures ParseRangeText(row.location3Range) == Some(Numbers(l3[FirstIndex(l3, bssid)]))
  {
    var ap1 := l1[FirstIndex(l1, bssid)];
    var ap2 := l2[FirstIndex(l2, bssid)];
    var ap3 := l3[FirstIndex(l3, bssid)];
    RangeTextRoundTrip(ap1);
    RangeTextRoundTrip(ap2);
    RangeTextRoundTrip(ap3);
    LocationComparison(ap1.ssid, bssid, RangeText(ap1), RangeText(ap2), RangeText(ap3))
  }

  /** `commonBssids.map { ... }`: the row of each BSSID of `c`, in the order of `c`. */
  function RowsOf(c: seq<string>, l1: seq<WifiData>, l2: seq<WifiData>, l3: seq<WifiData>): (rows: seq<LocationComparison>)
    requires forall b :: b in c ==> HasBssid(l1, b) && HasBssid(l2, b) && HasBssid(l3, b)
    ensures |rows| == |c|
    ensures forall i :: 0 <= i < |c| ==> rows[i] == Row(c[i], l1, l2, l3)
  {
    seq(|c|, i requires 0 <= i < |c| => Row(c[i], l1, l2, l3))
  }

  /** `comparisons` in `ComparisonResults`: one row per BSSID seen at all three locations. */
  function Compare(l1: seq<WifiData>, l2: seq<WifiData>, l3: seq<WifiData>): (rows: seq<LocationComparison>)
    ensures |rows| == |Common(l1, l2, l3)|
    ensures forall i :: 0 <= i < |rows| ==> rows[i].bssid == Common(l1, l2, l3)[i]
    ensures forall i :: 0 <= i < |rows| ==>
      HasBssid(l1, rows[i].bssid) && HasBssid(l2, rows[i].bssid) && HasBssid(l3, rows[i].bssid)
    ensures forall b :: HasBssid(l1, b) && HasBssid(l2, b) && HasBssid(l3, b) ==>
      exists i :: 0 <= i < |rows| && rows[i].bssid == b
    ensures forall i, j :: 0 <= i < j < |rows| ==> rows[i].bssid != rows[j].bssid
    ensures forall i :: 0 <= i < |rows| ==> rows[i].ssid == l1[FirstIndex(l1, rows[i].bssid)].ssid
    ensures forall i :: 0 <= i < |rows| ==>
      && ParseRangeText(rows[i].location1Range) == Some(Numbers(l1[FirstIndex(l1, rows[i].bssid)]))
      && ParseRangeText(rows[i].location2Range) == Some(Numbers(l2[FirstIndex(l2, rows[i].bssid)]))
      && ParseRangeText(rows[i].location3Range) == Some(Numbers(l3[FirstIndex(l3, rows[i].bssid)]))
  {
    var c := Common(l1, l2, l3);
    RowsOf(c, l1, l2, l3)
  }

  /** The rows follow the order in which the BSSIDs first occur in the location-1 list. */
  lemma CompareFollowsLocation1(l1: seq<WifiData>, l2: seq<WifiData>, l3: seq<WifiData>)
    ensures var rows := Compare(l1, l2, l3);
      forall i, j :: 0 <= i < j < |rows| ==> FirstIndex(l1, rows[i].bssid) < FirstIndex(l1, rows[j].bssid)
  {
    var b1 := Bssids(l1);
    DedupFollowsOrder(b1);
    RetainFollowsOrder(Dedup(b1), Dedup(Bssids(l2)), b1);
    RetainFollowsOrder(Retain(Dedup(b1), Dedup(Bssids(l2))), Dedup(Bssids(l3)), b1);
  }

  /** There are exactly as many rows as BSSIDs seen at all three locations. */
  lemma CompareCount(l1: seq<WifiData>, l2: seq<WifiData>, l3: seq<WifiData>)
    ensures |Compare(l1, l2, l3)| == |Elements(Bssids(l1)) * Elements(Bssids(l2)) * Elements(Bssids(l3))|
  {
    var c := Common(l1, l2, l3);
    DistinctCardinality(c);
    assert Elements(c) == Elements(Bssids(l1)) * Elements(Bssids(l2)) * Elements(Bssids(l3));
  }

  /** Without a BSSID common to all three lists the comparison is empty. */
  lemma CompareEmpty(l1: seq<WifiData>, l2: seq<WifiData>, l3: seq<WifiData>)
    requires forall b :: !(HasBssid(l1, b) && HasBssid(l2, b) && HasBssid(l3, b))
    ensures Compare(l1, l2, l3) == []
  {
    var c := Common(l1, l2, l3);
    if c != [] {
      assert c[0] in c;
    }
  }

  // ---------------------------------------------------------------------------
  // The selected-location dispatch
  // ---------------------------------------------------------------------------

  /** `locationComplete`: the scanned flag of the selected location, false for any other value. */
  function LocationComplete(selected: int, scanned1: bool, scanned2: bool, scanned3: bool): (complete: bool)
    ensures selected == 1 ==> complete == scanned1
    ensures selected == 2 ==> complete == scanned2
    ensures selected == 3 ==> complete == scanned3
    ensures complete ==> selected in {1, 2, 3}
  {
    match selected
    case 1 => scanned1
    case 2 => scanned2
    case 3 => scanned3
    case _ => false
  }

  /** `resultsToShow`: the summaries of the selected location, empty for any other value. */
  function ResultsToShow(selected: int, l1: seq<WifiData>, l2: seq<WifiData>, l3: seq<WifiData>): seq<WifiData> {
    match selected
    case 1 => l1
    case 2 => l2
    case 3 => l3
    case _ => []
  }

  /**
   * The list shown for the selected location is the summary of the readings
   * the aggregation writes for that location, including the empty case for an
   * index outside 1..3.
   */
  lemma ResultsToShowAgrees(selected: int, r1: Readings, r2: Readings, r3: Readings, ssids: map<string, string>)
    ensures ResultsToShow(selected, Summarize(r1, ssids), Summarize(r2, ssids), Summarize(r3, ssids))
         == Summarize(ReadingsFor(selected, r1, r2, r3), ssids)
  {
  }

  /** The range text of a location-1 summary of three readings. */
  lemma RangeTextExample()
    ensures RangeText(WifiData("Office", "AP_X", -60, -50, 10, 3)) == "-60 to -50 dBm (\U{394}10)"
  {
    assert IntToString(-60) == "-60" && IntToString(-50) == "-50" && IntToString(10) == "10";
  }

  /** The summary of one access point's readings at each of three locations. */
  lemma SummarizeExample()
    ensures Summarize(Readings(["AP_X"], map["AP_X" := [-50, -60, -55]]), map["AP_X" := "Office"])
         == [WifiData("Office", "AP_X", -60, -50, 10, 3)]
    ensures Summarize(Readings(["AP_X"], map["AP_X" := [-70, -65]]), map["AP_X" := "Office"])
         == [WifiData("Office", "AP_X", -70, -65, 5, 2)]
    ensures Summarize(Readings(["AP_X"], map["AP_X" := [-80]]), map["AP_X" := "Office"])
         == [WifiData("Office", "AP_X", -80, -80, 0, 1)]
  {
    assert MinOrZero([-50, -60, -55]) == -60 && MaxOrZero([-50, -60, -55]) == -50;
    assert MinOrZero([-70, -65]) == -70 && MaxOrZero([-70, -65]) == -65;
    assert MinOrZero([-80]) == -80 && MaxOrZero([-80]) == -80;
  }

  /** One summary per location, all about the same access point: that access point is the only common one. */
  lemma CommonSingletons(a1: WifiData, a2: WifiData, a3: WifiData)
    requires a1.bssid == a2.bssid == a3.bssid
    ensures Common([a1], [a2], [a3]) == [a1.bssid]
  {
    var c := Common([a1], [a2], [a3]);
    assert [a1][0].bssid == a1.bssid && [a2][0].bssid == a1.bssid && [a3][0].bssid == a1.bssid;
    assert Elements(c) == {a1.bssid};
    DistinctCardinality(c);
    assert c[0] in c;
  }

  /**
   * When each location saw one access point, and it is the same one, the
   * comparison is the single row built from the three summaries.
   */
  lemma CompareSingletons(a1: WifiData, a2: WifiData, a3: WifiData)
    requires a1.bssid == a2.bssid == a3.bssid
    ensures Compare([a1], [a2], [a3])
         == [LocationComparison(a1.ssid, a1.bssid, RangeText(a1), RangeText(a2), RangeText(a3))]
  {
    CommonSingletons(a1, a2, a3);
    var b := a1.bssid;
    assert FirstIndex([a1], b) == 0 && FirstIndex([a2], b) == 0 && FirstIndex([a3], b) == 0;
    assert Compare([a1], [a2], [a3]) == [Row(b, [a1], [a2], [a3])];
  }

  /** The office access point of the summaries above gives one row with its three range texts. */
  lemma CompareExample()
    ensures
      Compare([WifiData("Office", "AP_X", -60, -50, 10, 3)],
              [WifiData("Office", "AP_X", -70, -65, 5, 2)],
              [WifiData("Office", "AP_X", -80, -80, 0, 1)])
      == [LocationComparison("Office", "AP_X",
            RangeText(WifiData("Office", "AP_X", -60, -50, 10, 3)),
            RangeText(WifiData("Office", "AP_X", -70, -65, 5, 2)),
            RangeText(WifiData("Office", "AP_X", -80, -80, 0, 1)))]
  {
    CompareSingletons(WifiData("Office", "AP_X", -60, -50, 10, 3),
                      WifiData("Office", "AP_X", -70, -65, 5, 2),
                      WifiData("Office", "AP_X", -80, -80, 0, 1));
  }
}
