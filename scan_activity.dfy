/**
 * The scan loop of MainActivity: a sequential state machine driven by user
 * commands (select, start, cancel), the scan-completed broadcast, and the
 * callbacks posted to the main-thread handler (the 3000 ms timeout, the
 * 500 ms grace check after a rejected scan request, and the 500 ms delay
 * before the next scan). Time is not modelled: a posted callback stays in
 * `pending` until the environment runs it (`Fire`) or a removal drops it.
 */
module ScanActivity {
  import opened Aggregation
  import opened ScannerUi

  const TotalScansRequired: int := 100

  /** `(scanCount * 100) / totalScansRequired` */
  function Progress(count: int): (p: int)
    ensures 0 <= count <= TotalScansRequired ==> 0 <= p <= 100
    ensures count == TotalScansRequired ==> p == 100
    ensures count == 0 ==> p == 0
  {
    (count * 100) / TotalScansRequired
  }

  /** More completed iterations never show less progress. */
  lemma ProgressMonotone(a: int, b: int)
    requires a <= b
    ensures Progress(a) <= Progress(b)
  {
  }

  /** A callback posted to the handler. */
  datatype Callback =
    | ScanTimeout   // `scanTimeoutRunnable`, posted with a 3000 ms delay
    | GraceCheck    // the 500 ms check posted when `startScan()` returns false
    | NextScan      // the 500 ms delayed `performSingleScan()`

  /** What `WifiManager.startScan()` does when called. */
  datatype StartOutcome = Accepted | Rejected | Throws

  /** `handler.removeCallbacks(c)`: every pending post of `c` is dropped, the rest stay in order. */
  function RemoveCallbacks(queue: seq<Callback>, c: Callback): (rest: seq<Callback>)
    ensures c !in rest
    ensures forall d :: d != c ==> multiset(rest)[d] == multiset(queue)[d]
  {
    if queue == [] then []
    else
      assert queue == [queue[0]] + queue[1..];
      (if queue[0] == c then [] else [queue[0]]) + RemoveCallbacks(queue[1..], c)
  }

  class MainActivity {
    /** The last snapshot read from the platform. */
    var scanResults: seq<ScanResult>

    var location1Results: Readings
    var location2Results: Readings
    var location3Results: Readings

    var isLocation1Scanned: bool
    var isLocation2Scanned: bool
    var isLocation3Scanned: bool

    var selectedLocation: int

    var scanCount: int
    var scanProgress: int
    var isScanning: bool
    var waitingForScanResults: bool

    /** The last name seen for each BSSID, at any location. */
    var ssidMap: map<string, string>

    /** The callbacks posted to the main-thread handler and not yet run or removed. */
    var pending: seq<Callback>

    ghost predicate Valid()
      reads this
    {
      && 0 <= scanCount <= TotalScansRequired
      && 0 <= scanProgress <= 100
      && (isScanning ==> scanCount < TotalScansRequired && scanProgress == Progress(scanCount))
      && (!isScanning ==> !waitingForScanResults)
      && WellFormed(location1Results)
      && WellFormed(location2Results)
      && WellFormed(location3Results)
    }

    /** Location 1 selected, nothing scanned, nothing pending. */
    constructor ()
      ensures Valid()
      ensures selectedLocation == 1
      ensures scanCount == 0 && scanProgress == 0 && !isScanning && !waitingForScanResults
      ensures location1Results == NoReadings && location2Results == NoReadings && location3Results == NoReadings
      ensures !isLocation1Scanned && !isLocation2Scanned && !isLocation3Scanned
      ensures ssidMap == map[] && scanResults == [] && pending == []
    {
      scanResults := [];
      location1Results, location2Results, location3Results := NoReadings, NoReadings, NoReadings;
      isLocation1Scanned, isLocation2Scanned, isLocation3Scanned := false, false, false;
      selectedLocation := 1;
      scanCount, scanProgress := 0, 0;
      isScanning, waitingForScanResults := false, false;
      ssidMap := map[];
      pending := [];
    }

    /** `allLocationsScanned`: the comparison is offered once every location's display reports it complete. */
    function AllLocationsScanned(): (all: bool)
      reads this
      ensures all <==> forall loc :: 1 <= loc <= 3 ==>
        LocationComplete(loc, isLocation1Scanned, isLocation2Scanned, isLocation3Scanned)
    {
      assert LocationComplete(1, isLocation1Scanned, isLocation2Scanned, isLocation3Scanned) == isLocation1Scanned;
      assert LocationComplete(2, isLocation1Scanned, isLocation2Scanned, isLocation3Scanned) == isLocation2Scanned;
      assert LocationComplete(3, isLocation1Scanned, isLocation2Scanned, isLocation3Scanned) == isLocation3Scanned;
      isLocation1Scanned && isLocation2Scanned && isLocation3Scanned
    }

    /** The locations' readings and scanned flags are what they were in the pre-state. */
    twostate predicate DataUnchanged()
      reads this
    {
      && location1Results == old(location1Results)
      && location2Results == old(location2Results)
      && location3Results == old(location3Results)
      && isLocation1Scanned == old(isLocation1Scanned)
      && isLocation2Scanned == old(isLocation2Scanned)
      && isLocation3Scanned == old(isLocation3Scanned)
    }

    /**
     * One iteration was counted, starting from the handler queue `queue`:
     * either the loop goes on with the next scan posted, or it has reached
     * the total, stopped at 100% and marked the selected location (only that
     * one) as scanned.
     */
    twostate predicate AdvancedFrom(queue: seq<Callback>)
      reads this
    {
      && scanCount == old(scanCount) + 1
      && if scanCount < TotalScansRequired then
           && isScanning
           && scanProgress == Progress(scanCount)
           && pending == queue + [NextScan]
           && isLocation1Scanned == old(isLocation1Scanned)
           && isLocation2Scanned == old(isLocation2Scanned)
           && isLocation3Scanned == old(isLocation3Scanned)
         else
           && scanCount == TotalScansRequired
           && !isScanning
           && scanProgress == 100
           && pending == queue
           && isLocation1Scanned == (old(isLocation1Scanned) || selectedLocation == 1)
           && isLocation2Scanned == (old(isLocation2Scanned) || selectedLocation == 2)
           && isLocation3Scanned == (old(isLocation3Scanned) || selectedLocation == 3)
           && (LocationComplete(selectedLocation, isLocation1Scanned, isLocation2Scanned, isLocation3Scanned)
               <==> selectedLocation in {1, 2, 3})
    }

    /** The snapshot `results` was folded into the selected location and the SSID table. */
    twostate predicate Recorded(results: seq<ScanResult>)
      reads this
    {
      && scanResults == results
      && ssidMap == RecordSsids(old(ssidMap), results)
      && location1Results == (if selectedLocation == 1 then AddSnapshot(old(location1Results), results) else old(location1Results))
      && location2Results == (if selectedLocation == 2 then AddSnapshot(old(location2Results), results) else old(location2Results))
      && location3Results == (if selectedLocation == 3 then AddSnapshot(old(location3Results), results) else old(location3Results))
    }

    /** Folding a snapshot into the selected location, and nothing else, keeps the invariant. */
    twostate lemma RecordedKeepsValid(results: seq<ScanResult>)
      requires old(Valid())
      requires Recorded(results)
      requires scanCount == old(scanCount) && scanProgress == old(scanProgress)
      requires isScanning == old(isScanning) && waitingForScanResults == old(waitingForScanResults)
      ensures Valid()
    {
      AddSnapshotWellFormed(old(location1Results), results);
      AddSnapshotWellFormed(old(location2Results), results);
      AddSnapshotWellFormed(old(location3Results), results);
    }

    /** `onLocationSelected`: ignored while a scan is running. */
    method SelectLocation(location: int)
      requires Valid()
      modifies this`selectedLocation
      ensures Valid()
      ensures selectedLocation == if old(isScanning) then old(selectedLocation) else location
    {
      if !isScanning {
        selectedLocation := location;
      }
    }

    /**
     * The loop of `processScanResults`: record each result's name in the SSID
     * table and append its level to `readings`, first to last.
     */
    method FoldSnapshot(readings: Readings, results: seq<ScanResult>) returns (folded: Readings)
      modifies this`ssidMap
      ensures folded == AddSnapshot(readings, results)
      ensures ssidMap == RecordSsids(old(ssidMap), results)
    {
      folded := readings;
      var i := 0;
      while i < |results|
        invariant 0 <= i <= |results|
        invariant folded == AddSnapshot(readings, results[..i])
        invariant ssidMap == RecordSsids(old(ssidMap), results[..i])
      {
        var result := results[i];
        assert results[..i + 1] == results[..i] + [result];
        var name := DisplaySsid(result.ssid);
        ssidMap := ssidMap[result.bssid := name];
        folded := Append(folded, result.bssid, result.level);
        i := i + 1;
      }
      assert results[..i] == results;
    }

    /**
     * The body of `processScanResults` after it has read the snapshot: pick
     * the selected location's readings (a fresh empty map for any other
     * index), fold the snapshot in, and write the result back to that location.
     */
    method FoldIntoSelected(results: seq<ScanResult>)
      modifies this`ssidMap, this`location1Results, this`location2Results, this`location3Results
      ensures ssidMap == RecordSsids(old(ssidMap), results)
      ensures location1Results == if selectedLocation == 1 then AddSnapshot(old(location1Results), results) else old(location1Results)
      ensures location2Results == if selectedLocation == 2 then AddSnapshot(old(location2Results), results) else old(location2Results)
      ensures location3Results == if selectedLocation == 3 then AddSnapshot(old(location3Results), results) else old(location3Results)
    {
      var resultMap := ReadingsFor(selectedLocation, location1Results, location2Results, location3Results);
      resultMap := FoldSnapshot(resultMap, results);
      match selectedLocation {
        case 1 => location1Results := resultMap;
        case 2 => location2Results := resultMap;
        case 3 => location3Results := resultMap;
        case _ =>
      }
    }

    /** `processScanResults`: fold one snapshot into the selected location's readings. */
    method ProcessScanResults(results: seq<ScanResult>)
      requires Valid()
      modifies this`pending, this`scanResults, this`ssidMap
      modifies this`location1Results, this`location2Results, this`location3Results
      ensures Valid()
      ensures pending == RemoveCallbacks(old(pending), ScanTimeout)
      ensures Recorded(results)
    {
      pending := RemoveCallbacks(pending, ScanTimeout);
      scanResults := results;
      FoldIntoSelected(results);
      RecordedKeepsValid(results);
    }

    /** The step each of the three advancing paths takes once it has handled its iteration. */
    method AdvanceLoop()
      requires Valid() && isScanning && !waitingForScanResults
      modifies this`scanCount, this`scanProgress, this`pending, this`isScanning
      modifies this`isLocation1Scanned, this`isLocation2Scanned, this`isLocation3Scanned
      ensures Valid()
      ensures AdvancedFrom(old(pending))
      ensures scanProgress >= old(scanProgress)
    {
      scanCount := scanCount + 1;
      scanProgress := Progress(scanCount);
      if scanCount < TotalScansRequired {
        pending := pending + [NextScan];
      } else {
        match selectedLocation {
          case 1 => isLocation1Scanned := true;
          case 2 => isLocation2Scanned := true;
          case 3 => isLocation3Scanned := true;
          case _ =>
        }
        isScanning := false;
        scanProgress := 100;
      }
    }

    /**
     * `performSingleScan`: arm the timeout and request a scan. A rejected
     * request posts the grace check; a request that throws drops the
     * timeout and counts the iteration at once.
     */
    method PerformSingleScan(outcome: StartOutcome)
      requires Valid()
      modifies this`waitingForScanResults, this`scanCount, this`scanProgress, this`pending, this`isScanning
      modifies this`isLocation1Scanned, this`isLocation2Scanned, this`isLocation3Scanned
      ensures Valid()
      ensures !old(isScanning) ==> unchanged(this)
      ensures old(isScanning) && outcome == Accepted ==>
        && waitingForScanResults && isScanning && scanCount == old(scanCount) && scanProgress == old(scanProgress)
        && pending == old(pending) + [ScanTimeout] && DataUnchanged()
      ensures old(isScanning) && outcome == Rejected ==>
        && waitingForScanResults && isScanning && scanCount == old(scanCount) && scanProgress == old(scanProgress)
        && pending == old(pending) + [ScanTimeout, GraceCheck] && DataUnchanged()
      ensures old(isScanning) && outcome == Throws ==>
        && !waitingForScanResults
        && AdvancedFrom(RemoveCallbacks(old(pending) + [ScanTimeout], ScanTimeout))
      ensures scanProgress >= old(scanProgress)
    {
      if !isScanning {
        return;
      }
      waitingForScanResults := true;
      pending := pending + [ScanTimeout];
      match outcome {
        case Accepted =>
        case Rejected =>
          pending := pending + [GraceCheck];
        case Throws =>
          waitingForScanResults := false;
          pending := RemoveCallbacks(pending, ScanTimeout);
          AdvanceLoop();
      }
    }

    /** `startScanning`: reset the counters and issue the first scan, unless a scan is already running. */
    method StartScanning(outcome: StartOutcome)
      requires Valid()
      modifies this`waitingForScanResults, this`scanCount, this`scanProgress, this`pending, this`isScanning
      modifies this`isLocation1Scanned, this`isLocation2Scanned, this`isLocation3Scanned
      ensures Valid()
      ensures old(isScanning) ==> unchanged(this)
      ensures !old(isScanning) ==> isScanning && DataUnchanged()
      ensures !old(isScanning) && outcome == Accepted ==>
        && scanCount == 0 && scanProgress == 0 && waitingForScanResults
        && pending == old(pending) + [ScanTimeout]
      ensures !old(isScanning) && outcome == Rejected ==>
        && scanCount == 0 && scanProgress == 0 && waitingForScanResults
        && pending == old(pending) + [ScanTimeout, GraceCheck]
      ensures !old(isScanning) && outcome == Throws ==>
        && scanCount == 1 && scanProgress == Progress(1) && !waitingForScanResults
        && pending == RemoveCallbacks(old(pending) + [ScanTimeout], ScanTimeout) + [NextScan]
    {
      if isScanning {
        return;
      }
      scanCount := 0;
      scanProgress := 0;
      isScanning := true;
      waitingForScanResults := false;
      PerformSingleScan(outcome);
    }

    /** `cancelScanning`: stop the loop and drop every pending callback; collected readings stay. */
    method CancelScanning()
      requires Valid()
      modifies this`pending, this`isScanning, this`waitingForScanResults, this`scanProgress
      ensures Valid()
      ensures !old(isScanning) ==> unchanged(this)
      ensures old(isScanning) ==>
        && pending == [] && !isScanning && !waitingForScanResults && scanProgress == 0
        && scanCount == old(scanCount)
      ensures DataUnchanged() && ssidMap == old(ssidMap)
    {
      if isScanning {
        pending := [];
        isScanning := false;
        waitingForScanResults := false;
        scanProgress := 0;
      }
    }

    /**
     * `wifiScanReceiver.onReceive`: while the loop runs, every broadcast
     * counts an iteration, whether or not that iteration is still waiting.
     */
    method OnReceive(results: seq<ScanResult>)
      requires Valid()
      modifies this
      ensures Valid()
      ensures !old(isScanning) ==> unchanged(this)
      ensures old(isScanning) ==>
        && !waitingForScanResults
        && Recorded(results)
        && AdvancedFrom(RemoveCallbacks(old(pending), ScanTimeout))
      ensures selectedLocation == old(selectedLocation)
      ensures scanProgress >= old(scanProgress)
    {
      if !isScanning {
        return;
      }
      waitingForScanResults := false;
      ProcessScanResults(results);
      AdvanceLoop();
    }

    /**
     * `scanTimeoutRunnable`: counts the iteration only if it is still
     * waiting, and clears the wait first, so a second run does nothing.
     */
    method RunScanTimeout(results: seq<ScanResult>)
      requires Valid()
      modifies this
      ensures Valid()
      ensures !waitingForScanResults
      ensures !old(waitingForScanResults) ==> unchanged(this)
      ensures old(waitingForScanResults) ==>
        && Recorded(results)
        && AdvancedFrom(RemoveCallbacks(old(pending), ScanTimeout))
      ensures selectedLocation == old(selectedLocation)
      ensures scanProgress >= old(scanProgress)
    {
      if waitingForScanResults && isScanning {
        waitingForScanResults := false;
        ProcessScanResults(results);
        AdvanceLoop();
      }
    }

    /** The grace check posted after a rejected request: the timeout's work, if the iteration still waits. */
    method RunGraceCheck(results: seq<ScanResult>)
      requires Valid()
      modifies this
      ensures Valid()
      ensures !waitingForScanResults
      ensures !old(waitingForScanResults) ==> unchanged(this)
      ensures old(waitingForScanResults) ==>
        && Recorded(results)
        && AdvancedFrom(RemoveCallbacks(old(pending), ScanTimeout))
      ensures selectedLocation == old(selectedLocation)
      ensures scanProgress >= old(scanProgress)
    {
      if waitingForScanResults {
        RunScanTimeout(results);
      }
    }

    /**
     * The handler runs the pending callback at `index`; `results` is what
     * the platform reports if the callback reads the scan results, and
     * `outcome` what `startScan()` does if it requests a scan.
     */
    method Fire(index: nat, results: seq<ScanResult>, outcome: StartOutcome)
      requires Valid() && index < |pending|
      modifies this
      ensures Valid()
      ensures selectedLocation == old(selectedLocation)
      ensures scanCount <= old(scanCount) + 1
      ensures scanProgress >= old(scanProgress)
      ensures old(isLocation1Scanned) ==> isLocation1Scanned
      ensures old(isLocation2Scanned) ==> isLocation2Scanned
      ensures old(isLocation3Scanned) ==> isLocation3Scanned
      ensures !old(isScanning) || (old(pending[index]) != NextScan && !old(waitingForScanResults)) ==>
        && pending == old(pending[..index] + pending[index + 1..])
        && scanCount == old(scanCount) && scanProgress == old(scanProgress)
        && isScanning == old(isScanning) && waitingForScanResults == old(waitingForScanResults)
        && DataUnchanged() && ssidMap == old(ssidMap)
      ensures !(old(pending[index]) in {ScanTimeout, GraceCheck} && old(waitingForScanResults)) ==>
        scanResults == old(scanResults)
      ensures old(pending[index]) in {ScanTimeout, GraceCheck} && old(waitingForScanResults) ==>
        var rest := old(pending[..index] + pending[index + 1..]);
        && !waitingForScanResults
        && Recorded(results)
        && AdvancedFrom(RemoveCallbacks(rest, ScanTimeout))
      ensures old(pending[index]) == NextScan && old(isScanning) && outcome == Accepted ==>
        var rest := old(pending[..index] + pending[index + 1..]);
        && waitingForScanResults && isScanning && scanCount == old(scanCount) && scanProgress == old(scanProgress)
        && pending == rest + [ScanTimeout] && DataUnchanged() && ssidMap == old(ssidMap)
      ensures old(pending[index]) == NextScan && old(isScanning) && outcome == Rejected ==>
        var rest := old(pending[..index] + pending[index + 1..]);
        && waitingForScanResults && isScanning && scanCount == old(scanCount) && scanProgress == old(scanProgress)
        && pending == rest + [ScanTimeout, GraceCheck] && DataUnchanged() && ssidMap == old(ssidMap)
      ensures old(pending[index]) == NextScan && old(isScanning) && outcome == Throws ==>
        var rest := old(pending[..index] + pending[index + 1..]);
        && !waitingForScanResults
        && AdvancedFrom(RemoveCallbacks(rest + [ScanTimeout], ScanTimeout))
        && location1Results == old(location1Results) && location2Results == old(location2Results)
        && location3Results == old(location3Results) && ssidMap == old(ssidMap)
    {
      var callback := pending[index];
      pending := pending[..index] + pending[index + 1..];
      match callback {
        case ScanTimeout => RunScanTimeout(results);
        case GraceCheck => RunGraceCheck(results);
        case NextScan => PerformSingleScan(outcome);
      }
    }
  }

  // ---------------------------------------------------------------------------
  // Scenarios that follow from the contracts above
  // ---------------------------------------------------------------------------

  /** The timeout and the grace check of one iteration count it at most once between them. */
  method TimeoutAndGraceCountOnce(app: MainActivity, first: seq<ScanResult>, second: seq<ScanResult>)
    requires app.Valid()
    modifies app
    ensures app.Valid()
    ensures app.scanCount <= old(app.scanCount) + 1
  {
    app.RunScanTimeout(first);
    app.RunGraceCheck(second);
  }

  /**
   * The order real timing gives: the grace check (500 ms) before the
   * timeout (3000 ms). Between them they still count the iteration at most once.
   */
  method GraceThenTimeoutCountsOnce(app: MainActivity, first: seq<ScanResult>, second: seq<ScanResult>)
    requires app.Valid()
    modifies app
    ensures app.Valid()
    ensures app.scanCount <= old(app.scanCount) + 1
  {
    app.RunGraceCheck(first);
    app.RunScanTimeout(second);
  }

  /**
   * A rejected request leaves the timeout and the grace check pending. When
   * the handler runs the grace check first, it counts the iteration and
   * removes the timeout, so the timeout can no longer run at all.
   */
  method GraceCheckDisarmsTimeout(app: MainActivity, results: seq<ScanResult>, outcome: StartOutcome)
    requires app.Valid() && app.waitingForScanResults
    requires app.pending == [ScanTimeout, GraceCheck]
    modifies app
    ensures app.Valid()
    ensures app.scanCount == old(app.scanCount) + 1
    ensures ScanTimeout !in app.pending
  {
    app.Fire(1, results, outcome);
  }

  /** After a cancel, neither a broadcast, nor a timeout, nor a delayed scan changes anything. */
  method CancelStopsTheLoop(app: MainActivity, results: seq<ScanResult>, outcome: StartOutcome)
    requires app.Valid() && app.isScanning
    modifies app
    ensures app.Valid()
    ensures !app.isScanning && app.scanProgress == 0 && app.pending == []
    ensures app.scanCount == old(app.scanCount)
    ensures app.location1Results == old(app.location1Results)
    ensures app.location2Results == old(app.location2Results)
    ensures app.location3Results == old(app.location3Results)
    ensures app.isLocation1Scanned == old(app.isLocation1Scanned)
    ensures app.isLocation2Scanned == old(app.isLocation2Scanned)
    ensures app.isLocation3Scanned == old(app.isLocation3Scanned)
    ensures app.ssidMap == old(app.ssidMap) && app.scanResults == old(app.scanResults)
  {
    app.CancelScanning();
    app.OnReceive(results);
    app.RunScanTimeout(results);
    app.RunGraceCheck(results);
    app.PerformSingleScan(outcome);
  }

  /**
   * The receiver does not consult `waitingForScanResults`: a broadcast that
   * arrives after the timeout already counted the iteration counts it again.
   */
  method LateBroadcastCountsTwice(app: MainActivity, atTimeout: seq<ScanResult>, late: seq<ScanResult>)
    requires app.Valid() && app.isScanning && app.waitingForScanResults
    requires app.scanCount + 2 < TotalScansRequired
    modifies app
    ensures app.Valid()
    ensures app.scanCount == old(app.scanCount) + 2
  {
    app.RunScanTimeout(atTimeout);
    app.OnReceive(late);
  }

  /** Starting a loop, then receiving one broadcast per iteration, ends with the selected location scanned. */
  method ScanToCompletion(app: MainActivity, results: seq<ScanResult>)
    requires app.Valid() && !app.isScanning && app.selectedLocation in {1, 2, 3}
    modifies app
    ensures app.Valid()
    ensures !app.isScanning && app.scanCount == TotalScansRequired && app.scanProgress == 100
    ensures LocationComplete(app.selectedLocation, app.isLocation1Scanned, app.isLocation2Scanned, app.isLocation3Scanned)
  {
    app.StartScanning(Accepted);
    while app.isScanning
      invariant app.Valid()
      invariant app.selectedLocation == old(app.selectedLocation)
      invariant app.isScanning || (app.scanCount == TotalScansRequired && app.scanProgress == 100
        && LocationComplete(app.selectedLocation, app.isLocation1Scanned, app.isLocation2Scanned, app.isLocation3Scanned))
      decreases TotalScansRequired - app.scanCount
    {
      app.OnReceive(results);
    }
  }
}
