# WiFi scanner: a Dafny model of the scan loop, the aggregation and the comparison

The app takes 100 WiFi scans at each of three locations. For every access point it records the
signal levels seen at each location, summarises them, and finally lists the access points seen at
all three locations side by side. This project models the logic behind that:

- `ScanActivity` (scan_activity.dfy) models the scan loop of `MainActivity` as a class.
  - The fields are the activity's own state: counter, progress, scanning and waiting flags, selected
    location, the three scanned flags, the three location maps and the SSID table.
  - The handler's queue of posted callbacks is a `pending` sequence. The callbacks are the 3000 ms
    timeout, the 500 ms grace check after a rejected scan request, and the 500 ms delayed next scan.
  - Every entry point is a method: location selection, start, cancel, the scan-completed broadcast,
    the timeout runnable, the grace check, and `Fire`, which runs one pending callback.
  - `Valid()` is the invariant every method keeps: the counter stays within 0..100, the progress
    within 0..100, and no location map ever holds an empty list.
- `Aggregation` (aggregation.dfy) holds the value-level logic.
  - `processScanResults` folds one snapshot into a location's readings and the SSID table.
  - `processResultsForDisplay` reduces each access point's readings to min, max, spread and count.
- `ScannerUi` (scanner_ui.dfy) holds the computations inside the display layer.
  - The three-way comparison finds the BSSIDs common to all three locations. For each one it builds
    a row from the first matching summary in each list, with range text such as `-60 to -50 dBm (Δ10)`.
  - The selected-location dispatch picks one list and one scanned flag, with an empty list and
    `false` for an index outside 1..3.
- `Decimal` (decimal.dfy) is the decimal rendering of an `Int` used in that range text, together
  with the parse that inverts it. The parse is used only to state what the text carries.
- `Sequences` and `Wrappers` hold shared helpers: distinct sequences, their cardinality, and `Option`.

The platform is passed in as parameters. A scan snapshot is a sequence of (BSSID, SSID, level)
triples. What `startScan()` does is a `StartOutcome`: accepted, rejected, or throws. Time is not
modelled, so any pending callback may run next. The model therefore allows every interleaving the
real handler allows, and more.

## Model

| member | source | states |
|---|---|---|
| Aggregation.Append | app/src/main/java/com/example/wifiscanner/MainActivity.kt:280 | `getOrPut(bssid){mutableListOf()}.add(rss)`: the BSSID's list gets the level at its end, creating it if absent, and is added to the order only when new. No other BSSID's list changes. The readings stay well formed. |
| Aggregation.AddSnapshotLevels | app/src/main/java/com/example/wifiscanner/MainActivity.kt:274-281 | After folding a snapshot, each BSSID's list is its old list followed by the levels the snapshot reports for it, in snapshot order. |
| Aggregation.AddSnapshotKeys | app/src/main/java/com/example/wifiscanner/MainActivity.kt:274-281 | After folding, the BSSIDs with readings are the old ones plus those in the snapshot. |
| Aggregation.AddSnapshotWellFormed | app/src/main/java/com/example/wifiscanner/MainActivity.kt:274-281 | Folding keeps every list non-empty and each key once in the order. Existing keys keep their place. |
| Aggregation.AddSnapshotOrder | app/src/main/java/com/example/wifiscanner/MainActivity.kt:274-281 | The insertion order after a fold is the old order followed by each BSSID the map lacked, once, at its first occurrence in the snapshot. |
| Aggregation.DisplaySsid | app/src/main/java/com/example/wifiscanner/MainActivity.kt:278 | `SSID.ifEmpty { "<Hidden Network>" }` is the SSID itself when that is non-empty and `"<Hidden Network>"` when it is empty. |
| Aggregation.RecordSsidsLastWins | app/src/main/java/com/example/wifiscanner/MainActivity.kt:274-278 | After the loop, `ssidMap[bssid]` holds the display name of the last result carrying that BSSID. |
| Aggregation.RecordSsidsOthers | app/src/main/java/com/example/wifiscanner/MainActivity.kt:274-278 | A BSSID absent from the snapshot keeps its entry in `ssidMap`, or stays absent. |
| Aggregation.ReadingsFor | app/src/main/java/com/example/wifiscanner/MainActivity.kt:267-272 | The selected location's map for 1, 2 and 3, and a fresh empty map for any other index. The result is well formed when the three maps are. |
| Aggregation.MinOrZero | app/src/main/java/com/example/wifiscanner/MainActivity.kt:159 | `minOrNull() ?: 0`: 0 for an empty list, otherwise an element no greater than any element. |
| Aggregation.MaxOrZero | app/src/main/java/com/example/wifiscanner/MainActivity.kt:160 | `maxOrNull() ?: 0`: 0 for an empty list, otherwise an element no less than any element. |
| Aggregation.Summary | app/src/main/java/com/example/wifiscanner/MainActivity.kt:157-169 | One `WifiData` for one key. Its BSSID is the key and its SSID is the recorded name or `"<Unknown>"`. Min ≤ max, both in the list and bounding it, and the spread is max − min. The count is the list length. An empty list gives 0 and 0. |
| Aggregation.Summarize | app/src/main/java/com/example/wifiscanner/MainActivity.kt:156-171 | `processResultsForDisplay`: exactly one summary per map key, in the map's insertion order, with the BSSIDs pairwise distinct. Each summary is the Summary of its key's list. For well-formed readings every count is at least 1. |
| Decimal.ParseIntToString | app/src/main/java/com/example/wifiscanner/WifiScannerUI.kt:306-308 | The decimal text an `Int` template renders reads back as the same integer. |
| Decimal.ParseIntExact | app/src/main/java/com/example/wifiscanner/WifiScannerUI.kt:306-308 | The parse accepts only the exact text an `Int` template renders for the number it returns: no leading zero, no `-0`. |
| ScannerUi.Bssids | app/src/main/java/com/example/wifiscanner/WifiScannerUI.kt:292-294 | `map { it.bssid }`: same length, position by position. A BSSID is in it iff some summary carries it. |
| ScannerUi.Dedup | app/src/main/java/com/example/wifiscanner/WifiScannerUI.kt:292-294 | `toSet()`: no repeats and the same elements. |
| ScannerUi.DedupFollowsOrder | app/src/main/java/com/example/wifiscanner/WifiScannerUI.kt:292-294 | `toSet()` keeps each element at its first occurrence, in the list's order. |
| ScannerUi.Retain | app/src/main/java/com/example/wifiscanner/WifiScannerUI.kt:296 | `intersect`: exactly the elements in both, without repeats when the first has none. |
| ScannerUi.RetainFollowsOrder | app/src/main/java/com/example/wifiscanner/WifiScannerUI.kt:296 | `intersect` keeps the order of its receiver. |
| ScannerUi.Common | app/src/main/java/com/example/wifiscanner/WifiScannerUI.kt:292-296 | `commonBssids` has no repeats and contains a BSSID iff all three lists carry it. |
| ScannerUi.RangeTextRoundTrip | app/src/main/java/com/example/wifiscanner/WifiScannerUI.kt:306-308 | The text `"<min> to <max> dBm (Δ<range>)"` reads back as exactly the summary's min, max and range. |
| ScannerUi.ParseRangeTextExact | app/src/main/java/com/example/wifiscanner/WifiScannerUI.kt:306-308 | The only text that reads back as a summary's min, max and range is that summary's range text, so the range contracts of Row and Compare fix the text exactly. |
| ScannerUi.FirstIndex | app/src/main/java/com/example/wifiscanner/WifiScannerUI.kt:299-301 | `first { it.bssid == bssid }`: the entry there carries the BSSID and no earlier entry does. |
| ScannerUi.Row | app/src/main/java/com/example/wifiscanner/WifiScannerUI.kt:299-309 | The row carries the BSSID. Its SSID is the first location-1 entry's. Each location's range text reads back as that location's first entry's min, max and range. |
| ScannerUi.Compare | app/src/main/java/com/example/wifiscanner/WifiScannerUI.kt:292-310 | One row per BSSID common to all three lists and no other. Each row's BSSID is in all three lists, and row BSSIDs are distinct. Each row is built from the first entry with that BSSID in each list, with the SSID from location 1. |
| ScannerUi.CompareFollowsLocation1 | app/src/main/java/com/example/wifiscanner/WifiScannerUI.kt:292-298 | Rows appear in the order their BSSIDs first occur in the location-1 list. |
| ScannerUi.CompareCount | app/src/main/java/com/example/wifiscanner/WifiScannerUI.kt:296-298 | The number of rows equals the size of the three-way intersection of the BSSID sets. |
| ScannerUi.CompareEmpty | app/src/main/java/com/example/wifiscanner/WifiScannerUI.kt:296-298 | Without a BSSID common to all three lists there are no rows. |
| ScannerUi.LocationComplete | app/src/main/java/com/example/wifiscanner/WifiScannerUI.kt:195-200 | `locationComplete` is the flag of location 1, 2 or 3, and false for any other index. |
| ScannerUi.ResultsToShowAgrees | app/src/main/java/com/example/wifiscanner/WifiScannerUI.kt:218-223 | `resultsToShow` is the summary of the selected location's readings, and empty for any other index. This is the same dispatch that `processScanResults` uses to pick the map. |
| ScannerUi.RangeTextExample | app/src/main/java/com/example/wifiscanner/WifiScannerUI.kt:306 | Min −60, max −50 and spread 10 render as `-60 to -50 dBm (Δ10)`. |
| ScannerUi.SummarizeExample | app/src/main/java/com/example/wifiscanner/MainActivity.kt:156-171 | Readings [−50, −60, −55], [−70, −65] and [−80] summarise to (−60, −50, 10, 3), (−70, −65, 5, 2) and (−80, −80, 0, 1). |
| ScannerUi.CompareSingletons | app/src/main/java/com/example/wifiscanner/WifiScannerUI.kt:292-310 | One summary per location, all for the same access point, give exactly one row: its SSID from location 1 and each location's range text. |
| ScannerUi.CompareExample | app/src/main/java/com/example/wifiscanner/WifiScannerUI.kt:292-310 | The three office summaries give exactly one row, built from the three summaries. |
| ScanActivity.Progress | app/src/main/java/com/example/wifiscanner/MainActivity.kt:61 | `(scanCount * 100) / totalScansRequired` stays within 0..100 for counts within 0..100. It is 0 at 0 and 100 at the total. |
| ScanActivity.ProgressMonotone | app/src/main/java/com/example/wifiscanner/MainActivity.kt:61 | A higher count never shows less progress. |
| ScanActivity.RemoveCallbacks | app/src/main/java/com/example/wifiscanner/MainActivity.kt:242 | `removeCallbacks(scanTimeoutRunnable)` leaves no timeout pending and keeps every other callback. |
| ScanActivity.MainActivity.constructor | app/src/main/java/com/example/wifiscanner/MainActivity.kt:28-49 | Initial state: location 1 selected, nothing scanned, counter and progress 0, not scanning, empty maps and SSID table. |
| ScanActivity.MainActivity.AllLocationsScanned | app/src/main/java/com/example/wifiscanner/MainActivity.kt:147 | `allLocationsScanned` holds iff each location 1..3 is complete by the display's own dispatch, that is iff all three flags are set. |
| ScanActivity.MainActivity.SelectLocation | app/src/main/java/com/example/wifiscanner/MainActivity.kt:135-137 | Selection changes the location only when no scan is running. |
| ScanActivity.MainActivity.FoldSnapshot | app/src/main/java/com/example/wifiscanner/MainActivity.kt:274-281 | The loop leaves the readings equal to the snapshot folded in order, and the SSID table updated by every result in order. |
| ScanActivity.MainActivity.FoldIntoSelected | app/src/main/java/com/example/wifiscanner/MainActivity.kt:267-287 | The selected location's map, and only it, becomes the old map with the snapshot folded in. An index outside 1..3 folds into a fresh map that is dropped. The SSID table is updated by every result. |
| ScanActivity.MainActivity.RecordedKeepsValid | app/src/main/java/com/example/wifiscanner/MainActivity.kt:261-288 | Folding a snapshot into the selected location, with the loop's counters untouched, keeps the invariant: every list stays non-empty. |
| ScanActivity.MainActivity.ProcessScanResults | app/src/main/java/com/example/wifiscanner/MainActivity.kt:261-288 | The timeout is cancelled and the snapshot is stored. Only the selected location's map gets the snapshot folded in; the other two are unchanged, and so are all three for an index outside 1..3. Every list stays non-empty. |
| ScanActivity.MainActivity.AdvanceLoop | app/src/main/java/com/example/wifiscanner/MainActivity.kt:60-76 | One iteration is counted and progress is recomputed. Below 100 the next scan is posted. At 100 the loop stops at progress 100 and only the selected location is marked scanned. |
| ScanActivity.MainActivity.PerformSingleScan | app/src/main/java/com/example/wifiscanner/MainActivity.kt:223-259 | Does nothing when not scanning. Otherwise it waits with the timeout posted, plus the grace check if the request is rejected. If the request throws, the timeout is dropped and the iteration is counted at once. |
| ScanActivity.MainActivity.StartScanning | app/src/main/java/com/example/wifiscanner/MainActivity.kt:200-211 | Does nothing while scanning. Otherwise the counter and progress restart at 0 and the first scan is issued, per the outcome of the request. |
| ScanActivity.MainActivity.CancelScanning | app/src/main/java/com/example/wifiscanner/MainActivity.kt:213-221 | While scanning: every pending callback is dropped, scanning and waiting stop, progress is 0, and the counter is kept. Otherwise nothing changes. Maps, scanned flags and the SSID table never change. |
| ScanActivity.MainActivity.OnReceive | app/src/main/java/com/example/wifiscanner/MainActivity.kt:51-78 | Does nothing unless scanning. Otherwise it clears the wait, processes the snapshot and counts the iteration, whether or not the iteration was still waiting. |
| ScanActivity.MainActivity.RunScanTimeout | app/src/main/java/com/example/wifiscanner/MainActivity.kt:80-102 | Counts the iteration only if it is still waiting, and leaves it not waiting, so a second run changes nothing. |
| ScanActivity.MainActivity.RunGraceCheck | app/src/main/java/com/example/wifiscanner/MainActivity.kt:234-238 | Runs the timeout's work only while the iteration waits, with the same effect. |
| ScanActivity.MainActivity.Fire | app/src/main/java/com/example/wifiscanner/MainActivity.kt:229-248 | Running any pending callback keeps the invariant, counts at most one iteration, never lowers progress and never clears a scanned flag. When it is not scanning, or the callback is a guard that finds nothing waiting, it only removes the callback. Except for a timeout or grace check that finds the iteration waiting, the stored snapshot is left as it was. A timeout or grace check that finds the iteration waiting records the snapshot and counts the iteration from the remaining queue. A delayed scan while scanning has the effect of each request outcome on the remaining queue. |
| ScanActivity.TimeoutAndGraceCountOnce | app/src/main/java/com/example/wifiscanner/MainActivity.kt:80-83 | The timeout and the grace check of one iteration, run one after the other, count it at most once. |
| ScanActivity.GraceThenTimeoutCountsOnce | app/src/main/java/com/example/wifiscanner/MainActivity.kt:229-238 | In the order real timing gives, grace check first and timeout second, the iteration is still counted at most once. |
| ScanActivity.GraceCheckDisarmsTimeout | app/src/main/java/com/example/wifiscanner/MainActivity.kt:229-238 | With the timeout and the grace check pending for a waiting iteration, running the grace check counts the iteration once and leaves no timeout pending. |
| ScanActivity.CancelStopsTheLoop | app/src/main/java/com/example/wifiscanner/MainActivity.kt:213-224 | After a cancel, a broadcast, a timeout, a grace check and a delayed scan change nothing: no count, no location data, no scanned flag, no SSID table and no stored snapshot. |
| ScanActivity.LateBroadcastCountsTwice | app/src/main/java/com/example/wifiscanner/MainActivity.kt:53-60 | A broadcast that arrives after the timeout already counted the iteration counts it again, because the receiver checks only `isScanning`. |
| ScanActivity.ScanToCompletion | app/src/main/java/com/example/wifiscanner/MainActivity.kt:200-208 | A loop started at location 1, 2 or 3 and fed one broadcast per iteration ends stopped, at count 100 and progress 100, with that location complete. |

## Left out

- Android I/O is outside the model: permission requests, receiver registration, `onDestroy`, the Toasts and the Compose layout.
- What the platform returns is a parameter. This covers the snapshot from `wifiManager.scanResults` and whether `startScan()` succeeds, fails or throws.
- Handler delays (500 ms, 3000 ms) are not modelled. `Fire` may run any pending callback, so the model admits orderings the real timing excludes.
- The `EXTRA_RESULTS_UPDATED` extra read in `onReceive` is never used by the code, so it is not modelled.
- Ints are unbounded in the model. `Int` overflow of the levels, of `max - min` and of `scanCount * 100` is not modelled, because levels are small dBm values and the counter stops at 100.
- `toMutableMap()` copies the map but shares its lists, so `add` changes the old state's lists in place. The model works on values, and since the fold's result is written back to the same location, the final state is the same. The in-place sharing itself is not captured.
- An exception thrown by `postDelayed` itself, rather than by `startScan()`, is not distinguished. The model's `Throws` outcome happens after the timeout is posted, which is the effect either way.
- The progress bar's conversion of `scanProgress` to a fraction and the rest of the UI's text are layout and are not modelled.
- Kotlin's `LinkedHashMap` and `LinkedHashSet` are modelled by an explicit order sequence next to a map (`Readings`), and by duplicate-free sequences (`Dedup`, `Retain`).
- The receiver is modelled as written: a stray or late broadcast advances the counter (see `LateBroadcastCountsTwice`). No corrected variant is modelled.
- The range text is modelled as the code builds it, with `" dBm"` after the maximum.
