# EcoSort bin and system state, in Dafny

This project models the state logic of the EcoSort waste-segregation dashboard (`App.tsx`).
The app runs an AI analysis on a camera frame and gets back a batch of detected objects.
Each object names one of seven IoT bins. The app then updates two pieces of state:

- **Bin updater.** Walks the batch in order. It adds one item to the record of the bin each
  object names, and sets that bin's fill level from the new count: above 10 is `High` and
  raises the alert latch, above 5 is `Medium`. An object naming no bin is skipped.
- **System updater.** Adds the batch length to `processedCount` and copies the reported
  operating state without checking it.

The busy flag lets at most one analysis be in flight. A failed analysis is swallowed.
RESET SYSTEM puts back the initial bins and counters.

The bin records are modelled as heap objects (`Types.BinStatus`), because that is how the
code treats them. The copy `{ ...prev }` in the bin updater is shallow: the loop writes
`count`, `fillLevel` and `alertRequired` into the records that `INITIAL_BINS` also holds.

- `types.dfy` (module `Types`) holds the data of `types.ts`:
  - the seven bins;
  - `BinTable<T>`, a record with one entry per bin, standing for `Record<IoTBin, T>`;
  - detections, analysis responses and the system counters;
  - the class `BinStatus` and its value view `BinView`.
- `bin_rules.dfy` (module `BinRules`) states the updaters on values:
  - `Step` is one detection on one bin;
  - `ApplyBatch` is one batch on the table of bin contents;
  - `NextSystemState` is the system updater;
  - `Run` folds a sequence of analyses.

  It proves the counting, skipping, threshold, latch and accounting properties of these.
- `app.dfy` (module `AppComponent`) models the component itself:
  - the bin map points to shared `BinStatus` objects;
  - the `forEach` loop is a `while` loop proved to leave the records holding exactly
    `ApplyBatch` of their old contents;
  - `captureAndAnalyze` is split at its `await` into `CaptureStart` and `CaptureFinish`;
  - the reset handler is modelled as written.

The analysis service becomes a parameter `Outcome<AnalysisResponse>`, which is either a
response or a failure. The camera checks become boolean and integer parameters.

The RESET SYSTEM handler evidently means to start the bins again from empty. In the same click
it sets `processedCount` back to 0 and clears the last analysis and image (App.tsx:150-153), and
the `INITIAL_BINS` it puts back is written with every count at 0 (App.tsx:8-16). It does not get
empty bins, because the records of `INITIAL_BINS` are the ones the updates have been writing.
The model follows the code. See "## Findings".

## Model

| member | source | states |
|---|---|---|
| BinRules.ParseBin | App.tsx:89 | The bin lookup finds a bin only for a string that is that bin's own name; anything else finds nothing |
| BinRules.ParseBinKey | types.ts:11-18 | Each of the seven bin names finds its own bin |
| BinRules.Step | App.tsx:90-97 | A detection adds exactly one to the count and leaves the sensor alone. A new count above 10 gives High with the alert raised. A new count of 6..10 gives Medium. At 5 or below the level is kept. At 10 or below the alert is left as it was, and a raised alert stays raised. A consistent bin stays consistent and does not go down |
| Types.BinStatus.constructor | App.tsx:9-15 | One record of the INITIAL_BINS literal: level Low, sensor Active, no alert, count 0 |
| BinRules.ApplyObject | App.tsx:89 | A detection whose target names no bin leaves every bin unchanged |
| BinRules.ApplyBatch | App.tsx:88-99 | The `forEach` over a batch: the bins' total never goes down and grows by at most the batch length |
| BinRules.ApplyBatchSnoc | App.tsx:88 | Objects are taken in list order: one more object at the end of a batch is one more detection applied last |
| BinRules.BatchAppend | App.tsx:88-99 | Applying two batches one after the other equals applying their concatenation |
| BinRules.BatchCounts | App.tsx:88-91 | Each bin's count grows by exactly the number of objects in the batch that name it |
| BinRules.BatchUntouched | App.tsx:89-97 | A bin that no object names keeps its whole record: count, level, alert and sensor |
| BinRules.BatchSkipsUnknown | App.tsx:89 | Objects naming no bin have no effect: the batch acts exactly as the batch of its known-bin objects |
| BinRules.BatchConsistent | App.tsx:92-97 | From bins whose level and alert follow their counts, every bin still has that property after the batch, even when one batch crosses several thresholds |
| BinRules.BatchMonotone | App.tsx:90-97 | A batch never lowers a count or a fill level, never clears an alert and never changes a sensor status |
| BinRules.BatchFromInitial | App.tsx:8-16 | From INITIAL_BINS, a bin named c times holds count c, level Low up to 5, Medium for 6..10, High above 10, with the alert raised exactly above 10 |
| BinRules.BatchTotal | App.tsx:88-91 | The bins' total grows by exactly the number of known-bin objects, so by at most the batch length |
| BinRules.NextSystemState | App.tsx:104-107 | processedCount grows by the batch length, unmatched objects included, and the operating state is the reported one |
| BinRules.Fold | App.tsx:83-107 | Both updaters for one response: processedCount grows by the batch length, the operating state is the reported one, and if the bins held no more items than processedCount before, they hold no more after |
| BinRules.OperatingStateUnchecked | App.tsx:106 | Every reported operating state outside Normal, Warning and Overload is taken over unchecked |
| BinRules.RunIsOneBatch | App.tsx:81-107 | A run of analyses leaves the bins as one batch of all their objects would. It adds the number of all objects to processedCount, and the operating state is the one the last analysis reported |
| BinRules.RunMonotone | App.tsx:86-107 | Over any run from consistent bins, the bins stay consistent, counts, levels and alerts never go down, and processedCount never goes down |
| BinRules.RunAccounted | App.tsx:86-107 | If the bins hold no more items than processedCount, then after any run of analyses they still hold no more |
| BinRules.ThresholdBoundaries | App.tsx:92-97 | From INITIAL_BINS as first mounted, or after `ResetFreshBins`, 11 Plastic Bin objects give High with the alert raised. 10 or 6 give Medium, 5 give Low |
| BinRules.SixPlasticOneUnknown | App.tsx:86-107 | From INITIAL_BINS and zeroed counters as first mounted, or after `ResetFreshBins`, a batch of 6 Plastic Bin objects and one object with an unknown bin leaves the Plastic Bin at count 6, Medium, no alert, with processedCount 7 |
| AppComponent.NewInitialBins | App.tsx:8-16 | Allocates seven new, separate records, all at Low, Active, no alert, count 0 |
| AppComponent.RecordDetection | App.tsx:88-98 | The loop body changes the records' contents exactly as ApplyObject says: the named bin takes one Step, and an unknown target changes nothing |
| AppComponent.ApplyDetections | App.tsx:86-101 | The updater returns a map pointing to the same records as `prev`. It leaves their contents as ApplyBatch of their old contents |
| AppComponent.App.constructor | App.tsx:19-25 | The initial state: the bin map is INITIAL_BINS itself, with all bins zeroed, processedCount 0, operating state Normal, not busy, nothing captured, no analysis and no error |
| AppComponent.App.CaptureStart | App.tsx:56-79 | An analysis starts exactly when the elements exist, no analysis is in flight, the video has width and a canvas context exists. A call while busy changes nothing. A video that is not ready leaves the busy flag cleared. No path touches the bins or the counters |
| AppComponent.App.CaptureFinish | App.tsx:81-114 | A response applies both updaters and records the analysis. A failure leaves bins, counters and last analysis unchanged. Either way the busy flag is cleared, the bins stay consistent, and the accounting bound is kept |
| AppComponent.App.Reset | App.tsx:149-154 | The handler as written: the counters are back at 0 and Normal, and the analysis and image are cleared. The bins are INITIAL_BINS again, and their contents are whatever INITIAL_BINS's records hold, not zeros |
| AppComponent.App.ResetFreshBins | App.tsx:149-154 | The intended reset: seven fresh zeroed records, with the counters, the analysis and the image cleared, and the accounting bound restored |
| AppComponent.ResetKeepsCounts | App.tsx:149-154 | After one Plastic Bin detection and a reset as written, the Plastic Bin still holds 1 item while processedCount is 0 |
| AppComponent.ResetFreshBinsClears | App.tsx:149-154 | After the same run with the intended reset, the Plastic Bin holds 0 items and processedCount is 0 |

## Left out

- Camera acquisition, track cleanup and frame capture through a canvas (App.tsx:31-54, 72-79) are browser I/O. They are replaced by the parameters of `CaptureStart`: elements present, video width, context present, and the captured frame.
- The analysis service (services/geminiService.ts) is an external AI client plus `JSON.parse`. Its result is the `Outcome` parameter of `CaptureFinish`.
  - A response that parses but lacks `detectedObjects` or `systemStatus` is not modelled; the model's responses always carry both. Without `detectedObjects` the bin updater throws. Without `systemStatus` the system updater throws at App.tsx:106, after the bin updater has already written the shared records. Empty response text gives such a response, because the service parses it as `{}` (services/geminiService.ts:83).
- The polling timer (App.tsx:118-128) is scheduling. Only the busy-flag guard it shares with `captureAndAnalyze` is modelled.
- The model runs the two updaters at once, after the `await`. Their deferral by React to the next render is not modelled, and neither is the stale `isProcessing` captured by the callback's closure.
- AppComponent.App.constructor: `INITIAL_BINS` is a module-level constant (App.tsx:8) that outlives one mount of the component, but the model allocates its records with each App. So the zeroed, fresh bins the constructor promises hold only for the first mount. A later mount would start from the records that earlier updates wrote.
- Under React's StrictMode in development, React calls state updater functions twice. Because the bin updater mutates shared records, it would then count each object twice. index.tsx, which would show whether StrictMode is on, is not part of this model, so this is not modelled.
- Counts and processedCount are unbounded integers. JavaScript numbers lose precision above 2^53, which these counters do not reach in practice.
- The lookup `updated[obj.targetBin]` also finds properties inherited from `Object.prototype` (for example `"constructor"`). For such a target the code writes a `count` property on a built-in object, and no bin changes. The model treats these targets like any other unknown name.
- `name`, `color`, `wasteType`, `confidence` and `box2d` of a detection are carried in the datatype, but the update does not read them.
- The conveyor renderer (components/ConveyorVisualizer.tsx), the dashboard (components/IoTDashboard.tsx) and all JSX and styling in App.tsx are presentation.
- BinRules.ApplyObject: its contract states only the unknown-target case. The per-bin effect of detections is stated by BatchCounts, BatchUntouched and Step.

## Findings

| source | as written | input that shows it | evidently intended | confidence | as-written member | corrected member |
|---|---|---|---|---|---|---|
| App.tsx:150 | RESET SYSTEM calls `setBinStatuses(INITIAL_BINS)`. The bin updater's shallow copy (App.tsx:87-90) has been writing counts, levels and alerts into those same records, so the reset brings the used bins back | One analysis with one Plastic Bin object, then RESET SYSTEM. The Plastic Bin shows count 1 while processedCount is 0 | Reset shows seven empty bins at Low with no alert, so no bin holds more items than were processed | not executed | AppComponent.ResetKeepsCounts | AppComponent.ResetFreshBinsClears |
