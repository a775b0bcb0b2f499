/** The state of the App component (App.tsx): the bin map, whose entries are shared,
    mutable BinStatus records; the system counters; the busy flag; the last analysis and
    captured frame. captureAndAnalyze is split at its `await` into CaptureStart and
    CaptureFinish, so that a capture that arrives while one is in flight can be modelled. */
module AppComponent {
  import opened Types
  import opened BinRules

  /** The records a bin map points to. */
  function Records(t: BinTable<BinStatus>): set<BinStatus>
  {
    {t.plastic, t.organic, t.cloth, t.metal, t.paper, t.glass, t.general}
  }

  /** The contents of the records a bin map points to. */
  function Snapshot(t: BinTable<BinStatus>): BinTable<BinView>
    reads Records(t)
  {
    BinTable(t.plastic.View(), t.organic.View(), t.cloth.View(), t.metal.View(),
      t.paper.View(), t.glass.View(), t.general.View())
  }

  /** Different bins point to different records. */
  predicate Distinct(t: BinTable<BinStatus>)
  {
    forall b, c :: b != c ==> t.Get(b) != t.Get(c)
  }

  /** Allocates the seven records of the INITIAL_BINS literal (App.tsx:8-16). */
  method NewInitialBins() returns (t: BinTable<BinStatus>)
    ensures fresh(Records(t)) && Distinct(t)
    ensures Snapshot(t) == InitialView
  {
    var plastic := new BinStatus();
    var organic := new BinStatus();
    var cloth := new BinStatus();
    var metal := new BinStatus();
    var paper := new BinStatus();
    var glass := new BinStatus();
    var general := new BinStatus();
    t := BinTable(plastic, organic, cloth, metal, paper, glass, general);
  }

  /** If every record but the one of `k` still has the contents recorded in `before`,
      the map's contents differ from `before` at `k` only. */
  lemma SnapshotAfterWrite(t: BinTable<BinStatus>, k: IoTBin, before: BinTable<BinView>)
    requires forall c :: c != k ==> t.Get(c).View() == before.Get(c)
    ensures Snapshot(t) == before.Set(k, t.Get(k).View())
  {
    TableExtensional(Snapshot(t), before.Set(k, t.Get(k).View()));
  }

  /** The `forEach` callback of the updater (App.tsx:88-98): the record of the bin the
      target names gets one more item and its level is reclassified from the new count;
      a target naming no bin is skipped without error. */
  method RecordDetection(bins: BinTable<BinStatus>, obj: DetectedObject)
    requires Distinct(bins)
    modifies Records(bins)
    ensures Snapshot(bins) == ApplyObject(old(Snapshot(bins)), obj.targetBin)
  {
    ghost var before := Snapshot(bins);
    match ParseBin(obj.targetBin)
    case None =>
    case Some(k) =>
      var b := bins.Get(k);
      b.count := b.count + 1;
      var newCount := b.count;
      if newCount > 10 {
        b.fillLevel := High;
        b.alertRequired := true;
      } else if newCount > 5 {
        b.fillLevel := Medium;
      }
      assert b.View() == Step(before.Get(k));
      SnapshotAfterWrite(bins, k, before);
  }

  /** The `setBinStatuses` updater (App.tsx:86-101). The copy `{ ...prev }` is shallow: it
      holds the very records of `prev`, and the loop writes their fields in place. The
      returned map therefore points to the records of `prev`, and what changes is their
      contents, exactly as ApplyBatch says. */
  method ApplyDetections(prev: BinTable<BinStatus>, objs: seq<DetectedObject>)
    returns (updated: BinTable<BinStatus>)
    requires Distinct(prev)
    modifies Records(prev)
    ensures updated == prev
    ensures Snapshot(updated) == ApplyBatch(old(Snapshot(prev)), objs)
  {
    updated := prev;
    var i := 0;
    while i < |objs|
      invariant 0 <= i <= |objs|
      invariant Snapshot(updated) == ApplyBatch(old(Snapshot(prev)), objs[..i])
    {
      assert objs[..i + 1] == objs[..i] + [objs[i]];
      ApplyBatchSnoc(old(Snapshot(prev)), objs[..i], objs[i]);
      RecordDetection(updated, objs[i]);
      i := i + 1;
    }
    assert objs[..i] == objs;
  }

  class App {
    /** The INITIAL_BINS constant: one map of seven records, created once. */
    const initialBins: BinTable<BinStatus>
    var binStatuses: BinTable<BinStatus>
    var systemState: SystemState
    var isProcessing: bool
    var lastAnalysis: Option<AnalysisResponse>
    var capturedImage: Option<string>
    var error: Option<string>

    /** Both maps point to seven separate records whose levels and alerts follow their
        counts, and either they are the same map or they share no record. */
    ghost predicate Valid()
      reads this, Records(binStatuses), Records(initialBins)
    {
      Distinct(binStatuses) && Distinct(initialBins)
      && AllConsistent(Snapshot(binStatuses)) && AllConsistent(Snapshot(initialBins))
      && (binStatuses == initialBins || Records(binStatuses) !! Records(initialBins))
    }

    /** The seven bins together hold no more items than processedCount reports. */
    ghost predicate Accounted()
      reads this, Records(binStatuses)
    {
      Total(Snapshot(binStatuses)) <= systemState.processedCount
    }

    /** The component's initial state (App.tsx:19-25): the bin map is INITIAL_BINS itself. */
    constructor ()
      ensures Valid() && Accounted()
      ensures binStatuses == initialBins && fresh(Records(initialBins))
      ensures Snapshot(binStatuses) == InitialView
      ensures systemState == ResetSystemState
      ensures !isProcessing && lastAnalysis == None && capturedImage == None && error == None
    {
      var bins := NewInitialBins();
      initialBins := bins;
      binStatuses := bins;
      systemState := ResetSystemState;
      isProcessing := false;
      lastAnalysis := None;
      capturedImage := None;
      error := None;
    }

    /** captureAndAnalyze up to its `await` (App.tsx:56-79). `hasElements` says whether
        the video and canvas elements are mounted, `videoWidth` is the video's width,
        `hasContext` whether the canvas gave a 2D context, `frame` the captured image.
        Returns whether an analysis call is now in flight. */
    method CaptureStart(hasElements: bool, videoWidth: int, hasContext: bool, frame: string)
      returns (awaiting: bool)
      modifies this`isProcessing, this`error, this`capturedImage
      ensures awaiting <==> hasElements && !old(isProcessing) && videoWidth != 0 && hasContext
      ensures isProcessing == (old(isProcessing) || awaiting)
      ensures error == (if hasElements && !old(isProcessing) then None else old(error))
      ensures capturedImage == (if awaiting then Some(frame) else old(capturedImage))
    {
      awaiting := false;
      if hasElements && !isProcessing {
        isProcessing := true;
        error := None;
        if videoWidth == 0 {
          // the video is not ready yet
          isProcessing := false;
        } else if !hasContext {
          // the thrown error is caught and logged; `finally` clears the busy flag
          isProcessing := false;
        } else {
          capturedImage := Some(frame);
          awaiting := true;
        }
      }
    }

    /** captureAndAnalyze after its `await` (App.tsx:81-114): on a response, both updaters
        run; on a rejection, the error is swallowed and no state but the busy flag
        changes. Either way the busy flag is cleared. */
    method CaptureFinish(outcome: Outcome<AnalysisResponse>)
      requires Valid()
      modifies this, Records(binStatuses)
      ensures Valid() && !isProcessing
      ensures binStatuses == old(binStatuses)
      ensures capturedImage == old(capturedImage) && error == old(error)
      ensures outcome.Failure? ==>
        Snapshot(binStatuses) == old(Snapshot(binStatuses))
        && systemState == old(systemState) && lastAnalysis == old(lastAnalysis)
      ensures outcome.Success? ==>
        Snapshot(binStatuses) == ApplyBatch(old(Snapshot(binStatuses)), outcome.value.detectedObjects)
        && systemState == NextSystemState(old(systemState), outcome.value)
        && lastAnalysis == Some(outcome.value)
      ensures old(Accounted()) ==> Accounted()
    {
      if outcome.Success? {
        var analysis := outcome.value;
        var objs := analysis.detectedObjects;
        ghost var before := Snapshot(binStatuses);
        ghost var initialBefore := Snapshot(initialBins);
        lastAnalysis := Some(analysis);
        var updated := ApplyDetections(binStatuses, objs);
        BatchConsistent(before, objs);
        BatchTotal(before, objs);
        assert AllConsistent(Snapshot(initialBins)) by {
          if updated != initialBins {
            assert Snapshot(initialBins) == initialBefore;
          }
        }
        binStatuses := updated;
        systemState := NextSystemState(systemState, analysis);
      }
      isProcessing := false;
    }

    /** The RESET SYSTEM handler as written (App.tsx:149-154). It puts back the
        INITIAL_BINS map, but that map points to the same records the updates have been
        writing, so the bins keep their counts, levels and alerts. */
    method Reset()
      requires Valid()
      modifies this
      ensures Valid()
      ensures binStatuses == initialBins
      ensures Snapshot(binStatuses) == old(Snapshot(initialBins))
      ensures systemState == ResetSystemState && lastAnalysis == None && capturedImage == None
      ensures isProcessing == old(isProcessing) && error == old(error)
    {
      binStatuses := initialBins;
      systemState := ResetSystemState;
      lastAnalysis := None;
      capturedImage := None;
    }

    /** The reset the handler evidently intends: seven fresh zeroed records, so that the
        bins and the counters start again from INITIAL_BINS whatever happened before. */
    method ResetFreshBins()
      requires Valid()
      modifies this
      ensures Valid() && Accounted()
      ensures fresh(Records(binStatuses))
      ensures Snapshot(binStatuses) == InitialView
      ensures systemState == ResetSystemState && lastAnalysis == None && capturedImage == None
      ensures isProcessing == old(isProcessing) && error == old(error)
    {
      ghost var initialBefore := Snapshot(initialBins);
      var bins := NewInitialBins();
      assert Snapshot(initialBins) == initialBefore;
      assert Records(bins) !! Records(initialBins);
      assert AllConsistent(InitialView) && Total(InitialView) == 0;
      binStatuses := bins;
      systemState := ResetSystemState;
      lastAnalysis := None;
      capturedImage := None;
    }
  }

  /** One Plastic Bin detection, then RESET SYSTEM as written: processedCount is back to 0
      but the Plastic Bin still holds 1 item, so the bins hold more than was processed. */
  method ResetKeepsCounts() returns (plasticAfterReset: int, processedAfterReset: int)
    ensures plasticAfterReset == 1 && processedAfterReset == 0
  {
    var app := new App();
    var awaiting := app.CaptureStart(true, 1280, true, "frame");
    var response := AnalysisResponse([PlasticItem()], "push left", SystemState(1, "Normal"));
    app.CaptureFinish(Success(response));
    ApplyBatchSnoc(InitialView, [], PlasticItem());
    ParseBinKey(PlasticBin);
    app.Reset();
    plasticAfterReset := app.binStatuses.plastic.count;
    processedAfterReset := app.systemState.processedCount;
  }

  /** The same run with the intended reset: the Plastic Bin is empty again. */
  method ResetFreshBinsClears() returns (plasticAfterReset: int, processedAfterReset: int)
    ensures plasticAfterReset == 0 && processedAfterReset == 0
  {
    var app := new App();
    var awaiting := app.CaptureStart(true, 1280, true, "frame");
    var response := AnalysisResponse([PlasticItem()], "push left", SystemState(1, "Normal"));
    app.CaptureFinish(Success(response));
    app.ResetFreshBins();
    plasticAfterReset := app.binStatuses.plastic.count;
    processedAfterReset := app.systemState.processedCount;
  }
}
