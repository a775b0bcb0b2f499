/** The bin and system updaters of App.tsx stated on values: what one detection does to
    a bin, what a batch does to the bin table, what a batch does to the system counters,
    and the properties of a run of batches. The heap-level update in AppComponent is
    proved equal to ApplyBatch. */
module BinRules {
  import opened Types

  /** The lookup `updated[obj.targetBin]` (App.tsx:89): the bin a target string names,
      if it names one of the seven. */
  function ParseBin(s: string): (r: Option<IoTBin>)
    ensures r.Some? ==> BinKey(r.value) == s
  {
    if s == "Plastic Bin" then Some(PlasticBin)
    else if s == "Organic Bin" then Some(OrganicBin)
    else if s == "Cloth/Textile Bin" then Some(ClothTextileBin)
    else if s == "Metal Bin" then Some(MetalBin)
    else if s == "Paper Bin" then Some(PaperBin)
    else if s == "Glass Bin" then Some(GlassBin)
    else if s == "General Waste Bin" then Some(GeneralWasteBin)
    else None
  }

  /** Every bin's own name finds that bin: with ParseBin's contract, a string finds a bin
      exactly when it is that bin's name. */
  lemma ParseBinKey(b: IoTBin)
    ensures ParseBin(BinKey(b)) == Some(b)
  {
    match b
    case PlasticBin =>
    case OrganicBin => assert BinKey(b)[0] == 'O';
    case ClothTextileBin => assert BinKey(b)[0] == 'C';
    case MetalBin => assert BinKey(b)[0] == 'M';
    case PaperBin => assert BinKey(b)[0] == 'P' && BinKey(b)[1] == 'a';
    case GlassBin => assert BinKey(b)[0] == 'G' && BinKey(b)[1] == 'l';
    case GeneralWasteBin => assert BinKey(b)[0] == 'G' && BinKey(b)[1] == 'e';
  }

  /** The fill level a count implies: above 10 High, above 5 Medium, otherwise Low. */
  function LevelOf(count: int): FillLevel
  {
    if count > 10 then High else if count > 5 then Medium else Low
  }

  /** A bin whose level and alert are the ones its count implies. Every record
      reachable from INITIAL_BINS through the update satisfies this. */
  predicate Consistent(v: BinView)
  {
    v.count >= 0 && v.fillLevel == LevelOf(v.count) && v.alertRequired == (v.count > 10)
  }

  predicate AllConsistent(m: BinTable<BinView>)
  {
    forall b :: Consistent(m.Get(b))
  }

  /** `later` is reachable from `earlier` by updates: the count has not gone down, the
      level has not gone down, a raised alert is still raised, the sensor is untouched. */
  predicate Dominates(later: BinView, earlier: BinView)
  {
    later.count >= earlier.count
    && Rank(later.fillLevel) >= Rank(earlier.fillLevel)
    && (earlier.alertRequired ==> later.alertRequired)
    && later.sensorStatus == earlier.sensorStatus
  }

  /** INITIAL_BINS as values: every bin zeroed (App.tsx:8-16). */
  const InitialView: BinTable<BinView> := BinTable(
    InitialBinView, InitialBinView, InitialBinView, InitialBinView,
    InitialBinView, InitialBinView, InitialBinView)

  /** The effect of one matched detection on its bin (App.tsx:90-97). */
  function Step(v: BinView): (r: BinView)
    ensures r.count == v.count + 1 && r.sensorStatus == v.sensorStatus
    ensures r.count > 10 ==> r.fillLevel == High && r.alertRequired
    ensures 5 < r.count <= 10 ==> r.fillLevel == Medium
    ensures r.count <= 5 ==> r.fillLevel == v.fillLevel
    ensures v.alertRequired ==> r.alertRequired
    ensures r.count <= 10 ==> r.alertRequired == v.alertRequired
    ensures Consistent(v) ==> Consistent(r) && Dominates(r, v)
  {
    var c := v.count + 1;
    if c > 10 then v.(count := c, fillLevel := High, alertRequired := true)
    else if c > 5 then v.(count := c, fillLevel := Medium)
    else v.(count := c)
  }

  /** The effect of one detection on the bin table: the bin its target names gets one
      Step and no other bin changes; a target naming no bin changes nothing and raises
      nothing (App.tsx:89). */
  function ApplyObject(m: BinTable<BinView>, target: string): (r: BinTable<BinView>)
    ensures ParseBin(target).None? ==> r == m
  {
    match ParseBin(target)
    case None => m
    case Some(b) => m.Set(b, Step(m.Get(b)))
  }

  /** The detections of a batch applied to the bin table one after the other, in list
      order (App.tsx:88-99). */
  function ApplyBatch(m: BinTable<BinView>, objs: seq<DetectedObject>): (r: BinTable<BinView>)
    ensures Total(m) <= Total(r) <= Total(m) + |objs|
    decreases |objs|
  {
    if objs == [] then m
    else ApplyObject(ApplyBatch(m, objs[..|objs| - 1]), objs[|objs| - 1].targetBin)
  }

  /** How many detections of the batch name the bin `b`. */
  function Occurrences(objs: seq<DetectedObject>, b: IoTBin): (n: nat)
    ensures n <= |objs|
    decreases |objs|
  {
    if objs == [] then 0
    else Occurrences(objs[..|objs| - 1], b) + (if ParseBin(objs[|objs| - 1].targetBin) == Some(b) then 1 else 0)
  }

  /** The detections of the batch that name one of the seven bins, in their order. */
  function KnownOnly(objs: seq<DetectedObject>): (r: seq<DetectedObject>)
    ensures |r| <= |objs|
    ensures forall i :: 0 <= i < |r| ==> ParseBin(r[i].targetBin).Some?
    decreases |objs|
  {
    if objs == [] then []
    else
      var rest := KnownOnly(objs[..|objs| - 1]);
      if ParseBin(objs[|objs| - 1].targetBin).Some? then rest + [objs[|objs| - 1]] else rest
  }

  /** The number of items in all seven bins together. */
  function Total(m: BinTable<BinView>): int
  {
    m.plastic.count + m.organic.count + m.cloth.count + m.metal.count
    + m.paper.count + m.glass.count + m.general.count
  }

  /** The system-state updater (App.tsx:104-107). */
  function NextSystemState(prev: SystemState, analysis: AnalysisResponse): (r: SystemState)
    ensures r.processedCount == prev.processedCount + |analysis.detectedObjects|
    ensures r.operatingState == analysis.systemStatus.operatingState
  {
    SystemState(prev.processedCount + |analysis.detectedObjects|, analysis.systemStatus.operatingState)
  }

  /** The reset value of the system counters (App.tsx:22, 151). */
  const ResetSystemState: SystemState := SystemState(0, "Normal")

  /** One successful analysis folded into the state: both updaters. The bins gain at
      most as many items as processedCount does, so the bound "the bins hold no more items
      than were processed" is kept. */
  function Fold(bins: BinTable<BinView>, sys: SystemState, analysis: AnalysisResponse)
    : (r: (BinTable<BinView>, SystemState))
    ensures r.1.processedCount == sys.processedCount + |analysis.detectedObjects|
    ensures r.1.operatingState == analysis.systemStatus.operatingState
    ensures Total(bins) <= sys.processedCount ==> Total(r.0) <= r.1.processedCount
  {
    (ApplyBatch(bins, analysis.detectedObjects), NextSystemState(sys, analysis))
  }

  /** A sequence of successful analyses folded in order. */
  function Run(bins: BinTable<BinView>, sys: SystemState, batches: seq<AnalysisResponse>)
    : (BinTable<BinView>, SystemState)
    decreases |batches|
  {
    if batches == [] then (bins, sys)
    else
      var prev := Run(bins, sys, batches[..|batches| - 1]);
      Fold(prev.0, prev.1, batches[|batches| - 1])
  }

  /** All detections of a sequence of analyses, in order. */
  function Detections(batches: seq<AnalysisResponse>): seq<DetectedObject>
    decreases |batches|
  {
    if batches == [] then []
    else Detections(batches[..|batches| - 1]) + batches[|batches| - 1].detectedObjects
  }

  // ---------------------------------------------------------------------------
  // One batch

  /** One more detection at the end of a batch is one more ApplyObject. */
  lemma ApplyBatchSnoc(m: BinTable<BinView>, objs: seq<DetectedObject>, o: DetectedObject)
    ensures ApplyBatch(m, objs + [o]) == ApplyObject(ApplyBatch(m, objs), o.targetBin)
  {
    var t := objs + [o];
    assert t[..|t| - 1] == objs;
  }

  /** Two batches applied one after the other act as their concatenation: objects are
      taken strictly in list order. */
  lemma {:induction false} BatchAppend(m: BinTable<BinView>, a: seq<DetectedObject>, b: seq<DetectedObject>)
    ensures ApplyBatch(m, a + b) == ApplyBatch(ApplyBatch(m, a), b)
    decreases |b|
  {
    if b == [] {
      assert a + b == a;
    } else {
      var init, last := b[..|b| - 1], b[|b| - 1];
      assert b == init + [last];
      assert a + b == (a + init) + [last];
      BatchAppend(m, a, init);
      ApplyBatchSnoc(m, a + init, last);
      ApplyBatchSnoc(ApplyBatch(m, a), init, last);
    }
  }

  /** Every bin's count grows by exactly the number of detections naming it. */
  lemma {:induction false} BatchCounts(m: BinTable<BinView>, objs: seq<DetectedObject>, b: IoTBin)
    ensures ApplyBatch(m, objs).Get(b).count == m.Get(b).count + Occurrences(objs, b)
    decreases |objs|
  {
    if objs != [] {
      BatchCounts(m, objs[..|objs| - 1], b);
    }
  }

  /** A bin no detection names keeps its whole record: count, level, alert, sensor. */
  lemma {:induction false} BatchUntouched(m: BinTable<BinView>, objs: seq<DetectedObject>, b: IoTBin)
    requires Occurrences(objs, b) == 0
    ensures ApplyBatch(m, objs).Get(b) == m.Get(b)
    decreases |objs|
  {
    if objs != [] {
      BatchUntouched(m, objs[..|objs| - 1], b);
    }
  }

  /** Detections naming no bin have no effect at all: the batch acts as the batch of its
      known-bin detections alone. */
  lemma {:induction false} BatchSkipsUnknown(m: BinTable<BinView>, objs: seq<DetectedObject>)
    ensures ApplyBatch(m, objs) == ApplyBatch(m, KnownOnly(objs))
    decreases |objs|
  {
    if objs != [] {
      var init := objs[..|objs| - 1];
      var last := objs[|objs| - 1];
      BatchSkipsUnknown(m, init);
      var rest := KnownOnly(init);
      if ParseBin(last.targetBin).Some? {
        var r := rest + [last];
        assert r[..|r| - 1] == rest;
      }
    }
  }

  /** The update keeps every bin consistent: level and alert follow the count, however
      many thresholds one batch crosses. */
  lemma {:induction false} BatchConsistent(m: BinTable<BinView>, objs: seq<DetectedObject>)
    requires AllConsistent(m)
    ensures AllConsistent(ApplyBatch(m, objs))
    decreases |objs|
  {
    if objs != [] {
      BatchConsistent(m, objs[..|objs| - 1]);
    }
  }

  /** From a consistent table the update never lowers a count or a level, never clears an
      alert and never touches a sensor status. */
  lemma {:induction false} BatchMonotone(m: BinTable<BinView>, objs: seq<DetectedObject>)
    requires AllConsistent(m)
    ensures forall b :: Dominates(ApplyBatch(m, objs).Get(b), m.Get(b))
    decreases |objs|
  {
    if objs != [] {
      var init := objs[..|objs| - 1];
      BatchMonotone(m, init);
      BatchConsistent(m, init);
    }
  }

  /** Starting from INITIAL_BINS, each bin's record is determined by how many detections
      named it: level Low up to 5, Medium from 6 to 10, High with the alert above 10. */
  lemma BatchFromInitial(objs: seq<DetectedObject>, b: IoTBin)
    ensures var c := Occurrences(objs, b);
      ApplyBatch(InitialView, objs).Get(b) == BinView(LevelOf(c), Active, c > 10, c)
  {
    assert AllConsistent(InitialView);
    BatchCounts(InitialView, objs, b);
    BatchConsistent(InitialView, objs);
    BatchMonotone(InitialView, objs);
  }

  /** The bins' total grows by exactly the number of detections that named a bin, so by
      at most the batch length. */
  lemma {:induction false} BatchTotal(m: BinTable<BinView>, objs: seq<DetectedObject>)
    ensures Total(ApplyBatch(m, objs)) == Total(m) + |KnownOnly(objs)|
    ensures Total(ApplyBatch(m, objs)) <= Total(m) + |objs|
    decreases |objs|
  {
    if objs != [] {
      BatchTotal(m, objs[..|objs| - 1]);
    }
  }

  // ---------------------------------------------------------------------------
  // The system counters and runs of batches

  /** The operating state is taken from the service unchecked: every reported value
      outside the declared union passes straight into the system state. */
  lemma OperatingStateUnchecked(prev: SystemState, analysis: AnalysisResponse)
    requires !IsDeclaredOperatingState(analysis.systemStatus.operatingState)
    ensures !IsDeclaredOperatingState(NextSystemState(prev, analysis).operatingState)
  {
  }

  /** A run of analyses leaves the bins as one batch of all their detections would, and
      adds the number of all detections to processedCount; the operating state is the
      one the last analysis reported. */
  lemma {:induction false} RunIsOneBatch(bins: BinTable<BinView>, sys: SystemState, batches: seq<AnalysisResponse>)
    ensures Run(bins, sys, batches).0 == ApplyBatch(bins, Detections(batches))
    ensures Run(bins, sys, batches).1.processedCount == sys.processedCount + |Detections(batches)|
    ensures batches != [] ==>
      Run(bins, sys, batches).1.operatingState == batches[|batches| - 1].systemStatus.operatingState
    decreases |batches|
  {
    if batches != [] {
      var init := batches[..|batches| - 1];
      RunIsOneBatch(bins, sys, init);
      BatchAppend(bins, Detections(init), batches[|batches| - 1].detectedObjects);
    }
  }

  /** Over any run from a consistent state, counts and levels never go down, a raised
      alert stays raised, and processedCount never goes down. */
  lemma RunMonotone(bins: BinTable<BinView>, sys: SystemState, batches: seq<AnalysisResponse>)
    requires AllConsistent(bins)
    ensures var r := Run(bins, sys, batches);
      AllConsistent(r.0) && r.1.processedCount >= sys.processedCount
      && forall b :: Dominates(r.0.Get(b), bins.Get(b))
  {
    RunIsOneBatch(bins, sys, batches);
    BatchConsistent(bins, Detections(batches));
    BatchMonotone(bins, Detections(batches));
  }

  /** The seven bins together never hold more items than processedCount reports: a run
      keeps that bound, since unknown-bin detections count only towards processedCount. */
  lemma RunAccounted(bins: BinTable<BinView>, sys: SystemState, batches: seq<AnalysisResponse>)
    requires Total(bins) <= sys.processedCount
    ensures var r := Run(bins, sys, batches);
      Total(r.0) <= r.1.processedCount
  {
    RunIsOneBatch(bins, sys, batches);
    BatchTotal(bins, Detections(batches));
  }

  // ---------------------------------------------------------------------------
  // Boundary scenarios

  function PlasticItem(): DetectedObject
  {
    DetectedObject("bottle", "clear", "Plastic", BinKey(PlasticBin), 0.9, [0.0, 0.0, 10.0, 10.0])
  }

  /** n detections of the same item. */
  function Repeat(o: DetectedObject, n: nat): (r: seq<DetectedObject>)
    ensures |r| == n && forall i :: 0 <= i < n ==> r[i] == o
  {
    seq(n, _ => o)
  }

  lemma {:induction false} OccurrencesRepeat(o: DetectedObject, n: nat, b: IoTBin)
    ensures Occurrences(Repeat(o, n), b) == if ParseBin(o.targetBin) == Some(b) then n else 0
  {
    if n > 0 {
      assert Repeat(o, n)[..n - 1] == Repeat(o, n - 1);
      OccurrencesRepeat(o, n - 1, b);
    }
  }

  /** Detections of Plastic Bin items from the zeroed bins (INITIAL_BINS as first
      mounted, or after ResetFreshBins): eleven leave the bin High with its alert raised,
      ten or six leave it Medium, five leave it Low. */
  lemma ThresholdBoundaries()
    ensures ApplyBatch(InitialView, Repeat(PlasticItem(), 11)).plastic == BinView(High, Active, true, 11)
    ensures ApplyBatch(InitialView, Repeat(PlasticItem(), 10)).plastic == BinView(Medium, Active, false, 10)
    ensures ApplyBatch(InitialView, Repeat(PlasticItem(), 6)).plastic == BinView(Medium, Active, false, 6)
    ensures ApplyBatch(InitialView, Repeat(PlasticItem(), 5)).plastic == BinView(Low, Active, false, 5)
  {
    ParseBinKey(PlasticBin);
    OccurrencesRepeat(PlasticItem(), 11, PlasticBin);
    OccurrencesRepeat(PlasticItem(), 10, PlasticBin);
    OccurrencesRepeat(PlasticItem(), 6, PlasticBin);
    OccurrencesRepeat(PlasticItem(), 5, PlasticBin);
    BatchFromInitial(Repeat(PlasticItem(), 11), PlasticBin);
    BatchFromInitial(Repeat(PlasticItem(), 10), PlasticBin);
    BatchFromInitial(Repeat(PlasticItem(), 6), PlasticBin);
    BatchFromInitial(Repeat(PlasticItem(), 5), PlasticBin);
  }

  /** Six Plastic Bin detections and one naming a bin that does not exist, folded into
      the zeroed bins and counters (INITIAL_BINS as first mounted, or after
      ResetFreshBins): the Plastic Bin holds 6 at Medium without alert, and processedCount
      is 7. */
  lemma SixPlasticOneUnknown(action: string, reported: SystemState)
    ensures var unknown := PlasticItem().(targetBin := "Nonexistent Bin");
      var a := AnalysisResponse(Repeat(PlasticItem(), 6) + [unknown], action, reported);
      var r := Fold(InitialView, ResetSystemState, a);
      r.0.plastic == BinView(Medium, Active, false, 6) && r.1.processedCount == 7
  {
    var unknown := PlasticItem().(targetBin := "Nonexistent Bin");
    var objs := Repeat(PlasticItem(), 6) + [unknown];
    assert objs[..|objs| - 1] == Repeat(PlasticItem(), 6);
    assert "Nonexistent Bin"[0] == 'N';
    assert ParseBin(unknown.targetBin) == None;
    ParseBinKey(PlasticBin);
    OccurrencesRepeat(PlasticItem(), 6, PlasticBin);
    BatchFromInitial(Repeat(PlasticItem(), 6), PlasticBin);
  }
}
