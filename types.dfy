/** The data contracts of types.ts: detections, analysis responses, bin records and the
    system counters, plus the value view of a bin record used by the specification. */
module Types {

  datatype Option<T> = None | Some(value: T)

  /** What the asynchronous analysis call delivers: a response, or a rejection
      (network error, JSON parse error, ...) carrying its message. */
  datatype Outcome<T> = Success(value: T) | Failure(error: string)

  datatype FillLevel = Low | Medium | High

  /** Position of a fill level on the scale Low < Medium < High. */
  function Rank(l: FillLevel): nat
  {
    match l
    case Low => 0
    case Medium => 1
    case High => 2
  }

  datatype SensorStatus = Active | Inactive

  /** The seven bin identifiers of the IoTBin union type. */
  datatype IoTBin =
    | PlasticBin | OrganicBin | ClothTextileBin | MetalBin
    | PaperBin | GlassBin | GeneralWasteBin

  /** The string that names a bin, and under which the bin map stores it. */
  function BinKey(b: IoTBin): string
  {
    match b
    case PlasticBin => "Plastic Bin"
    case OrganicBin => "Organic Bin"
    case ClothTextileBin => "Cloth/Textile Bin"
    case MetalBin => "Metal Bin"
    case PaperBin => "Paper Bin"
    case GlassBin => "Glass Bin"
    case GeneralWasteBin => "General Waste Bin"
  }

  /** A `Record<IoTBin, T>`: exactly one entry per bin. */
  datatype BinTable<T> = BinTable(
    plastic: T, organic: T, cloth: T, metal: T, paper: T, glass: T, general: T)
  {
    function Get(b: IoTBin): T
    {
      match b
      case PlasticBin => plastic
      case OrganicBin => organic
      case ClothTextileBin => cloth
      case MetalBin => metal
      case PaperBin => paper
      case GlassBin => glass
      case GeneralWasteBin => general
    }

    /** The table with the entry of `b` replaced and every other entry kept. */
    function Set(b: IoTBin, v: T): (r: BinTable<T>)
      ensures r.Get(b) == v
      ensures forall c :: c != b ==> r.Get(c) == Get(c)
    {
      BinTable(
        if b == PlasticBin then v else plastic,
        if b == OrganicBin then v else organic,
        if b == ClothTextileBin then v else cloth,
        if b == MetalBin then v else metal,
        if b == PaperBin then v else paper,
        if b == GlassBin then v else glass,
        if b == GeneralWasteBin then v else general)
    }
  }

  /** Two tables with the same entry for every bin are the same table. */
  lemma TableExtensional<T>(x: BinTable<T>, y: BinTable<T>)
    requires forall b :: x.Get(b) == y.Get(b)
    ensures x == y
  {
    assert x.Get(PlasticBin) == y.Get(PlasticBin) && x.Get(OrganicBin) == y.Get(OrganicBin);
    assert x.Get(ClothTextileBin) == y.Get(ClothTextileBin) && x.Get(MetalBin) == y.Get(MetalBin);
    assert x.Get(PaperBin) == y.Get(PaperBin) && x.Get(GlassBin) == y.Get(GlassBin);
    assert x.Get(GeneralWasteBin) == y.Get(GeneralWasteBin);
  }

  /** One detected item. The service's response schema declares wasteType and targetBin as
      plain strings and nothing validates them, so any string can arrive here. */
  datatype DetectedObject = DetectedObject(
    name: string,
    color: string,
    wasteType: string,
    targetBin: string,
    confidence: real,
    box2d: seq<real>)

  /** The system counters. operatingState is declared as 'Normal' | 'Warning' | 'Overload'
      but is filled from the service's string through an unchecked cast. */
  datatype SystemState = SystemState(processedCount: int, operatingState: string)

  predicate IsDeclaredOperatingState(s: string)
  {
    s == "Normal" || s == "Warning" || s == "Overload"
  }

  datatype AnalysisResponse = AnalysisResponse(
    detectedObjects: seq<DetectedObject>,
    sortingAction: string,
    systemStatus: SystemState)

  /** The contents of one bin record at one moment. */
  datatype BinView = BinView(
    fillLevel: FillLevel,
    sensorStatus: SensorStatus,
    alertRequired: bool,
    count: int)

  /** The contents of every record of INITIAL_BINS as written. */
  const InitialBinView: BinView := BinView(Low, Active, false, 0)

  /** A bin record. The app's bin map holds references to these records, and its
      update writes their fields in place, so they are objects, not values. */
  class BinStatus {
    var fillLevel: FillLevel
    var sensorStatus: SensorStatus
    var alertRequired: bool
    var count: int

    function View(): BinView
      reads this
    {
      BinView(fillLevel, sensorStatus, alertRequired, count)
    }

    /** One record of the INITIAL_BINS literal. */
    constructor ()
      ensures View() == InitialBinView
    {
      fillLevel := Low;
      sensorStatus := Active;
      alertRequired := false;
      count := 0;
    }
  }
}
