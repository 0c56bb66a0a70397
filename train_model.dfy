/**
 * The training side: the emission-factor tables, the footprint formula that labels
 * the synthetic data, the per-row rules of the synthetic-data generator (with the
 * random draws taken as inputs) and the encoding step of the trainer.
 */
module Training {
  import opened Wrappers
  import opened Numeric
  import opened Catalog
  import LabelEncoding

  /** MATERIAL_FACTORS: material -> (kg CO2e per kg, manufacturing-intensity multiplier). */
  function MaterialFactors(m: Material): (r: (real, real))
    ensures 0.4 <= r.0 <= 27.0 && 0.5 <= r.1 <= 2.5
  {
    match m
    case Cotton => (5.5, 1.3)
    case Polyester => (6.2, 1.5)
    case Wool => (10.4, 1.4)
    case Leather => (17.0, 2.0)
    case Steel => (2.8, 1.8)
    case Aluminum => (8.2, 2.5)
    case Plastic => (3.5, 1.6)
    case Glass => (0.9, 1.2)
    case Paper => (1.3, 1.0)
    case Wood => (0.5, 0.8)
    case Beef => (27.0, 1.2)
    case Lamb => (24.0, 1.2)
    case Pork => (12.1, 1.1)
    case Chicken => (6.9, 1.0)
    case Turkey => (10.9, 1.0)
    case FishFarmed => (5.1, 0.9)
    case FishWild => (2.9, 0.8)
    case Shrimp => (18.0, 1.3)
    case Milk => (1.9, 0.7)
    case Cheese => (13.5, 1.0)
    case Eggs => (4.8, 0.9)
    case Butter => (12.0, 0.9)
    case Tofu => (2.0, 0.8)
    case Lentils => (0.9, 0.6)
    case Beans => (1.0, 0.6)
    case Nuts => (2.3, 0.7)
    case Rice => (4.0, 0.8)
    case Wheat => (1.4, 0.7)
    case Oats => (1.6, 0.7)
    case Corn => (1.1, 0.7)
    case Tomatoes => (2.1, 0.6)
    case Potatoes => (0.5, 0.5)
    case Lettuce => (0.9, 0.5)
    case Apples => (0.4, 0.5)
    case Bananas => (0.7, 0.5)
  }

  /** TRANSPORT_FACTORS: kg CO2e per kg of goods per 1000 km. */
  function TransportFactors(t: TransportMode): (r: real)
    ensures 0.015 <= r <= 0.95
    ensures t == Sea <==> r == 0.015
    ensures t == Air <==> r == 0.95
  {
    match t
    case Air => 0.95
    case Sea => 0.015
    case Road => 0.12
    case Rail => 0.025
  }

  /** MANUFACTURING_BASE: kg CO2e per kg before the material's multiplier. */
  function ManufacturingBase(i: Intensity): (r: real)
    ensures 0.5 <= r <= 3.5
    ensures i == Low <==> r == 0.5
    ensures i == High <==> r == 3.5
  {
    match i
    case Low => 0.5
    case Medium => 1.5
    case High => 3.5
  }

  /** Every factor in the three tables is positive. */
  lemma FactorsPositive(m: Material, t: TransportMode, i: Intensity)
    ensures MaterialFactors(m).0 > 0.0 && MaterialFactors(m).1 > 0.0
    ensures TransportFactors(t) > 0.0 && ManufacturingBase(i) > 0.0
  {
  }

  /** Air freight is the most and sea freight the least carbon-intensive mode. */
  lemma TransportFactorsOrdered(t: TransportMode)
    ensures TransportFactors(Sea) <= TransportFactors(t) <= TransportFactors(Air)
  {
  }

  datatype Footprint = Footprint(total: real, material: real, manufacturing: real, transport: real)

  /** A failed dictionary lookup (Python's KeyError), naming the missing key. */
  datatype LookupError = KeyError(key: string)

  /**
   * The footprint formula on the looked-up factors: material emissions, manufacturing
   * emissions (base times the material's multiplier) and transport emissions per 1000 km.
   */
  function Emissions(weightKg: real, materialFactor: real, multiplier: real, base: real,
                     distanceKm: real, transportFactor: real): (f: Footprint)
    ensures f.total == f.material + f.manufacturing + f.transport
  {
    var materialCo2 := weightKg * materialFactor;
    var manufacturingCo2 := weightKg * base * multiplier;
    var transportCo2 := weightKg * (distanceKm / 1000.0) * transportFactor;
    Footprint(materialCo2 + manufacturingCo2 + transportCo2, materialCo2, manufacturingCo2, transportCo2)
  }

  /** The footprint of known categories, their factors taken from the three tables. */
  function FootprintOf(m: Material, weightKg: real, t: TransportMode, distanceKm: real, i: Intensity): (f: Footprint)
    ensures f.total == f.material + f.manufacturing + f.transport
  {
    Emissions(weightKg, MaterialFactors(m).0, MaterialFactors(m).1, ManufacturingBase(i), distanceKm, TransportFactors(t))
  }

  /**
   * `calculate_carbon_footprint` on string keys. The tables are indexed in the order
   * material, intensity, transport mode, so the first unknown key in that order is reported.
   */
  function CalculateCarbonFootprint(material: string, weightKg: real, transportMode: string,
                                    distanceKm: real, intensity: string): (r: Result<Footprint, LookupError>)
    ensures r.Success? <==> ParseMaterial(material).Some? && ParseIntensity(intensity).Some? && ParseMode(transportMode).Some?
    ensures ParseMaterial(material).None? ==> r == Failure(KeyError(material))
    ensures ParseMaterial(material).Some? && ParseIntensity(intensity).None? ==> r == Failure(KeyError(intensity))
    ensures ParseMaterial(material).Some? && ParseIntensity(intensity).Some? && ParseMode(transportMode).None?
            ==> r == Failure(KeyError(transportMode))
  {
    match ParseMaterial(material)
    case None => Failure(KeyError(material))
    case Some(m) =>
      match ParseIntensity(intensity)
      case None => Failure(KeyError(intensity))
      case Some(i) =>
        match ParseMode(transportMode)
        case None => Failure(KeyError(transportMode))
        case Some(t) => Success(FootprintOf(m, weightKg, t, distanceKm, i))
  }

  /** On the tables' own keys the lookup succeeds with the footprint of those categories. */
  lemma CalculateOnKnownKeys(m: Material, w: real, t: TransportMode, d: real, i: Intensity)
    ensures CalculateCarbonFootprint(MaterialName(m), w, ModeName(t), d, IntensityName(i)) == Success(FootprintOf(m, w, t, d, i))
  {
    ParseMaterialName(m);
    ParseModeName(t);
    ParseIntensityName(i);
  }

  /** 0.5 kg of cotton flown 8000 km with medium processing: 2.75 + 0.975 + 3.8 = 7.525 kg. */
  lemma CottonByAirExample()
    ensures CalculateCarbonFootprint("Cotton", 0.5, "AIR", 8000.0, "MEDIUM") == Success(Footprint(7.525, 2.75, 0.975, 3.8))
  {
    CalculateOnKnownKeys(Cotton, 0.5, Air, 8000.0, Medium);
  }

  /** A lower-case mode is not a key: the lookup fails naming it. */
  lemma LowerCaseModeIsKeyError()
    ensures CalculateCarbonFootprint("Cotton", 0.5, "air", 8000.0, "MEDIUM") == Failure(KeyError("air"))
  {
    ParseMaterialName(Cotton);
    ParseIntensityName(Medium);
    KeysAreCaseSensitive();
  }

  /** The formula is linear in the weight: scaling the weight by k scales every component by k. */
  lemma EmissionsScaleWithWeight(w: real, k: real, bf: real, mm: real, mb: real, d: real, tf: real)
    ensures var a := Emissions(w, bf, mm, mb, d, tf);
            var b := Emissions(k * w, bf, mm, mb, d, tf);
            b.material == k * a.material && b.manufacturing == k * a.manufacturing
            && b.transport == k * a.transport && b.total == k * a.total
  {
    var t := d / 1000.0;
    assert (k * w) * mb * mm == k * (w * mb * mm);
    assert (k * w) * t * tf == k * (w * t * tf);
    assert k * (w * bf) + k * (w * mb * mm) + k * (w * t * tf) == k * (w * bf + w * mb * mm + w * t * tf);
  }

  /** Two multipliers change only the manufacturing figure, and in proportion to each other. */
  lemma EmissionsDifferInMultiplier(w: real, bf: real, m1: real, m2: real, mb: real, d: real, tf: real)
    ensures var a := Emissions(w, bf, m1, mb, d, tf);
            var b := Emissions(w, bf, m2, mb, d, tf);
            a.material == b.material && a.transport == b.transport && a.manufacturing * m2 == b.manufacturing * m1
  {
    assert (w * mb * m1) * m2 == (w * mb * m2) * m1;
  }

  /** With a positive weight and a non-negative distance, every component is non-negative and the total positive. */
  lemma FootprintPositive(m: Material, w: real, t: TransportMode, d: real, i: Intensity)
    requires w > 0.0 && d >= 0.0
    ensures var f := FootprintOf(m, w, t, d, i);
            f.material > 0.0 && f.manufacturing > 0.0 && f.transport >= 0.0 && f.total > 0.0
  {
    FactorsPositive(m, t, i);
    EmissionsPositive(w, MaterialFactors(m).0, MaterialFactors(m).1, ManufacturingBase(i), d, TransportFactors(t));
  }

  /** With positive factors, a positive weight and a non-negative distance, every component but transport is positive. */
  lemma EmissionsPositive(w: real, bf: real, mm: real, mb: real, d: real, tf: real)
    requires w > 0.0 && bf > 0.0 && mm > 0.0 && mb > 0.0 && d >= 0.0 && tf > 0.0
    ensures var f := Emissions(w, bf, mm, mb, d, tf);
            f.material > 0.0 && f.manufacturing > 0.0 && f.transport >= 0.0 && f.total > 0.0
  {
    assert w * mb > 0.0;
    assert w * (d / 1000.0) >= 0.0;
  }

  /** For a fixed non-negative weight and factor, shipping further never lowers the transport emissions, nor the total. */
  lemma EmissionsMonotoneInDistance(w: real, bf: real, mm: real, mb: real, d1: real, d2: real, tf: real)
    requires w >= 0.0 && tf >= 0.0 && d1 <= d2
    ensures Emissions(w, bf, mm, mb, d1, tf).transport <= Emissions(w, bf, mm, mb, d2, tf).transport
    ensures Emissions(w, bf, mm, mb, d1, tf).total <= Emissions(w, bf, mm, mb, d2, tf).total
  {
    assert w * (d1 / 1000.0) <= w * (d2 / 1000.0);
    assert (w * (d2 / 1000.0) - w * (d1 / 1000.0)) * tf >= 0.0;
  }

  // ---------------------------------------------------------------------------
  // Synthetic data generation

  /** The random values one generated row consumes, in the order the generator draws them. */
  datatype RowDraw = RowDraw(
    materialPick: nat,   // index drawn by the uniform choice of material
    lognormal: real,     // the log-normal weight draw, before clipping
    modePick: nat,       // index drawn by the weighted choice of transport mode
    uniform: real,       // the unit-interval draw behind the uniform distance
    intensityPick: nat,  // index drawn by the choice among the material's allowed intensities
    noise: real)         // the normal multiplicative noise draw

  /** The intensities the generator may pick for a material. */
  function IntensityChoices(m: Material): (c: seq<Intensity>)
    ensures 2 <= |c| <= 3
  {
    if m in {Aluminum, Steel, Leather} then [Medium, High]
    else if m in {Cotton, Polyester, Plastic} then [Low, Medium]
    else if m in {Beef, Lamb, Pork, Shrimp, Cheese} then [Medium, High]
    else if m in {Chicken, FishFarmed, FishWild, Tofu, Lentils, Beans, Rice, Wheat, Potatoes, Apples, Bananas}
    then [Low, Medium]
    else Intensities
  }

  /** The distance range (km) the generator samples for a mode. */
  function DistanceRange(t: TransportMode): (r: (int, int))
    ensures 0 < r.0 < r.1
  {
    match t
    case Air => (2000, 15000)
    case Sea => (5000, 20000)
    case Road => (50, 3000)
    case Rail => (200, 5000)
  }

  /** A draw lies in the support of the distributions it comes from. */
  predicate ValidDraw(d: RowDraw)
  {
    && d.materialPick < |Materials|
    && d.modePick < |TransportModes|
    && 0.0 <= d.uniform < 1.0
    && d.intensityPick < |IntensityChoices(Materials[d.materialPick])|
  }

  /** One stored row of the dataset, its categories as their string keys. */
  datatype TrainingRecord = TrainingRecord(
    material: string, weightKg: real, transportMode: string, distanceKm: real, intensity: string,
    materialCo2: real, manufacturingCo2: real, transportCo2: real, totalCo2Kg: real)

  /** The labelled total after the multiplicative noise draw. */
  function Noisy(total: real, noise: real): real
  {
    total * noise
  }

  /** The distance drawn for a mode before rounding: the uniform draw scaled to the mode's range. */
  function RawDistance(t: TransportMode, uniform: real): (r: real)
    requires 0.0 <= uniform < 1.0
    ensures DistanceRange(t).0 as real <= r < DistanceRange(t).1 as real
  {
    var (lo, hi) := DistanceRange(t);
    assert (hi - lo) as real * uniform < (hi - lo) as real;
    lo as real + (hi - lo) as real * uniform
  }

  /** The stored weight: the clipped draw rounded to grams, which stays inside the clip range. */
  function StoredWeight(weight: real): (r: real)
    requires 0.05 <= weight <= 100.0
    ensures 0.05 <= r <= 100.0
    ensures -0.0005 <= r - weight <= 0.0005
  {
    RoundStaysInGridRange(weight, 50, 100000, 3);
    Round(weight, 3)
  }

  /** The stored distance: the raw distance rounded to 0.1 km, which stays inside the mode's closed range. */
  function StoredDistance(t: TransportMode, distance: real): (r: real)
    requires DistanceRange(t).0 as real <= distance <= DistanceRange(t).1 as real
    ensures DistanceRange(t).0 as real <= r <= DistanceRange(t).1 as real
    ensures -0.05 <= r - distance <= 0.05
  {
    var (lo, hi) := DistanceRange(t);
    RoundStaysInGridRange(distance, lo * 10, hi * 10, 1);
    Round(distance, 1)
  }

  /** The row the generator builds from one set of draws. */
  function GenerateRow(d: RowDraw): (r: TrainingRecord)
    requires ValidDraw(d)
    ensures r.material == MaterialName(Materials[d.materialPick])
    ensures r.transportMode == ModeName(TransportModes[d.modePick])
    ensures r.intensity == IntensityName(IntensityChoices(Materials[d.materialPick])[d.intensityPick])
    ensures 0.05 <= r.weightKg <= 100.0
    ensures DistanceRange(TransportModes[d.modePick]).0 as real <= r.distanceKm <= DistanceRange(TransportModes[d.modePick]).1 as real
  {
    var m := Materials[d.materialPick];
    var weight := Clip(d.lognormal, 0.05, 100.0);
    var t := TransportModes[d.modePick];
    var distance := RawDistance(t, d.uniform);
    var i := IntensityChoices(m)[d.intensityPick];
    var fp := FootprintOf(m, weight, t, distance, i);
    TrainingRecord(MaterialName(m), StoredWeight(weight), ModeName(t), StoredDistance(t, distance), IntensityName(i),
                   Round(fp.material, 3), Round(fp.manufacturing, 3), Round(fp.transport, 3),
                   Round(Noisy(fp.total, d.noise), 3))
  }

  /**
   * A row stores the clipped weight draw rounded to 3 places and the scaled distance draw
   * rounded to 0.1 km, each close to the unrounded value.
   */
  lemma GeneratedRowStoresDraws(d: RowDraw)
    requires ValidDraw(d)
    ensures var r := GenerateRow(d);
            var t := TransportModes[d.modePick];
            && r.weightKg == StoredWeight(Clip(d.lognormal, 0.05, 100.0))
            && r.distanceKm == StoredDistance(t, RawDistance(t, d.uniform))
            && -0.0005 <= r.weightKg - Clip(d.lognormal, 0.05, 100.0) <= 0.0005
            && -0.05 <= r.distanceKm - RawDistance(t, d.uniform) <= 0.05
  {
  }

  /**
   * The stored labels are what `calculate_carbon_footprint` gives on the row's own keys and the
   * UNROUNDED weight and distance: each component rounded to 3 places, and the total after noise
   * rounded to 3 places.
   */
  lemma GeneratedLabelsFollowFormula(d: RowDraw)
    requires ValidDraw(d)
    ensures var r := GenerateRow(d);
            var fp := CalculateCarbonFootprint(r.material, Clip(d.lognormal, 0.05, 100.0), r.transportMode,
                                               RawDistance(TransportModes[d.modePick], d.uniform), r.intensity);
            && fp.Success?
            && r.materialCo2 == Round(fp.value.material, 3)
            && r.manufacturingCo2 == Round(fp.value.manufacturing, 3)
            && r.transportCo2 == Round(fp.value.transport, 3)
            && r.totalCo2Kg == Round(Noisy(fp.value.total, d.noise), 3)
  {
    var m := Materials[d.materialPick];
    var t := TransportModes[d.modePick];
    var i := IntensityChoices(m)[d.intensityPick];
    CalculateOnKnownKeys(m, Clip(d.lognormal, 0.05, 100.0), t, RawDistance(t, d.uniform), i);
  }

  /** Energy- or metal-intensive materials and high-emission animal products are never LOW intensity. */
  lemma HeavyProcessingNeverLow(m: Material, pick: nat)
    requires m in {Aluminum, Steel, Leather, Beef, Lamb, Pork, Shrimp, Cheese}
    requires pick < |IntensityChoices(m)|
    ensures IntensityChoices(m)[pick] in {Medium, High}
  {
  }

  /** Textiles, plastics and low-processing foods are never HIGH intensity. */
  lemma LightProcessingNeverHigh(m: Material, pick: nat)
    requires m in {Cotton, Polyester, Plastic, Chicken, FishFarmed, FishWild,
                   Tofu, Lentils, Beans, Rice, Wheat, Potatoes, Apples, Bananas}
    requires pick < |IntensityChoices(m)|
    ensures IntensityChoices(m)[pick] in {Low, Medium}
  {
  }

  /** Every other material may be generated with each of the three intensities. */
  lemma OtherMaterialsReachEveryIntensity(m: Material)
    requires m in {Wool, Glass, Paper, Wood, Turkey, Milk, Eggs, Butter, Nuts, Oats, Corn, Tomatoes, Lettuce}
    ensures IntensityChoices(m) == [Low, Medium, High]
  {
  }

  /** The intensity stored in a generated row is one of those its material allows. */
  lemma RowIntensityAllowed(d: RowDraw)
    requires ValidDraw(d)
    ensures exists i :: i in IntensityChoices(Materials[d.materialPick]) && GenerateRow(d).intensity == IntensityName(i)
  {
    var i := IntensityChoices(Materials[d.materialPick])[d.intensityPick];
    assert GenerateRow(d).intensity == IntensityName(i);
  }

  /** The default `num_samples` of `generate_synthetic_dataset`. */
  const DefaultSamples: nat := 5000

  /** The rows `build` makes from the draws, one per draw, in order. */
  function MapDraws(build: RowDraw --> TrainingRecord, draws: seq<RowDraw>): (rows: seq<TrainingRecord>)
    requires forall i :: 0 <= i < |draws| ==> build.requires(draws[i])
    ensures |rows| == |draws|
    ensures forall i :: 0 <= i < |draws| ==> rows[i] == build(draws[i])
  {
    if draws == [] then [] else MapDraws(build, draws[..|draws| - 1]) + [build(draws[|draws| - 1])]
  }

  /** `generate_synthetic_dataset`: one row per sample, each built from that sample's draws. */
  method GenerateSyntheticDataset(numSamples: nat, draws: seq<RowDraw>) returns (data: seq<TrainingRecord>)
    requires |draws| >= numSamples
    requires forall i :: 0 <= i < numSamples ==> ValidDraw(draws[i])
    ensures data == MapDraws(GenerateRow, draws[..numSamples])
  {
    data := [];
    var i := 0;
    while i < numSamples
      invariant 0 <= i <= numSamples
      invariant data == MapDraws(GenerateRow, draws[..i])
    {
      assert draws[..i + 1][..i] == draws[..i];
      data := data + [GenerateRow(draws[i])];
      i := i + 1;
    }
  }

  /** Every generated row's keys are table keys and its weight lies in the clip range. */
  lemma GeneratedRowsAreWellFormed(numSamples: nat, draws: seq<RowDraw>, data: seq<TrainingRecord>)
    requires |draws| >= numSamples
    requires forall i :: 0 <= i < numSamples ==> ValidDraw(draws[i])
    requires data == MapDraws(GenerateRow, draws[..numSamples])
    ensures |data| == numSamples
    ensures forall i :: 0 <= i < numSamples ==>
              && ParseMaterial(data[i].material).Some?
              && ParseMode(data[i].transportMode).Some?
              && ParseIntensity(data[i].intensity).Some?
              && 0.05 <= data[i].weightKg <= 100.0
  {
    forall i | 0 <= i < numSamples
      ensures && ParseMaterial(data[i].material).Some?
              && ParseMode(data[i].transportMode).Some?
              && ParseIntensity(data[i].intensity).Some?
    {
      var d := draws[i];
      assert data[i] == GenerateRow(d) by {
        assert draws[..numSamples][i] == d;
      }
      ParseMaterialName(Materials[d.materialPick]);
      ParseModeName(TransportModes[d.modePick]);
      ParseIntensityName(IntensityChoices(Materials[d.materialPick])[d.intensityPick]);
    }
  }

  // ---------------------------------------------------------------------------
  // Training: encoding and the feature layout

  datatype Metrics = Metrics(r2Score: real, rmse: real, mae: real)

  /**
   * The saved bundle: the fitted regressor (an opaque function of a feature vector),
   * one encoder per categorical column, the feature names and the holdout metrics.
   */
  datatype Artifacts = Artifacts(
    model: seq<real> -> real,
    materialEncoder: LabelEncoding.LabelEncoder,
    transportEncoder: LabelEncoding.LabelEncoder,
    intensityEncoder: LabelEncoding.LabelEncoder,
    featureNames: seq<string>,
    metrics: Metrics)

  const FeatureNames: seq<string> := ["Material", "Weight", "Transport Mode", "Distance", "Manufacturing"]

  /** The fixed feature order: [material, weight, transport, distance, intensity]. */
  function FeatureVector(materialCode: nat, weightKg: real, transportCode: nat, distanceKm: real, intensityCode: nat): (x: seq<real>)
    ensures |x| == |FeatureNames|
    ensures x[0] == materialCode as real && x[1] == weightKg && x[2] == transportCode as real
    ensures x[3] == distanceKm && x[4] == intensityCode as real
  {
    [materialCode as real, weightKg, transportCode as real, distanceKm, intensityCode as real]
  }

  function MaterialColumn(rows: seq<TrainingRecord>): (c: seq<string>)
    ensures |c| == |rows| && forall i :: 0 <= i < |rows| ==> c[i] == rows[i].material
  {
    seq(|rows|, i requires 0 <= i < |rows| => rows[i].material)
  }

  function TransportColumn(rows: seq<TrainingRecord>): (c: seq<string>)
    ensures |c| == |rows| && forall i :: 0 <= i < |rows| ==> c[i] == rows[i].transportMode
  {
    seq(|rows|, i requires 0 <= i < |rows| => rows[i].transportMode)
  }

  function IntensityColumn(rows: seq<TrainingRecord>): (c: seq<string>)
    ensures |c| == |rows| && forall i :: 0 <= i < |rows| ==> c[i] == rows[i].intensity
  {
    seq(|rows|, i requires 0 <= i < |rows| => rows[i].intensity)
  }

  /** The feature matrix X, one row per record, each in the fixed feature order. */
  function FeatureMatrix(rows: seq<TrainingRecord>, materialCodes: seq<nat>, transportCodes: seq<nat>,
                         intensityCodes: seq<nat>): (x: seq<seq<real>>)
    requires |materialCodes| == |transportCodes| == |intensityCodes| == |rows|
    ensures |x| == |rows|
    ensures forall i :: 0 <= i < |rows| ==>
              x[i] == FeatureVector(materialCodes[i], rows[i].weightKg, transportCodes[i], rows[i].distanceKm, intensityCodes[i])
  {
    seq(|rows|, i requires 0 <= i < |rows| =>
      FeatureVector(materialCodes[i], rows[i].weightKg, transportCodes[i], rows[i].distanceKm, intensityCodes[i]))
  }

  /** The target column y. */
  function TargetColumn(rows: seq<TrainingRecord>): (y: seq<real>)
    ensures |y| == |rows| && forall i :: 0 <= i < |rows| ==> y[i] == rows[i].totalCo2Kg
  {
    seq(|rows|, i requires 0 <= i < |rows| => rows[i].totalCo2Kg)
  }

  /** The generated dataset as the trainer sees it; `train_model` adds the encoded columns to it in place. */
  class DataFrame {
    var records: seq<TrainingRecord>
    var encodedColumns: map<string, seq<nat>>

    constructor (records: seq<TrainingRecord>)
      ensures this.records == records && encodedColumns == map[]
    {
      this.records := records;
      encodedColumns := map[];
    }
  }

  /**
   * The encoding part of `train_model`: fit one encoder per categorical column, add the
   * three `*_encoded` columns to the frame, and lay out X and y in the fixed feature order.
   * Fitting the forest and scoring it are foreign calls: their results come in as
   * `model` and `metrics`.
   */
  method TrainModel(df: DataFrame, model: seq<real> -> real, metrics: Metrics)
    returns (artifacts: Artifacts, x: seq<seq<real>>, y: seq<real>)
    modifies df
    ensures df.records == old(df.records)
    ensures var (me, mc) := LabelEncoding.FitTransform(MaterialColumn(df.records));
            var (te, tc) := LabelEncoding.FitTransform(TransportColumn(df.records));
            var (ie, ic) := LabelEncoding.FitTransform(IntensityColumn(df.records));
            && df.encodedColumns == old(df.encodedColumns)["material_encoded" := mc]["transport_encoded" := tc]["intensity_encoded" := ic]
            && artifacts == Artifacts(model, me, te, ie, FeatureNames, metrics)
            && x == FeatureMatrix(df.records, mc, tc, ic)
    ensures y == TargetColumn(df.records)
  {
    var (me, mc) := LabelEncoding.FitTransform(MaterialColumn(df.records));
    var (te, tc) := LabelEncoding.FitTransform(TransportColumn(df.records));
    var (ie, ic) := LabelEncoding.FitTransform(IntensityColumn(df.records));
    df.encodedColumns := df.encodedColumns["material_encoded" := mc];
    df.encodedColumns := df.encodedColumns["transport_encoded" := tc];
    df.encodedColumns := df.encodedColumns["intensity_encoded" := ic];
    x := FeatureMatrix(df.records, mc, tc, ic);
    y := TargetColumn(df.records);
    artifacts := Artifacts(model, me, te, ie, FeatureNames, metrics);
  }

  /** Decoding the codes in any row of X gives back that record's three categories. */
  lemma TrainingFeaturesDecode(rows: seq<TrainingRecord>, i: nat)
    requires i < |rows|
    ensures var (me, mc) := LabelEncoding.FitTransform(MaterialColumn(rows));
            var (te, tc) := LabelEncoding.FitTransform(TransportColumn(rows));
            var (ie, ic) := LabelEncoding.FitTransform(IntensityColumn(rows));
            var row := FeatureMatrix(rows, mc, tc, ic)[i];
            && LabelEncoding.InverseTransform(me, row[0].Floor) == Some(rows[i].material)
            && LabelEncoding.InverseTransform(te, row[2].Floor) == Some(rows[i].transportMode)
            && LabelEncoding.InverseTransform(ie, row[4].Floor) == Some(rows[i].intensity)
  {
    var (me, mc) := LabelEncoding.FitTransform(MaterialColumn(rows));
    var (te, tc) := LabelEncoding.FitTransform(TransportColumn(rows));
    var (ie, ic) := LabelEncoding.FitTransform(IntensityColumn(rows));
    var row := FeatureMatrix(rows, mc, tc, ic)[i];
    assert (mc[i] as real).Floor == mc[i];
    assert (tc[i] as real).Floor == tc[i];
    assert (ic[i] as real).Floor == ic[i];
  }
}
