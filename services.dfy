/**
 * The prediction service: the closed-form breakdown, compensation and equivalency
 * figures, the confidence band and the error contract of `predict`, and the
 * class-level state that holds the loaded model.
 */
module Services {
  import opened Wrappers
  import opened Numeric
  import opened Catalog
  import opened Text
  import Json
  import LabelEncoding
  import Training

  // ---------------------------------------------------------------------------
  // The breakdown tables (the service keeps its own copy, with fallbacks)

  /** The service's MATERIAL_FACTORS: kg CO2e per kg of material. */
  function BreakdownMaterialFactor(m: Material): real
  {
    match m
    case Cotton => 5.5
    case Polyester => 6.2
    case Wool => 10.4
    case Leather => 17.0
    case Steel => 2.8
    case Aluminum => 8.2
    case Plastic => 3.5
    case Glass => 0.9
    case Paper => 1.3
    case Wood => 0.5
    case Beef => 27.0
    case Lamb => 24.0
    case Pork => 12.1
    case Chicken => 6.9
    case Turkey => 10.9
    case FishFarmed => 5.1
    case FishWild => 2.9
    case Shrimp => 18.0
    case Milk => 1.9
    case Cheese => 13.5
    case Eggs => 4.8
    case Butter => 12.0
    case Tofu => 2.0
    case Lentils => 0.9
    case Beans => 1.0
    case Nuts => 2.3
    case Rice => 4.0
    case Wheat => 1.4
    case Oats => 1.6
    case Corn => 1.1
    case Tomatoes => 2.1
    case Potatoes => 0.5
    case Lettuce => 0.9
    case Apples => 0.4
    case Bananas => 0.7
  }

  lemma BreakdownFactorPositive(m: Material)
    ensures BreakdownMaterialFactor(m) > 0.0
  {
  }

  /** The service's copy of the material factors agrees with the training table. */
  lemma BreakdownFactorsMatchTraining(m: Material)
    ensures BreakdownMaterialFactor(m) == Training.MaterialFactors(m).0
  {
  }

  /** `MATERIAL_FACTORS.get(material, 3.0)`. */
  function MaterialRate(material: string): (r: real)
  {
    match ParseMaterial(material)
    case Some(m) => BreakdownMaterialFactor(m)
    case None => 3.0
  }

  lemma MaterialRatePositive(material: string)
    ensures MaterialRate(material) > 0.0
  {
    match ParseMaterial(material)
    case Some(m) => BreakdownFactorPositive(m);
    case None =>
  }

  /** `TRANSPORT_FACTORS.get(transport_mode, 0.1)`, the service's copy of the transport table. */
  function TransportRate(mode: string): (r: real)
    ensures r > 0.0
  {
    match ParseMode(mode)
    case Some(t) => Training.TransportFactors(t)
    case None => 0.1
  }

  /** `MANUFACTURING_BASE.get(intensity, 1.5)`, the service's copy of the manufacturing table. */
  function BaseRate(intensity: string): (r: real)
    ensures r > 0.0
  {
    match ParseIntensity(intensity)
    case Some(i) => Training.ManufacturingBase(i)
    case None => 1.5
  }

  /** The service multiplies every manufacturing base by this one constant. */
  const ManufacturingMultiplier: real := 1.4

  /** Listed keys use their table entry. */
  lemma RatesOnListedKeys(m: Material, t: TransportMode, i: Intensity)
    ensures MaterialRate(MaterialName(m)) == Training.MaterialFactors(m).0
    ensures TransportRate(ModeName(t)) == Training.TransportFactors(t)
    ensures BaseRate(IntensityName(i)) == Training.ManufacturingBase(i)
  {
    ParseMaterialName(m);
    ParseModeName(t);
    ParseIntensityName(i);
    BreakdownFactorsMatchTraining(m);
  }

  /** Any other key uses the fallback. */
  lemma RatesOnUnlistedKeys(other: string)
    requires ParseMaterial(other).None? && ParseMode(other).None? && ParseIntensity(other).None?
    ensures MaterialRate(other) == 3.0 && TransportRate(other) == 0.1 && BaseRate(other) == 1.5
  {
  }

  // ---------------------------------------------------------------------------
  // _calculate_breakdown

  /** The error a failing `predict` reports in its `error` field. */
  datatype PredictError =
    | UnseenLabel(category: Json.Value)  // an encoder's `transform` rejected a category
    | DivisionByZero                                 // the breakdown's total was zero

  datatype Breakdown = Breakdown(
    materialsPercent: real, manufacturingPercent: real, transportPercent: real,
    materialCo2: real, manufacturingCo2: real, transportCo2: real)

  /** `round((part / total) * 100, 1)`. */
  function Percent(part: real, total: real): (r: real)
    requires total != 0.0
    ensures -0.05 <= r - (part / total) * 100.0 <= 0.05
  {
    Round((part / total) * 100.0, 1)
  }

  /** The shares of three components in their own total, rounded to 0.1, and the components rounded to 0.01. */
  function Shares(materialCo2: real, manufacturingCo2: real, transportCo2: real): (r: Result<Breakdown, PredictError>)
    ensures r.Failure? <==> materialCo2 + manufacturingCo2 + transportCo2 == 0.0
    ensures r.Failure? ==> r.error == DivisionByZero
    ensures r.Success? ==>
              var total := materialCo2 + manufacturingCo2 + transportCo2;
              && -0.05 <= r.value.materialsPercent - (materialCo2 / total) * 100.0 <= 0.05
              && -0.05 <= r.value.manufacturingPercent - (manufacturingCo2 / total) * 100.0 <= 0.05
              && -0.05 <= r.value.transportPercent - (transportCo2 / total) * 100.0 <= 0.05
              && -0.005 <= r.value.materialCo2 - materialCo2 <= 0.005
              && -0.005 <= r.value.manufacturingCo2 - manufacturingCo2 <= 0.005
              && -0.005 <= r.value.transportCo2 - transportCo2 <= 0.005
  {
    var total := materialCo2 + manufacturingCo2 + transportCo2;
    if total == 0.0 then Failure(DivisionByZero)
    else
      Success(Breakdown(
        Percent(materialCo2, total), Percent(manufacturingCo2, total), Percent(transportCo2, total),
        Round(materialCo2, 2), Round(manufacturingCo2, 2), Round(transportCo2, 2)))
  }

  /** The breakdown at given rates: the components with the fixed 1.4 multiplier and their shares. */
  function BreakdownAtRates(weightKg: real, materialRate: real, baseRate: real, distanceKm: real, transportRate: real): (r: Result<Breakdown, PredictError>)
    ensures r.Failure? <==>
              weightKg * materialRate + weightKg * baseRate * ManufacturingMultiplier
              + weightKg * (distanceKm / 1000.0) * transportRate == 0.0
    ensures r.Failure? ==> r.error == DivisionByZero
  {
    var f := Training.Emissions(weightKg, materialRate, ManufacturingMultiplier, baseRate, distanceKm, transportRate);
    Shares(f.material, f.manufacturing, f.transport)
  }

  /** `_calculate_breakdown`. */
  function CalculateBreakdown(material: string, weightKg: real, mode: string, distanceKm: real, intensity: string): (r: Result<Breakdown, PredictError>)
    ensures r.Failure? ==> r.error == DivisionByZero
  {
    BreakdownAtRates(weightKg, MaterialRate(material), BaseRate(intensity), distanceKm, TransportRate(mode))
  }

  /**
   * The breakdown's components are three products, material weight times its
   * factor, weight times the base times 1.4, and weight times distance in thousands of km
   * times the mode's factor, each rounded to 0.01.
   */
  lemma CalculateBreakdownComponents(material: string, weightKg: real, mode: string, distanceKm: real, intensity: string)
    requires CalculateBreakdown(material, weightKg, mode, distanceKm, intensity).Success?
    ensures var r := CalculateBreakdown(material, weightKg, mode, distanceKm, intensity).value;
            && -0.005 <= r.materialCo2 - weightKg * MaterialRate(material) <= 0.005
            && -0.005 <= r.manufacturingCo2 - weightKg * BaseRate(intensity) * ManufacturingMultiplier <= 0.005
            && -0.005 <= r.transportCo2 - weightKg * (distanceKm / 1000.0) * TransportRate(mode) <= 0.005
  {
    BreakdownAtRatesComponents(weightKg, MaterialRate(material), BaseRate(intensity), distanceKm, TransportRate(mode));
  }

  /** At any rates, each rounded component is within 0.005 of its product. */
  lemma BreakdownAtRatesComponents(weightKg: real, materialRate: real, baseRate: real, distanceKm: real, transportRate: real)
    requires BreakdownAtRates(weightKg, materialRate, baseRate, distanceKm, transportRate).Success?
    ensures var r := BreakdownAtRates(weightKg, materialRate, baseRate, distanceKm, transportRate).value;
            && -0.005 <= r.materialCo2 - weightKg * materialRate <= 0.005
            && -0.005 <= r.manufacturingCo2 - weightKg * baseRate * ManufacturingMultiplier <= 0.005
            && -0.005 <= r.transportCo2 - weightKg * (distanceKm / 1000.0) * transportRate <= 0.005
  {
    var f := Training.Emissions(weightKg, materialRate, ManufacturingMultiplier, baseRate, distanceKm, transportRate);
    assert f.material == weightKg * materialRate;
    assert f.manufacturing == weightKg * baseRate * ManufacturingMultiplier;
    assert f.transport == weightKg * (distanceKm / 1000.0) * transportRate;
  }

  /** The unrounded shares add up to exactly 100. */
  lemma ExactSharesSumTo100(a: real, b: real, c: real)
    requires a + b + c != 0.0
    ensures (a / (a + b + c)) * 100.0 + (b / (a + b + c)) * 100.0 + (c / (a + b + c)) * 100.0 == 100.0
  {
    var t := a + b + c;
    assert a / t + b / t + c / t == (a + b + c) / t;
  }

  /** Each rounded percentage is off by at most 0.05, so the three add up to 100 within 0.15. */
  lemma RoundedSharesNearly100(a: real, b: real, c: real)
    requires a + b + c != 0.0
    ensures var r := Shares(a, b, c).value;
            99.85 <= r.materialsPercent + r.manufacturingPercent + r.transportPercent <= 100.15
  {
    ExactSharesSumTo100(a, b, c);
  }

  /** With non-negative components and a positive total, every percentage lies in [0, 100]. */
  lemma SharesArePercentages(a: real, b: real, c: real)
    requires a >= 0.0 && b >= 0.0 && c >= 0.0 && a + b + c > 0.0
    ensures var r := Shares(a, b, c).value;
            && 0.0 <= r.materialsPercent <= 100.0
            && 0.0 <= r.manufacturingPercent <= 100.0
            && 0.0 <= r.transportPercent <= 100.0
  {
    var t := a + b + c;
    ShareInUnitRange(a, t);
    ShareInUnitRange(b, t);
    ShareInUnitRange(c, t);
    RoundStaysInGridRange((a / t) * 100.0, 0, 1000, 1);
    RoundStaysInGridRange((b / t) * 100.0, 0, 1000, 1);
    RoundStaysInGridRange((c / t) * 100.0, 0, 1000, 1);
  }

  lemma ShareInUnitRange(x: real, t: real)
    requires 0.0 <= x <= t && t > 0.0
    ensures 0.0 <= (x / t) * 100.0 <= 100.0
  {
    assert x / t <= 1.0;
  }

  /** Scaling all three components by the same non-zero factor leaves the percentages unchanged. */
  lemma SharesIgnoreScale(a: real, b: real, c: real, k: real, a2: real, b2: real, c2: real)
    requires a + b + c != 0.0 && k != 0.0
    requires a2 == k * a && b2 == k * b && c2 == k * c
    ensures a2 + b2 + c2 != 0.0
    ensures var r := Shares(a, b, c).value;
            var s := Shares(a2, b2, c2).value;
            s.materialsPercent == r.materialsPercent && s.manufacturingPercent == r.manufacturingPercent
            && s.transportPercent == r.transportPercent
  {
    ScaledShare(a, a, b, c, k);
    ScaledShare(b, a, b, c, k);
    ScaledShare(c, a, b, c, k);
    SharesDependOnQuotients(a, b, c, a2, b2, c2);
  }

  lemma SharesDependOnQuotients(a: real, b: real, c: real, a2: real, b2: real, c2: real)
    requires a + b + c != 0.0 && a2 + b2 + c2 != 0.0
    requires a2 / (a2 + b2 + c2) == a / (a + b + c)
    requires b2 / (a2 + b2 + c2) == b / (a + b + c)
    requires c2 / (a2 + b2 + c2) == c / (a + b + c)
    ensures var r := Shares(a, b, c).value;
            var s := Shares(a2, b2, c2).value;
            s.materialsPercent == r.materialsPercent && s.manufacturingPercent == r.manufacturingPercent
            && s.transportPercent == r.transportPercent
  {
  }

  /** With a positive weight and a non-negative distance the breakdown always succeeds, with every share in [0, 100]. */
  lemma BreakdownOfValidatedInput(material: string, weightKg: real, mode: string, distanceKm: real, intensity: string)
    requires weightKg > 0.0 && distanceKm >= 0.0
    ensures var r := CalculateBreakdown(material, weightKg, mode, distanceKm, intensity);
            && r.Success?
            && 0.0 <= r.value.materialsPercent <= 100.0
            && 0.0 <= r.value.manufacturingPercent <= 100.0
            && 0.0 <= r.value.transportPercent <= 100.0
  {
    var f := Training.Emissions(weightKg, MaterialRate(material), ManufacturingMultiplier, BaseRate(intensity), distanceKm, TransportRate(mode));
    MaterialRatePositive(material);
    ComponentsPositive(weightKg, MaterialRate(material), BaseRate(intensity), distanceKm, TransportRate(mode));
    SharesArePercentages(f.material, f.manufacturing, f.transport);
  }

  lemma ComponentsPositive(w: real, bf: real, mb: real, d: real, tf: real)
    requires w > 0.0 && bf > 0.0 && mb > 0.0 && d >= 0.0 && tf > 0.0
    ensures var f := Training.Emissions(w, bf, ManufacturingMultiplier, mb, d, tf);
            f.material > 0.0 && f.manufacturing > 0.0 && f.transport >= 0.0
  {
    assert w * bf > 0.0;
    assert w * mb > 0.0;
    assert w * (d / 1000.0) >= 0.0;
  }

  /** The shares do not depend on the weight: every component is proportional to it. */
  lemma BreakdownIndependentOfWeight(material: string, weightKg: real, k: real, mode: string, distanceKm: real, intensity: string)
    requires weightKg > 0.0 && k > 0.0 && distanceKm >= 0.0
    ensures CalculateBreakdown(material, weightKg, mode, distanceKm, intensity).Success?
    ensures CalculateBreakdown(material, k * weightKg, mode, distanceKm, intensity).Success?
    ensures var r := CalculateBreakdown(material, weightKg, mode, distanceKm, intensity).value;
            var s := CalculateBreakdown(material, k * weightKg, mode, distanceKm, intensity).value;
            s.materialsPercent == r.materialsPercent && s.manufacturingPercent == r.manufacturingPercent
            && s.transportPercent == r.transportPercent
  {
    MaterialRatePositive(material);
    SharesIgnoreWeight(weightKg, k, MaterialRate(material), BaseRate(intensity), distanceKm, TransportRate(mode));
  }

  lemma SharesIgnoreWeight(w: real, k: real, bf: real, mb: real, d: real, tf: real)
    requires w > 0.0 && k > 0.0 && d >= 0.0 && bf > 0.0 && mb > 0.0 && tf > 0.0
    ensures BreakdownAtRates(w, bf, mb, d, tf).Success? && BreakdownAtRates(k * w, bf, mb, d, tf).Success?
    ensures var r := BreakdownAtRates(w, bf, mb, d, tf).value;
            var s := BreakdownAtRates(k * w, bf, mb, d, tf).value;
            s.materialsPercent == r.materialsPercent && s.manufacturingPercent == r.manufacturingPercent
            && s.transportPercent == r.transportPercent
  {
    var f := Training.Emissions(w, bf, ManufacturingMultiplier, mb, d, tf);
    var g := Training.Emissions(k * w, bf, ManufacturingMultiplier, mb, d, tf);
    Training.EmissionsScaleWithWeight(w, k, bf, ManufacturingMultiplier, mb, d, tf);
    ComponentsPositive(w, bf, mb, d, tf);
    SharesIgnoreScale(f.material, f.manufacturing, f.transport, k, g.material, g.manufacturing, g.transport);
  }

  /**
   * On the tables' own keys the breakdown's material and transport figures are the training
   * formula's; its manufacturing figure is not, as it uses 1.4 where training uses the material's
   * own multiplier (see `Training.EmissionsDifferInMultiplier`).
   */
  lemma BreakdownVersusTraining(m: Material, w: real, t: TransportMode, d: real, i: Intensity)
    ensures var b := Training.Emissions(w, MaterialRate(MaterialName(m)), ManufacturingMultiplier,
                                        BaseRate(IntensityName(i)), d, TransportRate(ModeName(t)));
            var f := Training.FootprintOf(m, w, t, d, i);
            && b.material == f.material && b.transport == f.transport
            && b == Training.Emissions(w, Training.MaterialFactors(m).0, ManufacturingMultiplier,
                                       Training.ManufacturingBase(i), d, Training.TransportFactors(t))
  {
    RatesOnListedKeys(m, t, i);
  }

  /** 0.5 kg of cotton flown 8000 km, medium processing: 2.75 + 1.05 + 3.8 = 7.6 kg, shared 36.2 / 13.8 / 50.0. */
  lemma CottonBreakdownExample()
    ensures CalculateBreakdown("Cotton", 0.5, "AIR", 8000.0, "MEDIUM") == Success(Breakdown(36.2, 13.8, 50.0, 2.75, 1.05, 3.8))
  {
    RatesOnListedKeys(Cotton, Air, Medium);
    assert MaterialRate("Cotton") == 5.5 && BaseRate("MEDIUM") == 1.5 && TransportRate("AIR") == 0.95;
    assert Training.Emissions(0.5, 5.5, ManufacturingMultiplier, 1.5, 8000.0, 0.95) == Training.Footprint(7.6, 2.75, 1.05, 3.8);
    CottonShares();
  }

  lemma CottonShares()
    ensures Shares(2.75, 1.05, 3.8) == Success(Breakdown(36.2, 13.8, 50.0, 2.75, 1.05, 3.8))
  {
    PercentNear(2.75, 7.6, 362);
    PercentNear(1.05, 7.6, 138);
    PercentNear(3.8, 7.6, 500);
    RoundOnGrid(275, 2);
    RoundOnGrid(105, 2);
    RoundOnGrid(380, 2);
  }

  /** A share within half a step of k tenths of a percent is reported as k tenths. */
  lemma PercentNear(part: real, total: real, k: int)
    requires total != 0.0
    requires k as real - 0.5 < (part / total) * 1000.0 < k as real + 0.5
    ensures Percent(part, total) == k as real / 10.0
  {
    RoundToNearest((part / total) * 100.0, 1, k);
  }

  /** For that cotton item the service reports 1.05 kg for manufacturing where the training label has 0.975. */
  lemma ManufacturingDiffersFromTraining()
    ensures var b := CalculateBreakdown("Cotton", 0.5, "AIR", 8000.0, "MEDIUM");
            b.Success? && b.value.manufacturingCo2 == 1.05
    ensures var f := Training.CalculateCarbonFootprint("Cotton", 0.5, "AIR", 8000.0, "MEDIUM");
            f.Success? && f.value.manufacturing == 0.975
  {
    CottonBreakdownExample();
    Training.CottonByAirExample();
  }

  // ---------------------------------------------------------------------------
  // _calculate_compensation

  datatype Compensation = Compensation(
    treesPerYear: real, treesDisplay: nat, recCredits: real, daysVegan: real, message: string)

  /** `max(int(np.ceil(co2 / 20)), 1)`: the whole number of trees shown, one tree absorbing 20 kg a year. */
  function TreesDisplay(co2Kg: real): (n: nat)
    ensures n >= 1
    ensures co2Kg <= n as real * 20.0
    ensures n == 1 || (n - 1) as real * 20.0 < co2Kg
  {
    var c := Ceil(co2Kg / 20.0);
    if c < 1 then 1 else c
  }

  /** No smaller number of trees absorbs the footprint: the count shown is the least one that does. */
  lemma FewestTrees(co2Kg: real, n: nat)
    requires n >= 1 && co2Kg <= n as real * 20.0
    ensures TreesDisplay(co2Kg) <= n
  {
    var t := TreesDisplay(co2Kg);
    if t > n {
      assert false;
    }
  }

  function CalculateCompensation(co2Kg: real): (c: Compensation)
    ensures c.treesPerYear >= 0.01
    ensures co2Kg / 20.0 >= 0.015 ==> -0.005 <= c.treesPerYear - co2Kg / 20.0 <= 0.005
    ensures co2Kg / 20.0 >= 0.015 ==> c.treesPerYear == Round(co2Kg / 20.0, 2)
    ensures co2Kg / 20.0 < 0.015 ==> c.treesPerYear == 0.01
    ensures c.treesDisplay >= 1 && co2Kg <= c.treesDisplay as real * 20.0
    ensures c.treesDisplay == 1 || (c.treesDisplay - 1) as real * 20.0 < co2Kg
    ensures -0.0005 <= c.recCredits - co2Kg / 1000.0 <= 0.0005
    ensures -0.05 <= c.daysVegan - co2Kg * 0.4 <= 0.05
    ensures c.message == "Plant " + NatToString(c.treesDisplay) + (if c.treesDisplay > 1 then " trees" else " tree")
                         + " to offset this footprint"
  {
    var treesNeeded := co2Kg / 20.0;
    var perYear := Round(treesNeeded, 2);
    assert treesNeeded < 0.015 ==> perYear <= 0.01 by {
      if treesNeeded < 0.015 {
        assert perYear == RoundHalfEven(treesNeeded * 100.0) as real / 100.0;
        assert RoundHalfEven(treesNeeded * 100.0) <= 1;
      }
    }
    var display := TreesDisplay(co2Kg);
    var plural := if treesNeeded > 1.0 then "s" else "";
    assert " tree" + plural == (if display > 1 then " trees" else " tree");
    Compensation(if perYear < 0.01 then 0.01 else perYear, display, Round(co2Kg / 1000.0, 3),
                 Round(co2Kg / 2.5, 1), "Plant " + NatToString(display) + " tree" + plural + " to offset this footprint")
  }

  /** 40 kg: two trees for a year, 0.04 credits, 16 vegan days, and the plural message. */
  lemma CompensationExample()
    ensures var c := CalculateCompensation(40.0);
            && c.treesPerYear == 2.0 && c.treesDisplay == 2 && c.recCredits == 0.04 && c.daysVegan == 16.0
            && c.message == "Plant " + "2" + " trees" + " to offset this footprint"
  {
    RoundOnGrid(200, 2);
    RoundOnGrid(40, 3);
    RoundOnGrid(160, 1);
    assert NatToString(2) == "2";
  }

  /** With at most 20 kg one tree suffices, and the message says "tree". */
  lemma SingleTreeMessage(co2Kg: real)
    requires co2Kg <= 20.0
    ensures CalculateCompensation(co2Kg).treesDisplay == 1
    ensures CalculateCompensation(co2Kg).message == "Plant " + "1" + " tree" + " to offset this footprint"
  {
    assert NatToString(1) == "1";
  }

  // ---------------------------------------------------------------------------
  // _get_equivalency

  datatype Equivalency = Equivalency(carKm: real, smartphoneCharges: int, washingLoads: real)

  function GetEquivalency(co2Kg: real): (e: Equivalency)
    ensures -0.05 <= e.carKm - 4.0 * co2Kg <= 0.05
    ensures co2Kg >= 0.0 ==> e.smartphoneCharges >= 0 && e.smartphoneCharges as real * 0.008 <= co2Kg < (e.smartphoneCharges + 1) as real * 0.008
    ensures co2Kg < 0.0 ==> e.smartphoneCharges <= 0 && (e.smartphoneCharges - 1) as real * 0.008 < co2Kg <= e.smartphoneCharges as real * 0.008
    ensures -0.05 <= e.washingLoads - co2Kg / 0.6 <= 0.05
  {
    Equivalency(Round(co2Kg / 0.25, 1), Trunc(co2Kg / 0.008), Round(co2Kg / 0.6, 1))
  }

  /** 25 kg: 100 km of driving, 3125 phone charges, 41.7 washing loads. */
  lemma EquivalencyExample()
    ensures GetEquivalency(25.0) == Equivalency(100.0, 3125, 41.7)
  {
    RoundOnGrid(1000, 1);
    RoundToNearest(25.0 / 0.6, 1, 417);
  }

  // ---------------------------------------------------------------------------
  // The confidence band

  datatype Band = Band(lower: real, upper: real)

  /** `round(p * 0.92, 2)` and `round(p * 1.08, 2)`. */
  function ConfidenceInterval(p: real): (b: Band)
    ensures -0.005 <= b.lower - 0.92 * p <= 0.005
    ensures -0.005 <= b.upper - 1.08 * p <= 0.005
  {
    Band(Round(p * 0.92, 2), Round(p * 1.08, 2))
  }

  /** A non-negative estimate, rounded as reported, lies inside its band; a non-positive one has the band reversed. */
  lemma BandBracketsEstimate(p: real)
    ensures p >= 0.0 ==> ConfidenceInterval(p).lower <= Round(p, 2) <= ConfidenceInterval(p).upper
    ensures p <= 0.0 ==> ConfidenceInterval(p).upper <= Round(p, 2) <= ConfidenceInterval(p).lower
  {
    if p >= 0.0 {
      RoundMonotone(p * 0.92, p, 2);
      RoundMonotone(p, p * 1.08, 2);
    } else {
      RoundMonotone(p * 1.08, p, 2);
      RoundMonotone(p, p * 0.92, 2);
    }
  }

  // ---------------------------------------------------------------------------
  // predict

  datatype Prediction = Prediction(
    co2Kg: real, breakdown: Breakdown, compensation: Compensation, equivalency: Equivalency, confidenceInterval: Band)

  /** What a call to `predict` ends in. */
  datatype Outcome =
    | ModelNotLoaded               // raised before the try block: RuntimeError("Model not loaded")
    | Failed(error: PredictError)  // {'success': False, 'error': str(e)}, no other field
    | Predicted(result: Prediction) // {'success': True, ...}, every field present

  /** The category is one the encoder was fitted on. */
  predicate Known(e: LabelEncoding.LabelEncoder, v: Json.Value)
  {
    v.Str? && v.s in e.classes
  }

  /** `encoder.transform([v])[0]`: the category's code, or the error for a category not seen in training. */
  function Encode(e: LabelEncoding.LabelEncoder, v: Json.Value): (r: Result<nat, PredictError>)
    ensures r.Success? <==> Known(e, v)
    ensures r.Success? ==> r.value < |e.classes| && e.classes[r.value] == v.s
    ensures r.Failure? ==> r.error == UnseenLabel(v)
  {
    if v.Str? then
      match LabelEncoding.Transform(e, v.s)
      case Some(code) => Success(code)
      case None => Failure(UnseenLabel(v))
    else Failure(UnseenLabel(v))
  }

  /** The feature vector of a request, its three categories encoded in the order material, transport, intensity. */
  function EncodeFeatures(a: Training.Artifacts, material: Json.Value, weightKg: real, mode: Json.Value,
                          distanceKm: real, intensity: Json.Value): (r: Result<seq<real>, PredictError>)
    ensures r.Success? <==> Known(a.materialEncoder, material) && Known(a.transportEncoder, mode) && Known(a.intensityEncoder, intensity)
    ensures !Known(a.materialEncoder, material) ==> r == Failure(UnseenLabel(material))
    ensures Known(a.materialEncoder, material) && !Known(a.transportEncoder, mode) ==> r == Failure(UnseenLabel(mode))
    ensures Known(a.materialEncoder, material) && Known(a.transportEncoder, mode) && !Known(a.intensityEncoder, intensity)
            ==> r == Failure(UnseenLabel(intensity))
    ensures r.Success? ==>
              && |r.value| == |Training.FeatureNames|
              && LabelEncoding.InverseTransform(a.materialEncoder, r.value[0].Floor) == Some(material.s)
              && r.value[1] == weightKg
              && LabelEncoding.InverseTransform(a.transportEncoder, r.value[2].Floor) == Some(mode.s)
              && r.value[3] == distanceKm
              && LabelEncoding.InverseTransform(a.intensityEncoder, r.value[4].Floor) == Some(intensity.s)
  {
    match Encode(a.materialEncoder, material)
    case Failure(e) => Failure(e)
    case Success(mc) =>
      match Encode(a.transportEncoder, mode)
      case Failure(e) => Failure(e)
      case Success(tc) =>
        match Encode(a.intensityEncoder, intensity)
        case Failure(e) => Failure(e)
        case Success(ic) =>
          assert (mc as real).Floor == mc && (tc as real).Floor == tc && (ic as real).Floor == ic;
          Success(Training.FeatureVector(mc, weightKg, tc, distanceKm, ic))
  }

  /** The reported figures, all derived from the one unrounded estimate `raw`. */
  function Report(raw: real, b: Breakdown): (p: Prediction)
    ensures -0.005 <= p.co2Kg - raw <= 0.005
    ensures raw >= 0.0 ==> p.confidenceInterval.lower <= p.co2Kg <= p.confidenceInterval.upper
    ensures p.co2Kg > 0.0 ==> raw > 0.0
    ensures p == Prediction(Round(raw, 2), b, CalculateCompensation(raw), GetEquivalency(raw), ConfidenceInterval(raw))
  {
    BandBracketsEstimate(raw);
    RoundKeepsSign(raw, 2);
    Prediction(Round(raw, 2), b, CalculateCompensation(raw), GetEquivalency(raw), ConfidenceInterval(raw))
  }

  /** `predict` on the loaded artifacts, if any. */
  function PredictWith(artifacts: Option<Training.Artifacts>, material: Json.Value, weightKg: real, mode: Json.Value,
                       distanceKm: real, intensity: Json.Value): (o: Outcome)
    ensures o.ModelNotLoaded? <==> artifacts.None?
    ensures artifacts.Some? ==>
              var a := artifacts.value;
              && (o.Predicted? <==>
                    EncodeFeatures(a, material, weightKg, mode, distanceKm, intensity).Success?
                    && CalculateBreakdown(material.s, weightKg, mode.s, distanceKm, intensity.s).Success?)
              && (EncodeFeatures(a, material, weightKg, mode, distanceKm, intensity).Failure? ==>
                    o == Failed(EncodeFeatures(a, material, weightKg, mode, distanceKm, intensity).error))
              && (EncodeFeatures(a, material, weightKg, mode, distanceKm, intensity).Success?
                  && CalculateBreakdown(material.s, weightKg, mode.s, distanceKm, intensity.s).Failure? ==>
                    o == Failed(DivisionByZero))
    ensures o.Predicted? ==>
              && o.result.breakdown == CalculateBreakdown(material.s, weightKg, mode.s, distanceKm, intensity.s).value
              && (o.result.co2Kg > 0.0 ==> o.result.confidenceInterval.lower <= o.result.co2Kg <= o.result.confidenceInterval.upper)
    ensures o.Predicted? ==>
              && artifacts.Some? && EncodeFeatures(artifacts.value, material, weightKg, mode, distanceKm, intensity).Success?
              && o.result == Report(artifacts.value.model(EncodeFeatures(artifacts.value, material, weightKg, mode, distanceKm, intensity).value),
                                    o.result.breakdown)
  {
    match artifacts
    case None => ModelNotLoaded
    case Some(a) =>
      match EncodeFeatures(a, material, weightKg, mode, distanceKm, intensity)
      case Failure(e) => Failed(e)
      case Success(x) =>
        var raw := a.model(x);
        match CalculateBreakdown(material.s, weightKg, mode.s, distanceKm, intensity.s)
        case Failure(e) => Failed(e)
        case Success(b) => Predicted(Report(raw, b))
  }

  /** An unknown material never yields a partial result: the whole call fails, naming the category. */
  lemma UnknownMaterialFails(a: Training.Artifacts, material: string, weightKg: real, mode: Json.Value,
                             distanceKm: real, intensity: Json.Value)
    requires material !in a.materialEncoder.classes
    ensures PredictWith(Some(a), Json.Str(material), weightKg, mode, distanceKm, intensity)
            == Failed(UnseenLabel(Json.Str(material)))
  {
  }

  /** A request the view has validated, on categories the encoders know, always gets a full prediction. */
  lemma ValidatedKnownRequestSucceeds(a: Training.Artifacts, material: string, weightKg: real, mode: string,
                                      distanceKm: real, intensity: string)
    requires material in a.materialEncoder.classes && mode in a.transportEncoder.classes
    requires intensity in a.intensityEncoder.classes
    requires weightKg > 0.0 && distanceKm >= 0.0
    ensures PredictWith(Some(a), Json.Str(material), weightKg, Json.Str(mode), distanceKm, Json.Str(intensity)).Predicted?
  {
    BreakdownOfValidatedInput(material, weightKg, mode, distanceKm, intensity);
  }

  // ---------------------------------------------------------------------------
  // The service object and its class-level state

  datatype LoadError = ModelFileNotFound

  datatype ModelInfo = ModelInfo(r2Score: real, rmse: real, mae: real, featureNames: seq<string>)

  /** `get_available_materials`: the material encoder's classes, or none without a model. */
  function AvailableMaterials(artifacts: Option<Training.Artifacts>): (r: seq<string>)
    ensures artifacts.None? ==> r == []
    ensures artifacts.Some? ==> r == artifacts.value.materialEncoder.classes
    ensures forall v :: v in r ==> artifacts.Some? && Known(artifacts.value.materialEncoder, Json.Str(v))
  {
    if artifacts.Some? then artifacts.value.materialEncoder.classes else []
  }

  /** `get_model_info`. */
  function ModelInfoOf(artifacts: Option<Training.Artifacts>): (r: Option<ModelInfo>)
    ensures r.Some? <==> artifacts.Some?
    ensures r.Some? ==> r.value.featureNames == artifacts.value.featureNames
                        && r.value.r2Score == artifacts.value.metrics.r2Score
                        && r.value.rmse == artifacts.value.metrics.rmse
                        && r.value.mae == artifacts.value.metrics.mae
  {
    match artifacts
    case None => None
    case Some(a) => Some(ModelInfo(a.metrics.r2Score, a.metrics.rmse, a.metrics.mae, a.featureNames))
  }

  /** On a model trained by `train_model`, the materials offered are the training rows' materials, sorted, each once. */
  lemma TrainedMaterialsAvailable(rows: seq<Training.TrainingRecord>, a: Training.Artifacts, v: string)
    requires a.materialEncoder == LabelEncoding.FitTransform(Training.MaterialColumn(rows)).0
    ensures LabelEncoding.StrictlySorted(AvailableMaterials(Some(a)))
    ensures v in AvailableMaterials(Some(a)) <==> exists i :: 0 <= i < |rows| && rows[i].material == v
  {
    var c := Training.MaterialColumn(rows);
    if v in c {
      var i :| 0 <= i < |c| && c[i] == v;
      assert rows[i].material == v;
    }
  }

  /**
   * The service. `created` stands for the class-level `_instance` being set and `artifacts`
   * for `_model_artifacts`; one object plays the class for the lifetime of the process.
   */
  class CarbonFootprintService {
    var created: bool
    var artifacts: Option<Training.Artifacts>

    /** The process before any request has constructed the service. */
    constructor ()
      ensures !created && artifacts == None
    {
      created := false;
      artifacts := None;
    }

    /**
     * `CarbonFootprintService()`: the first call marks the instance as created and then loads
     * the model file (absent here as `None`), raising if it is missing. The instance stays
     * cached even when the load raised, so every later call succeeds without loading again.
     */
    method Instance(modelFile: Option<Training.Artifacts>) returns (r: Result<(), LoadError>)
      modifies this
      ensures created
      ensures old(created) ==> artifacts == old(artifacts) && r.Success?
      ensures !old(created) && modelFile.Some? ==> artifacts == modelFile && r.Success?
      ensures !old(created) && modelFile.None? ==> artifacts == old(artifacts) && r == Failure(ModelFileNotFound)
    {
      if created {
        r := Success(());
      } else {
        created := true;
        if modelFile.Some? {
          artifacts := modelFile;
          r := Success(());
        } else {
          r := Failure(ModelFileNotFound);
        }
      }
    }

    method Predict(material: Json.Value, weightKg: real, mode: Json.Value, distanceKm: real, intensity: Json.Value)
      returns (o: Outcome)
      ensures o == PredictWith(artifacts, material, weightKg, mode, distanceKm, intensity)
    {
      o := PredictWith(artifacts, material, weightKg, mode, distanceKm, intensity);
    }

    method GetAvailableMaterials() returns (r: seq<string>)
      ensures r == AvailableMaterials(artifacts)
    {
      r := AvailableMaterials(artifacts);
    }

    method GetModelInfo() returns (r: Option<ModelInfo>)
      ensures r == ModelInfoOf(artifacts)
    {
      r := ModelInfoOf(artifacts);
    }
  }

  /** A failed first load is cached: the next construction does not retry, and prediction then reports the missing model. */
  method FailedLoadIsCached(s: CarbonFootprintService, later: Option<Training.Artifacts>, material: Json.Value,
                            weightKg: real, mode: Json.Value, distanceKm: real, intensity: Json.Value)
    returns (first: Result<(), LoadError>, second: Result<(), LoadError>, o: Outcome)
    requires !s.created && s.artifacts == None
    modifies s
    ensures first == Failure(ModelFileNotFound) && second.Success? && o == ModelNotLoaded
  {
    first := s.Instance(None);
    second := s.Instance(later);
    o := s.Predict(material, weightKg, mode, distanceKm, intensity);
  }
}
