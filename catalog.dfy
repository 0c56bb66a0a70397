/**
 * The categories the system knows: 35 materials, four transport modes and three
 * manufacturing intensities. Each is an enumeration with the string key that the
 * emission tables, the encoders and the JSON API use for it.
 */
module Catalog {
  import opened Wrappers

  datatype Material =
    // manufacturing materials
      Cotton | Polyester | Wool | Leather | Steel | Aluminum | Plastic | Glass | Paper | Wood
    // animal products
    | Beef | Lamb | Pork | Chicken | Turkey
    // seafood
    | FishFarmed | FishWild | Shrimp
    // dairy and eggs
    | Milk | Cheese | Eggs | Butter
    // plant-based proteins
    | Tofu | Lentils | Beans | Nuts
    // grains and staples
    | Rice | Wheat | Oats | Corn
    // vegetables and fruits
    | Tomatoes | Potatoes | Lettuce | Apples | Bananas

  datatype TransportMode = Air | Sea | Road | Rail

  datatype Intensity = Low | Medium | High

  /** The table key of a material. */
  function MaterialName(m: Material): string
  {
    match m
    case Cotton => "Cotton"
    case Polyester => "Polyester"
    case Wool => "Wool"
    case Leather => "Leather"
    case Steel => "Steel"
    case Aluminum => "Aluminum"
    case Plastic => "Plastic"
    case Glass => "Glass"
    case Paper => "Paper"
    case Wood => "Wood"
    case Beef => "Beef"
    case Lamb => "Lamb"
    case Pork => "Pork"
    case Chicken => "Chicken"
    case Turkey => "Turkey"
    case FishFarmed => "Fish_Farmed"
    case FishWild => "Fish_Wild"
    case Shrimp => "Shrimp"
    case Milk => "Milk"
    case Cheese => "Cheese"
    case Eggs => "Eggs"
    case Butter => "Butter"
    case Tofu => "Tofu"
    case Lentils => "Lentils"
    case Beans => "Beans"
    case Nuts => "Nuts"
    case Rice => "Rice"
    case Wheat => "Wheat"
    case Oats => "Oats"
    case Corn => "Corn"
    case Tomatoes => "Tomatoes"
    case Potatoes => "Potatoes"
    case Lettuce => "Lettuce"
    case Apples => "Apples"
    case Bananas => "Bananas"
  }

  /** The table key of a transport mode. */
  function ModeName(t: TransportMode): string
  {
    match t
    case Air => "AIR"
    case Sea => "SEA"
    case Road => "ROAD"
    case Rail => "RAIL"
  }

  /** The table key of a manufacturing intensity. */
  function IntensityName(i: Intensity): string
  {
    match i
    case Low => "LOW"
    case Medium => "MEDIUM"
    case High => "HIGH"
  }

  /** The sections of the material table. */
  datatype MaterialGroup = ManufacturingMaterials | AnimalProducts | Seafood | DairyAndEggs | PlantProteins | GrainsAndStaples | VegetablesAndFruits

  /** The section a material is listed under. */
  function GroupOf(m: Material): MaterialGroup
  {
    match m
    case Cotton | Polyester | Wool | Leather | Steel | Aluminum | Plastic | Glass | Paper | Wood => ManufacturingMaterials
    case Beef | Lamb | Pork | Chicken | Turkey => AnimalProducts
    case FishFarmed | FishWild | Shrimp => Seafood
    case Milk | Cheese | Eggs | Butter => DairyAndEggs
    case Tofu | Lentils | Beans | Nuts => PlantProteins
    case Rice | Wheat | Oats | Corn => GrainsAndStaples
    case Tomatoes | Potatoes | Lettuce | Apples | Bananas => VegetablesAndFruits
  }

  /** The materials of one section, in table order. */
  function Members(g: MaterialGroup): seq<Material>
  {
    match g
    case ManufacturingMaterials => [Cotton, Polyester, Wool, Leather, Steel, Aluminum, Plastic, Glass, Paper, Wood]
    case AnimalProducts => [Beef, Lamb, Pork, Chicken, Turkey]
    case Seafood => [FishFarmed, FishWild, Shrimp]
    case DairyAndEggs => [Milk, Cheese, Eggs, Butter]
    case PlantProteins => [Tofu, Lentils, Beans, Nuts]
    case GrainsAndStaples => [Rice, Wheat, Oats, Corn]
    case VegetablesAndFruits => [Tomatoes, Potatoes, Lettuce, Apples, Bananas]
  }

  /** The materials in the order the tables list them: the sections one after another. */
  const Materials: seq<Material> :=
    Members(ManufacturingMaterials) + Members(AnimalProducts) + Members(Seafood) + Members(DairyAndEggs)
    + Members(PlantProteins) + Members(GrainsAndStaples) + Members(VegetablesAndFruits)

  /** The transport modes in table order. */
  const TransportModes: seq<TransportMode> := [Air, Sea, Road, Rail]

  /** The intensities in table order. */
  const Intensities: seq<Intensity> := [Low, Medium, High]

  /** Every category appears in its key list. */
  lemma KeyListsComplete()
    ensures forall m: Material :: m in Materials
    ensures forall t: TransportMode :: t in TransportModes
    ensures forall i: Intensity :: i in Intensities
  {
    forall m: Material ensures m in Materials {
      MaterialListed(m);
    }
    forall t: TransportMode ensures t in TransportModes {
      match t
      case Air => assert TransportModes[0] == t;
      case Sea => assert TransportModes[1] == t;
      case Road => assert TransportModes[2] == t;
      case Rail => assert TransportModes[3] == t;
    }
    forall i: Intensity ensures i in Intensities {
      match i
      case Low => assert Intensities[0] == i;
      case Medium => assert Intensities[1] == i;
      case High => assert Intensities[2] == i;
    }
  }

  /** Every material appears in the material list. */
  lemma MaterialListed(m: Material)
    ensures m in Materials
  {
    match GroupOf(m)
    case ManufacturingMaterials => ManufacturingMaterialsListed(m);
    case AnimalProducts => AnimalProductsListed(m);
    case Seafood => SeafoodListed(m);
    case DairyAndEggs => DairyAndEggsListed(m);
    case PlantProteins => PlantProteinsListed(m);
    case GrainsAndStaples => GrainsAndStaplesListed(m);
    case VegetablesAndFruits => VegetablesAndFruitsListed(m);
  }

  lemma ManufacturingMaterialsListed(m: Material)
    requires GroupOf(m) == ManufacturingMaterials
    ensures m in Members(ManufacturingMaterials)
  {
  }

  lemma AnimalProductsListed(m: Material)
    requires GroupOf(m) == AnimalProducts
    ensures m in Members(AnimalProducts)
  {
  }

  lemma SeafoodListed(m: Material)
    requires GroupOf(m) == Seafood
    ensures m in Members(Seafood)
  {
  }

  lemma DairyAndEggsListed(m: Material)
    requires GroupOf(m) == DairyAndEggs
    ensures m in Members(DairyAndEggs)
  {
  }

  lemma PlantProteinsListed(m: Material)
    requires GroupOf(m) == PlantProteins
    ensures m in Members(PlantProteins)
  {
  }

  lemma GrainsAndStaplesListed(m: Material)
    requires GroupOf(m) == GrainsAndStaples
    ensures m in Members(GrainsAndStaples)
  {
  }

  lemma VegetablesAndFruitsListed(m: Material)
    requires GroupOf(m) == VegetablesAndFruits
    ensures m in Members(VegetablesAndFruits)
  {
  }

  /** Different categories have different keys, so a key names at most one category. */
  lemma MaterialNamesDistinct(a: Material, b: Material)
    ensures MaterialName(a) == MaterialName(b) ==> a == b
  {
    FingerprintIdentifies(a);
    FingerprintIdentifies(b);
  }

  /** Length, first and last character of a key: enough to tell the material keys apart. */
  function Fingerprint(s: string): (int, char, char)
  {
    if s == [] then (0, ' ', ' ') else (|s|, s[0], s[|s| - 1])
  }

  /** The material whose key has the given fingerprint. */
  function MaterialWithFingerprint(fp: (int, char, char)): Option<Material>
  {
    match fp
    case (6, 'C', 'n') => Some(Cotton)
    case (9, 'P', 'r') => Some(Polyester)
    case (4, 'W', 'l') => Some(Wool)
    case (7, 'L', 'r') => Some(Leather)
    case (5, 'S', 'l') => Some(Steel)
    case (8, 'A', 'm') => Some(Aluminum)
    case (7, 'P', 'c') => Some(Plastic)
    case (5, 'G', 's') => Some(Glass)
    case (5, 'P', 'r') => Some(Paper)
    case (4, 'W', 'd') => Some(Wood)
    case (4, 'B', 'f') => Some(Beef)
    case (4, 'L', 'b') => Some(Lamb)
    case (4, 'P', 'k') => Some(Pork)
    case (7, 'C', 'n') => Some(Chicken)
    case (6, 'T', 'y') => Some(Turkey)
    case (11, 'F', 'd') => Some(FishFarmed)
    case (9, 'F', 'd') => Some(FishWild)
    case (6, 'S', 'p') => Some(Shrimp)
    case (4, 'M', 'k') => Some(Milk)
    case (6, 'C', 'e') => Some(Cheese)
    case (4, 'E', 's') => Some(Eggs)
    case (6, 'B', 'r') => Some(Butter)
    case (4, 'T', 'u') => Some(Tofu)
    case (7, 'L', 's') => Some(Lentils)
    case (5, 'B', 's') => Some(Beans)
    case (4, 'N', 's') => Some(Nuts)
    case (4, 'R', 'e') => Some(Rice)
    case (5, 'W', 't') => Some(Wheat)
    case (4, 'O', 's') => Some(Oats)
    case (4, 'C', 'n') => Some(Corn)
    case (8, 'T', 's') => Some(Tomatoes)
    case (8, 'P', 's') => Some(Potatoes)
    case (7, 'L', 'e') => Some(Lettuce)
    case (6, 'A', 's') => Some(Apples)
    case (7, 'B', 's') => Some(Bananas)
    case _ => None
  }

  /** A material's key fingerprint leads back to the material. */
  lemma FingerprintIdentifies(m: Material)
    ensures MaterialWithFingerprint(Fingerprint(MaterialName(m))) == Some(m)
  {
    match GroupOf(m)
    case ManufacturingMaterials => ManufacturingMaterialsIdentified(m);
    case AnimalProducts => AnimalProductsIdentified(m);
    case Seafood => SeafoodIdentified(m);
    case DairyAndEggs => DairyAndEggsIdentified(m);
    case PlantProteins => PlantProteinsIdentified(m);
    case GrainsAndStaples => GrainsAndStaplesIdentified(m);
    case VegetablesAndFruits => VegetablesAndFruitsIdentified(m);
  }

  lemma ManufacturingMaterialsIdentified(m: Material)
    requires GroupOf(m) == ManufacturingMaterials
    ensures MaterialWithFingerprint(Fingerprint(MaterialName(m))) == Some(m)
  {
  }

  lemma AnimalProductsIdentified(m: Material)
    requires GroupOf(m) == AnimalProducts
    ensures MaterialWithFingerprint(Fingerprint(MaterialName(m))) == Some(m)
  {
  }

  lemma SeafoodIdentified(m: Material)
    requires GroupOf(m) == Seafood
    ensures MaterialWithFingerprint(Fingerprint(MaterialName(m))) == Some(m)
  {
  }

  lemma DairyAndEggsIdentified(m: Material)
    requires GroupOf(m) == DairyAndEggs
    ensures MaterialWithFingerprint(Fingerprint(MaterialName(m))) == Some(m)
  {
  }

  lemma PlantProteinsIdentified(m: Material)
    requires GroupOf(m) == PlantProteins
    ensures MaterialWithFingerprint(Fingerprint(MaterialName(m))) == Some(m)
  {
  }

  lemma GrainsAndStaplesIdentified(m: Material)
    requires GroupOf(m) == GrainsAndStaples
    ensures MaterialWithFingerprint(Fingerprint(MaterialName(m))) == Some(m)
  {
  }

  lemma VegetablesAndFruitsIdentified(m: Material)
    requires GroupOf(m) == VegetablesAndFruits
    ensures MaterialWithFingerprint(Fingerprint(MaterialName(m))) == Some(m)
  {
  }

  lemma ModeNamesDistinct(a: TransportMode, b: TransportMode)
    ensures ModeName(a) == ModeName(b) ==> a == b
  {
  }

  lemma IntensityNamesDistinct(a: Intensity, b: Intensity)
    ensures IntensityName(a) == IntensityName(b) ==> a == b
  {
  }

  /** The first candidate whose key is `key` (a dictionary lookup over the listed keys). */
  function Find<T>(key: string, candidates: seq<T>, name: T -> string): (r: Option<T>)
    ensures r.Some? ==> r.value in candidates && name(r.value) == key
    ensures r.None? ==> forall c :: c in candidates ==> name(c) != key
  {
    if |candidates| == 0 then None
    else if name(candidates[0]) == key then Some(candidates[0])
    else Find(key, candidates[1..], name)
  }

  /** The material a key names, if any. */
  function ParseMaterial(s: string): (r: Option<Material>)
    ensures r.Some? ==> MaterialName(r.value) == s
    ensures r.None? ==> forall m: Material :: MaterialName(m) != s
  {
    KeyListsComplete();
    Find(s, Materials, MaterialName)
  }

  /** The transport mode a key names, if any. */
  function ParseMode(s: string): (r: Option<TransportMode>)
    ensures r.Some? ==> ModeName(r.value) == s
    ensures r.None? ==> forall t: TransportMode :: ModeName(t) != s
  {
    KeyListsComplete();
    Find(s, TransportModes, ModeName)
  }

  /** The intensity a key names, if any. */
  function ParseIntensity(s: string): (r: Option<Intensity>)
    ensures r.Some? ==> IntensityName(r.value) == s
    ensures r.None? ==> forall i: Intensity :: IntensityName(i) != s
  {
    KeyListsComplete();
    Find(s, Intensities, IntensityName)
  }

  /** Parsing a category's own key gives back that category. */
  lemma ParseMaterialName(m: Material)
    ensures ParseMaterial(MaterialName(m)) == Some(m)
  {
    MaterialNamesDistinct(m, ParseMaterial(MaterialName(m)).value);
  }

  lemma ParseModeName(t: TransportMode)
    ensures ParseMode(ModeName(t)) == Some(t)
  {
    ModeNamesDistinct(t, ParseMode(ModeName(t)).value);
  }

  lemma ParseIntensityName(i: Intensity)
    ensures ParseIntensity(IntensityName(i)) == Some(i)
  {
    IntensityNamesDistinct(i, ParseIntensity(IntensityName(i)).value);
  }

  /** Keys are case-sensitive: the lower-case spelling of a mode is not a key. */
  lemma KeysAreCaseSensitive()
    ensures ParseMode("air") == None
    ensures ParseIntensity("medium") == None
  {
  }
}
