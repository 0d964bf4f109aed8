/** The fixed reference data of the calculator: the material catalog (density in
    kg/m³ and impact in kg CO₂e per kg), the process constants, the set of jointed
    materials, the cement and stone-origin tables and the pavement templates. */
module Catalog {
  import opened Wrappers

  /** The keys of the material catalog, in catalog order. */
  datatype Material =
    | Gravier
    | Beton
    | EnrobeBitumineux
    | PaveBetonPrefabriquee
    | GrilleBetonPrefabriquee
    | PaveEnPierre
    | DalleEnPierre
    | DalleEnPierrePolie
    | Geotextile
    | BetonMaigre
    | GranulesDeBeton
    | Grave
    | Indefini

  /** The catalog key of each material, as the source spells it. */
  function Name(m: Material): string {
    match m
    case Gravier => "Gravier"
    case Beton => "Béton"
    case EnrobeBitumineux => "Enrobé bitumineux"
    case PaveBetonPrefabriquee => "Pavé béton préfabriquée"
    case GrilleBetonPrefabriquee => "Grille béton préfabriquée"
    case PaveEnPierre => "Pavé en pierre"
    case DalleEnPierre => "Dalle en pierre"
    case DalleEnPierrePolie => "Dalle en pierre polie"
    case Geotextile => "Géotextile"
    case BetonMaigre => "Béton maigre"
    case GranulesDeBeton => "Granulés de béton"
    case Grave => "Grave"
    case Indefini => "Indéfini"
  }

  /** The material choices offered by the selection widget, in catalog order. */
  const Materials: seq<Material> := [
    Gravier, Beton, EnrobeBitumineux, PaveBetonPrefabriquee, GrilleBetonPrefabriquee,
    PaveEnPierre, DalleEnPierre, DalleEnPierrePolie, Geotextile, BetonMaigre,
    GranulesDeBeton, Grave, Indefini
  ]

  /** Every material is offered exactly once, and distinct materials have distinct
      keys, so the enumeration is faithful to the string-keyed catalog. */
  lemma CatalogKeys()
    ensures forall m: Material :: m in Materials
    ensures forall i, j :: 0 <= i < j < |Materials| ==> Materials[i] != Materials[j]
    ensures forall a: Material, b: Material :: Name(a) == Name(b) ==> a == b
  {
    forall m: Material
      ensures m in Materials
    {
      match m
      case Gravier => assert Materials[0] == m;
      case Beton => assert Materials[1] == m;
      case EnrobeBitumineux => assert Materials[2] == m;
      case PaveBetonPrefabriquee => assert Materials[3] == m;
      case GrilleBetonPrefabriquee => assert Materials[4] == m;
      case PaveEnPierre => assert Materials[5] == m;
      case DalleEnPierre => assert Materials[6] == m;
      case DalleEnPierrePolie => assert Materials[7] == m;
      case Geotextile => assert Materials[8] == m;
      case BetonMaigre => assert Materials[9] == m;
      case GranulesDeBeton => assert Materials[10] == m;
      case Grave => assert Materials[11] == m;
      case Indefini => assert Materials[12] == m;
    }
  }

  /** Density in kg/m³. */
  function Density(m: Material): (d: real)
    ensures d >= 1.0
    ensures d == 1.0 <==> m == Geotextile || m == Indefini
  {
    match m
    case Gravier => 1500.0
    case Beton => 2350.0
    case EnrobeBitumineux => 2400.0
    case PaveBetonPrefabriquee => 2300.0
    case GrilleBetonPrefabriquee => 2300.0
    case PaveEnPierre => 2500.0
    case DalleEnPierre => 2750.0
    case DalleEnPierrePolie => 2750.0
    case Geotextile => 1.0
    case BetonMaigre => 2150.0
    case GranulesDeBeton => 1550.0
    case Grave => 1500.0
    case Indefini => 1.0
  }

  /** Base impact in kg CO₂e per kg (per m² for the geotextile). */
  function Impact(m: Material): (r: real)
    ensures r >= 0.0
    ensures r == 0.0 <==> m == Indefini
  {
    match m
    case Gravier => 0.01761
    case Beton => 0.1088
    case EnrobeBitumineux => 0.1154
    case PaveBetonPrefabriquee => 0.2087
    case GrilleBetonPrefabriquee => 0.2087
    case PaveEnPierre => 0.0957 + 0.0848
    case DalleEnPierre => 0.407
    case DalleEnPierrePolie => 0.475
    case Geotextile => 1.3
    case BetonMaigre => 0.0628
    case GranulesDeBeton => 0.01392
    case Grave => 0.01761
    case Indefini => 0.0
  }

  /** Process constants, kg CO₂e per m³ (excavation, sand and cement joints)
      or per kg (asphalt binder, aggregate, transport and laying). */
  const ImpactExcavation: real := 0.43
  const ImpactSable: real := 1500.0 * 0.01565
  const ImpactCiment: real := 1550.0 * 0.26
  const ImpactAsphalt: real := 0.8375
  const ImpactGranulat: real := 0.003012
  const ImpactTransportFin: real := 0.046 + 0.019

  /** The jointed materials, spelled as in the source: the first entry is not a
      catalog key (the catalog says "préfabriquée"). */
  const ListeLie: seq<string> := [
    "Pavé béton préfabriqué",
    "Pavé en pierre",
    "Dalle en pierre",
    "Dalle en pierre polie"
  ]

  /** The natural-stone materials. */
  const ListePierre: seq<string> := [
    "Pavé en pierre",
    "Dalle en pierre",
    "Dalle en pierre polie"
  ]

  /** Membership of a material in the jointed list. The source tests the catalog key
      against `ListeLie`; because of the spelling mismatch only the three stone
      materials pass that test (lemma JointedAreStones). */
  predicate IsLie(m: Material): (b: bool)
    ensures m == PaveBetonPrefabriquee ==> !b
  {
    m == PaveEnPierre || m == DalleEnPierre || m == DalleEnPierrePolie
  }

  /** The key test of the source and `IsLie` agree: the jointed set is exactly the
      stone list, the precast concrete paver never gets a joint term, and the
      "precast paver" guard in front of the origin choice never fails. */
  lemma JointedAreStones(m: Material)
    ensures IsLie(m) <==> Name(m) in ListeLie
    ensures IsLie(m) <==> Name(m) in ListePierre
    ensures Name(PaveBetonPrefabriquee) !in ListeLie
    ensures Name(m) != "Pavé béton préfabriqué"
  {
  }

  /** Joint filling of a jointed layer. */
  datatype Joint = Sable | Ciment

  /** Impact of the joint filling, kg CO₂e per m³. */
  function JointImpact(j: Joint): (r: real)
    ensures r > 0.0
    ensures j == Sable ==> r == 1500.0 * 0.01565
    ensures j == Ciment ==> r == 1550.0 * 0.26
  {
    if j == Sable then ImpactSable else ImpactCiment
  }

  /** Cement families of structural concrete. */
  datatype Cement = Standard | Portland | CemIIB | CemIIA | CemZND | CemIIIA

  /** Per-kg impact of concrete made with each cement family (all at 2350 kg/m³). */
  function CementImpact(c: Cement): (r: real)
    ensures 0.080 <= r <= 0.118
    ensures c == Standard <==> r == Impact(Beton)
  {
    match c
    case Standard => 0.1088
    case Portland => 0.118
    case CemIIB => 0.101
    case CemIIA => 0.105
    case CemZND => 0.089
    case CemIIIA => 0.080
  }

  /** Origin of natural stone. */
  datatype Origin = Mix | Suisse | Europe | OutreMer

  /** Transport adjustment added to the stone's per-kg impact. */
  function ImpTrans(o: Origin): (r: real)
    ensures -0.0848 <= r <= 0.0267
    ensures r == 0.0 <==> o == Mix
  {
    match o
    case Mix => 0.0
    case Suisse => -0.0848
    case Europe => -0.0048
    case OutreMer => 0.0267
  }

  /** One course of a composition: material, thickness in whole centimetres, and
      the optional "impact" and "joint" entries of the layer record. */
  datatype Layer = Layer(material: Material, thickness: nat, impact: Option<real>, joint: Option<Joint>)

  /** A layer record holding only a material and a thickness. */
  function Seed(m: Material, thickness: nat): Layer {
    Layer(m, thickness, None, None)
  }

  /** The base compositions offered when adding a composition. */
  datatype Pavement =
    | RevBitumineux
    | RevBeton
    | RevGravier
    | RevPavePierre
    | RevDallePierre
    | RevDallePierreMixte
    | RevBetonPrefabrique
    | RevGrilleBeton
    | RevIndefini

  function PavementName(p: Pavement): string {
    match p
    case RevBitumineux => "Revêtement bitumineux"
    case RevBeton => "Revêtement béton"
    case RevGravier => "Revêtement gravier"
    case RevPavePierre => "Revêtement pavé en pierre naturelle"
    case RevDallePierre => "Revêtement dalle en pierre naturelle"
    case RevDallePierreMixte => "Revêtement dalle en pierre naturelle, mixte"
    case RevBetonPrefabrique => "Revêtement béton préfabriqué"
    case RevGrilleBeton => "Revêtement grille de béton préfabriquée"
    case RevIndefini => "Indéfini"
  }

  /** The layers of each template, top to bottom: records carrying only a material and
      a positive thickness of at most 30 cm, never a geotextile. */
  function Template(p: Pavement): (ls: seq<Layer>)
    ensures 1 <= |ls| <= 4
    ensures forall k :: 0 <= k < |ls| ==> ls[k] == Seed(ls[k].material, ls[k].thickness)
    ensures forall k :: 0 <= k < |ls| ==> ls[k].material != Geotextile && 0 < ls[k].thickness <= 30
  {
    match p
    case RevBitumineux => [Seed(EnrobeBitumineux, 7), Seed(Gravier, 5), Seed(Grave, 20)]
    case RevBeton => [Seed(Beton, 15), Seed(Gravier, 5), Seed(Grave, 25)]
    case RevGravier => [Seed(Gravier, 5), Seed(Gravier, 10), Seed(Grave, 25)]
    case RevPavePierre => [Seed(PaveEnPierre, 8), Seed(Gravier, 3), Seed(Grave, 25)]
    case RevDallePierre => [Seed(DalleEnPierrePolie, 4), Seed(Gravier, 3), Seed(Grave, 25)]
    case RevDallePierreMixte =>
      [Seed(DalleEnPierrePolie, 4), Seed(GranulesDeBeton, 6), Seed(BetonMaigre, 12), Seed(Grave, 10)]
    case RevBetonPrefabrique => [Seed(PaveBetonPrefabriquee, 8), Seed(Gravier, 3), Seed(Grave, 25)]
    case RevGrilleBeton => [Seed(GrilleBetonPrefabriquee, 4), Seed(Gravier, 3), Seed(Grave, 25)]
    case RevIndefini => [Seed(Indefini, 30)]
  }
}
