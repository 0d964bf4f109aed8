/** Resolution of a layer's effective impact factor from its material and the values
    entered for it (joint, stone origin, free-form impact, recycled and binder rates,
    cement family, void ratio), and the update that the layer editor applies to a
    layer record. */
module Resolution {
  import opened Wrappers
  import opened Catalog

  /** The values entered for one layer; `None` is a field left at its default. */
  datatype Overrides = Overrides(
    joint: Option<Joint>,
    origin: Option<Origin>,
    userImpact: Option<real>,
    recycledRate: Option<nat>,
    asphaltRate: Option<real>,
    cement: Option<Cement>,
    voidRate: Option<nat>)

  const NoOverrides: Overrides := Overrides(None, None, None, None, None, None, None)

  /** The initial values of the form fields. */
  const DefaultJoint: Joint := Sable
  const DefaultOrigin: Origin := Mix
  const DefaultUserImpact: real := 100.0
  const DefaultRecycledRate: nat := 0
  const DefaultAsphaltRate: real := 5.6
  const DefaultCement: Cement := Standard
  const DefaultVoidRate: nat := 40

  /** Impact per kg of a bituminous mix with `ta` % binder and `tr` % recycled
      aggregate: blend of binder and aggregate, reduced by the recycled share,
      plus transport and laying. */
  function BlendImpact(tr: real, ta: real): (r: real)
    ensures 0.0 <= ta <= 100.0 && tr <= 100.0 ==> ImpactTransportFin <= r
    ensures 0.0 <= ta <= 100.0 && 0.0 <= tr ==> r <= ImpactAsphalt + ImpactTransportFin
  {
    var mix := ImpactAsphalt * ta / 100.0 + (1.0 - ta / 100.0) * ImpactGranulat;
    var kept := 1.0 - tr / 100.0;
    BlendBounds(mix, kept, ta, tr);
    mix * kept + ImpactTransportFin
  }

  /** The binder/aggregate blend lies between the aggregate and the binder impact,
      and scaling it by the share that is not recycled keeps it in range. */
  lemma BlendBounds(mix: real, kept: real, ta: real, tr: real)
    requires mix == ImpactAsphalt * ta / 100.0 + (1.0 - ta / 100.0) * ImpactGranulat
    requires kept == 1.0 - tr / 100.0
    ensures 0.0 <= ta <= 100.0 && tr <= 100.0 ==> 0.0 <= mix * kept
    ensures 0.0 <= ta <= 100.0 && 0.0 <= tr ==> mix * kept <= ImpactAsphalt
  {
    assert mix == ImpactGranulat + (ImpactAsphalt - ImpactGranulat) * (ta / 100.0);
    if 0.0 <= ta <= 100.0 {
      assert ImpactGranulat <= mix <= ImpactAsphalt;
      if tr <= 100.0 {
        assert kept >= 0.0;
        assert mix * kept >= 0.0;
      }
      if 0.0 <= tr {
        assert kept <= 1.0;
        assert mix * kept <= mix * 1.0;
      }
    }
  }

  /** A fully recycled mix keeps only the transport and laying impact. */
  lemma BlendFullyRecycled(ta: real)
    ensures BlendImpact(100.0, ta) == ImpactTransportFin
  {
  }

  /** More recycled aggregate never increases the impact (for any non-negative
      binder rate; the form enforces at least 1 %). */
  lemma BlendAntitone(tr1: real, tr2: real, ta: real)
    requires ta >= 0.0
    requires tr1 <= tr2
    ensures BlendImpact(tr2, ta) <= BlendImpact(tr1, ta)
  {
    var mix := ImpactAsphalt * ta / 100.0 + (1.0 - ta / 100.0) * ImpactGranulat;
    assert mix == ImpactGranulat + (ImpactAsphalt - ImpactGranulat) * (ta / 100.0);
    assert mix >= 0.0;
    var kept1, kept2 := 1.0 - tr1 / 100.0, 1.0 - tr2 / 100.0;
    var part1, part2 := mix * kept1, mix * kept2;
    assert kept2 <= kept1;
    assert part2 <= part1;
    assert BlendImpact(tr1, ta) == part1 + ImpactTransportFin;
    assert BlendImpact(tr2, ta) == part2 + ImpactTransportFin;
  }

  /** Impact per kg of the precast concrete grid with `vide` % voids. */
  function VoidImpact(vide: real): (r: real)
    ensures 0.0 <= vide <= 100.0 ==> 0.0 <= r <= Impact(GrilleBetonPrefabriquee)
  {
    (1.0 - vide / 100.0) * Impact(GrilleBetonPrefabriquee)
  }

  /** The grid without voids has the catalog impact, a fully void grid none, and
      more voids never mean more impact. */
  lemma VoidImpactRange(v1: real, v2: real)
    requires v1 <= v2
    ensures VoidImpact(0.0) == Impact(GrilleBetonPrefabriquee)
    ensures VoidImpact(100.0) == 0.0
    ensures VoidImpact(v2) <= VoidImpact(v1)
  {
  }

  /** The families of emission rule, one per way the impact factor is formed. */
  datatype Kind = Bulk | Textile | Jointed | Bituminous | StructuralConcrete | VoidConcrete | FreeForm

  /** The rule each material follows. The precast concrete paver is not jointed:
      its catalog key is not in the jointed list. */
  function KindOf(m: Material): Kind {
    match m
    case PaveEnPierre => Jointed
    case DalleEnPierre => Jointed
    case DalleEnPierrePolie => Jointed
    case Geotextile => Textile
    case EnrobeBitumineux => Bituminous
    case Beton => StructuralConcrete
    case GrilleBetonPrefabriquee => VoidConcrete
    case Indefini => FreeForm
    case _ => Bulk
  }

  lemma {:induction false} JointedKind(m: Material)
    ensures KindOf(m) == Jointed <==> IsLie(m)
  {
    JointedAreStones(m);
  }

  /** The impact factor by rule, with the documented default of every field. */
  function KindImpact(k: Kind, m: Material, ov: Overrides): real {
    match k
    case Jointed => Impact(m) + ImpTrans(ov.origin.GetOr(DefaultOrigin))
    case FreeForm => ov.userImpact.GetOr(DefaultUserImpact)
    case Bituminous => BlendImpact(ov.recycledRate.GetOr(DefaultRecycledRate) as real, ov.asphaltRate.GetOr(DefaultAsphaltRate))
    case StructuralConcrete => CementImpact(ov.cement.GetOr(DefaultCement))
    case VoidConcrete => VoidImpact(ov.voidRate.GetOr(DefaultVoidRate) as real)
    case Bulk => Impact(m)
    case Textile => Impact(m)
  }

  /** The effective impact the layer editor stores for a layer of material `m`:
      the catalog impact, replaced or adjusted according to the first matching test
      of the source's chain (jointed list, free-form, bituminous, concrete, grid).
      It agrees with the rule-by-kind table. */
  function ResolveImpact(m: Material, ov: Overrides): (r: real)
    ensures r == KindImpact(KindOf(m), m, ov)
  {
    JointedKind(m);
    var base := Impact(m);
    if IsLie(m) then
      base + ImpTrans(ov.origin.GetOr(DefaultOrigin))
    else if m == Indefini then
      ov.userImpact.GetOr(DefaultUserImpact)
    else if m == EnrobeBitumineux then
      BlendImpact(ov.recycledRate.GetOr(DefaultRecycledRate) as real, ov.asphaltRate.GetOr(DefaultAsphaltRate))
    else if m == Beton then
      CementImpact(ov.cement.GetOr(DefaultCement))
    else if m == GrilleBetonPrefabriquee then
      VoidImpact(ov.voidRate.GetOr(DefaultVoidRate) as real)
    else
      base
  }

  /** With every field at its default, only the free-form material, the bituminous
      mix and the grid differ from the catalog: standard cement is the catalog
      concrete and the mixed origin adds nothing. */
  lemma ResolveDefaults(m: Material)
    ensures m == Indefini ==> ResolveImpact(m, NoOverrides) == 100.0
    ensures m == EnrobeBitumineux ==> ResolveImpact(m, NoOverrides) == BlendImpact(0.0, 5.6)
    ensures m == GrilleBetonPrefabriquee ==> ResolveImpact(m, NoOverrides) == 0.6 * Impact(m)
    ensures m !in {Indefini, EnrobeBitumineux, GrilleBetonPrefabriquee} ==>
              ResolveImpact(m, NoOverrides) == Impact(m)
  {
  }

  /** Swiss stone removes the transport share built into the stone paver's impact. */
  lemma SwissPaver(ov: Overrides)
    requires ov.origin == Some(Suisse)
    ensures ResolveImpact(PaveEnPierre, ov) == 0.0957
  {
  }

  /** The record the layer editor leaves behind: the chosen material, the entered
      thickness (forced to 0 for the geotextile), the resolved impact, and the joint
      choice for jointed materials; any other joint entry stays as it was. */
  function EditedLayer(c: Layer, m: Material, ep: nat, ov: Overrides): (r: Layer)
    ensures r.material == m
    ensures r.thickness == if m == Geotextile then 0 else ep
    ensures r.impact == Some(ResolveImpact(m, ov))
    ensures r.joint == if KindOf(m) == Jointed then Some(ov.joint.GetOr(DefaultJoint)) else c.joint
  {
    JointedKind(m);
    var th := if m == Geotextile then 0 else ep;
    var joint := if IsLie(m) then Some(ov.joint.GetOr(DefaultJoint)) else c.joint;
    Layer(m, th, Some(ResolveImpact(m, ov)), joint)
  }

  /** Editing a record a second time with the same entries changes nothing, so a
      page run whose fields are left as they were leaves every layer as it is. */
  lemma EditIdempotent(c: Layer, m: Material, ep: nat, ov: Overrides)
    ensures EditedLayer(EditedLayer(c, m, ep, ov), m, ep, ov) == EditedLayer(c, m, ep, ov)
  {
    var e := EditedLayer(c, m, ep, ov);
    var e2 := EditedLayer(e, m, ep, ov);
    assert e2.joint == e.joint;
  }

  /** One pass of the layer editor: layer k becomes the record edited with the k-th
      material, thickness and entries. */
  function EditedLayers(ls: seq<Layer>, ms: seq<Material>, eps: seq<nat>, ovs: seq<Overrides>): (r: seq<Layer>)
    requires |ms| == |eps| == |ovs| == |ls|
    ensures |r| == |ls|
    ensures forall k :: 0 <= k < |ls| ==> r[k].material == ms[k] && r[k].impact == Some(ResolveImpact(ms[k], ovs[k]))
  {
    seq(|ls|, k requires 0 <= k < |ls| => EditedLayer(ls[k], ms[k], eps[k], ovs[k]))
  }

  /** The editor's pass when every field shows its initial value: each layer keeps
      its material and thickness and gets the impact resolved at the defaults. */
  function DefaultPass(ls: seq<Layer>): (r: seq<Layer>)
    ensures |r| == |ls|
    ensures forall k :: 0 <= k < |ls| ==>
              r[k].material == ls[k].material && r[k].impact == Some(ResolveImpact(ls[k].material, NoOverrides))
  {
    EditedLayers(ls, seq(|ls|, k requires 0 <= k < |ls| => ls[k].material),
                 seq(|ls|, k requires 0 <= k < |ls| => ls[k].thickness),
                 seq(|ls|, k requires 0 <= k < |ls| => NoOverrides))
  }
}
