/** The footprint of one layer and of a stack of layers, per m² of surface. */
module Footprint {
  import opened Wrappers
  import opened Sums
  import opened Catalog
  import opened Resolution

  /** The volumetric factor of a non-geotextile layer, kg CO₂e per m³: stored impact
      times density, plus 5 % of the joint filling's impact for jointed materials. A
      missing impact counts as 0 and a missing joint as sand. */
  function VolumetricFactor(c: Layer): real {
    c.impact.GetOr(0.0) * Density(c.material)
      + (if IsLie(c.material) then JointImpact(c.joint.GetOr(Sable)) * 0.05 else 0.0)
  }

  /** Footprint of one layer per m²: stored impact times density times thickness in
      metres, replaced by the fixed catalog impact for the geotextile, plus the joint
      term for jointed materials. So the geotextile contributes its fixed catalog
      impact whatever its thickness and stored impact, and every other layer its
      volumetric factor times its thickness in metres. */
  function EmpreinteCouche(c: Layer): (r: real)
    ensures c.material == Geotextile ==> r == 1.3
    ensures c.material != Geotextile ==> r == VolumetricFactor(c) * (c.thickness as real) / 100.0
  {
    var ep := c.thickness as real;
    var base := c.impact.GetOr(0.0) * Density(c.material) * ep / 100.0;
    var impact := if c.material == Geotextile then Impact(Geotextile) else base;
    if IsLie(c.material) then
      impact + JointImpact(c.joint.GetOr(Sable)) * 0.05 * ep / 100.0
    else
      impact
  }

  /** Depth in cm that counts for excavation: thickness of a non-geotextile layer. */
  function DepthOf(c: Layer): (d: real)
    ensures d >= 0.0
  {
    if c.material != Geotextile then c.thickness as real else 0.0
  }

  /** Excavation depth of a stack, in cm. */
  function Depth(ls: seq<Layer>): real {
    Sum(ls, DepthOf)
  }

  /** Sum of the layer footprints of a stack, per m². */
  function LayersFootprint(ls: seq<Layer>): real {
    Sum(ls, EmpreinteCouche)
  }

  /** Footprint of a stack per m²: its layers plus the excavation of its depth. The
      excavation never lowers the footprint, and an empty stack costs nothing. */
  function EmpreinteTotale(ls: seq<Layer>): (r: real)
    ensures r >= LayersFootprint(ls)
    ensures ls == [] ==> r == 0.0
  {
    SumNonNegative(ls, DepthOf);
    LayersFootprint(ls) + Depth(ls) / 100.0 * ImpactExcavation
  }

  /** A layer's footprint is linear in its thickness: zero at 0 cm and additive. */
  lemma ThicknessLinear(c: Layer, a: nat, b: nat)
    requires c.material != Geotextile
    ensures EmpreinteCouche(c.(thickness := 0)) == 0.0
    ensures EmpreinteCouche(c.(thickness := a + b))
            == EmpreinteCouche(c.(thickness := a)) + EmpreinteCouche(c.(thickness := b))
  {
  }

  /** Missing entries count as their defaults: no impact as 0, no joint as sand. */
  lemma MissingFields(c: Layer)
    ensures EmpreinteCouche(c.(impact := None)) == EmpreinteCouche(c.(impact := Some(0.0)))
    ensures EmpreinteCouche(c.(joint := None)) == EmpreinteCouche(c.(joint := Some(Sable)))
  {
  }

  /** For a jointed layer, cement joints cost exactly 5 % of the cement-minus-sand
      impact over the layer's thickness more than sand joints. */
  lemma JointDifference(c: Layer)
    requires IsLie(c.material)
    ensures EmpreinteCouche(c.(joint := Some(Ciment))) - EmpreinteCouche(c.(joint := Some(Sable)))
            == (ImpactCiment - ImpactSable) * 0.05 * (c.thickness as real) / 100.0
  {
  }

  /** The precast concrete paver gets no joint term, whatever joint its record holds. */
  lemma PrecastPaverUnjointed(c: Layer)
    requires c.material == PaveBetonPrefabriquee
    ensures EmpreinteCouche(c) == c.impact.GetOr(0.0) * 2300.0 * (c.thickness as real) / 100.0
  {
    JointedAreStones(c.material);
  }

  /** Stacks decompose: the footprint of two stacks put together is the sum of theirs. */
  lemma TotalAppend(a: seq<Layer>, b: seq<Layer>)
    ensures EmpreinteTotale(a + b) == EmpreinteTotale(a) + EmpreinteTotale(b)
  {
    SumAppend(a, b, EmpreinteCouche);
    SumAppend(a, b, DepthOf);
  }

  /** The footprint of a stack does not depend on the order of its layers. */
  lemma TotalPermutation(a: seq<Layer>, b: seq<Layer>)
    requires multiset(a) == multiset(b)
    ensures EmpreinteTotale(a) == EmpreinteTotale(b)
  {
    SumPermutation(a, b, EmpreinteCouche);
    SumPermutation(a, b, DepthOf);
  }

  /** Inserting a geotextile anywhere adds its fixed 1.3 and no excavation depth. */
  lemma GeotextileInsertion(a: seq<Layer>, g: Layer, b: seq<Layer>)
    requires g.material == Geotextile
    ensures Depth(a + [g] + b) == Depth(a + b)
    ensures EmpreinteTotale(a + [g] + b) == EmpreinteTotale(a + b) + 1.3
  {
    SumAppend(a + [g], b, DepthOf);
    SumAppend(a, [g], DepthOf);
    SumAppend(a, b, DepthOf);
    SumSingle(g, DepthOf);
    SumAppend(a + [g], b, EmpreinteCouche);
    SumAppend(a, [g], EmpreinteCouche);
    SumAppend(a, b, EmpreinteCouche);
    SumSingle(g, EmpreinteCouche);
  }

  /** One 20 cm gravel layer with its catalog impact: 26.415 kg CO₂e per m³, so
      5.283 per m² for the layer plus 0.086 for its excavation. */
  lemma GravelScenario()
    ensures EmpreinteTotale([Layer(Gravier, 20, Some(0.01761), None)]) == 5.369
  {
    var c := Layer(Gravier, 20, Some(0.01761), None);
    SumSingle(c, EmpreinteCouche);
    SumSingle(c, DepthOf);
    JointedAreStones(Gravier);
  }

  /** A fresh gravel composition, once the layer editor has run with every field at
      its initial value, costs 10.738 kg CO₂e per m²: 1.32075, 2.6415 and 6.60375 for
      its three layers and 0.172 for its 40 cm of excavation. Before that run its
      records carry no impact and only the excavation, 0.172, is counted. */
  lemma GravelTemplateAtDefaults()
    ensures EmpreinteTotale(Template(RevGravier)) == 0.172
    ensures EmpreinteTotale(DefaultPass(Template(RevGravier))) == 10.738
  {
    var t := Template(RevGravier);
    var ls := DefaultPass(t);
    assert ls == [Layer(Gravier, 5, Some(0.01761), None), Layer(Gravier, 10, Some(0.01761), None),
                  Layer(Grave, 25, Some(0.01761), None)];
    StackOfThree(t);
    StackOfThree(ls);
  }

  /** The footprint of a three-layer stack, term by term. */
  lemma StackOfThree(ls: seq<Layer>)
    requires |ls| == 3
    ensures LayersFootprint(ls) == EmpreinteCouche(ls[0]) + EmpreinteCouche(ls[1]) + EmpreinteCouche(ls[2])
    ensures Depth(ls) == DepthOf(ls[0]) + DepthOf(ls[1]) + DepthOf(ls[2])
  {
    assert ls[0..] == ls && ls[3..] == [];
    SumStep(ls, 0, EmpreinteCouche);
    SumStep(ls, 1, EmpreinteCouche);
    SumStep(ls, 2, EmpreinteCouche);
    SumStep(ls, 0, DepthOf);
    SumStep(ls, 1, DepthOf);
    SumStep(ls, 2, DepthOf);
  }
}
