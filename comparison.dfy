/** The comparison of all compositions: one row per composition plus a Total row,
    and the per-material stacked breakdown drawn for each composition, with one
    colour per material. */
module Comparison {
  import opened Wrappers
  import opened Sums
  import opened Catalog
  import opened Footprint
  import opened Compositions

  /** One line of the comparison table: name, surface in m², total footprint in
      kg CO₂e and footprint per m². */
  datatype Row = Row(name: string, surface: real, total: real, perM2: real)

  datatype CalcError = DivisionByZero

  /** Footprint of a whole composition, in kg CO₂e. */
  function RowTotal(p: (Id, Instance)): real {
    EmpreinteTotale(p.1.layers) * p.1.surface
  }

  function RowSurface(p: (Id, Instance)): real {
    p.1.surface
  }

  function SumTotal(s: seq<(Id, Instance)>): real {
    Sum(s, RowTotal)
  }

  function SumSurface(s: seq<(Id, Instance)>): real {
    Sum(s, RowSurface)
  }

  /** The row of one composition: its per-m² value is the stack footprint itself,
      not a quotient, and its total is that value times the surface. */
  function RowOf(p: (Id, Instance)): (r: Row)
    ensures r.name == p.1.name && r.surface == p.1.surface
    ensures r.perM2 == EmpreinteTotale(p.1.layers)
    ensures r.total == r.perM2 * r.surface
  {
    Row(p.1.name, p.1.surface, RowTotal(p), EmpreinteTotale(p.1.layers))
  }

  /** Wherever the surface is not zero, a row's per-m² value is its total divided by
      its surface, as the Total row computes it. */
  lemma RowPerM2IsQuotient(p: (Id, Instance))
    requires p.1.surface != 0.0
    ensures RowOf(p).perM2 == RowOf(p).total / RowOf(p).surface
  {
  }

  /** Builds the comparison table in collection order. The Total row sums the
      surfaces and the totals and divides one by the other; when the summed surface
      is zero (no composition, or only empty surfaces) the division fails. */
  method Compare(s: seq<(Id, Instance)>) returns (res: Result<seq<Row>, CalcError>)
    ensures res.Err? <==> SumSurface(s) == 0.0
    ensures res.Err? ==> res.error == DivisionByZero
    ensures res.Ok? ==> |res.value| == |s| + 1
    ensures res.Ok? ==> forall k :: 0 <= k < |s| ==> res.value[k] == RowOf(s[k])
    ensures res.Ok? ==> res.value[|s|] == Row("Total", SumSurface(s), SumTotal(s), SumTotal(s) / SumSurface(s))
  {
    var data: seq<Row> := [];
    var sumtotal := 0.0;
    var sumsurface := 0.0;
    for i := 0 to |s|
      invariant |data| == i
      invariant forall k :: 0 <= k < i ==> data[k] == RowOf(s[k])
      invariant sumtotal == SumTotal(s[..i])
      invariant sumsurface == SumSurface(s[..i])
    {
      var row := RowOf(s[i]);
      data := data + [row];
      assert s[..i + 1] == s[..i] + [s[i]];
      SumSnoc(s[..i], s[i], RowTotal);
      SumSnoc(s[..i], s[i], RowSurface);
      sumtotal := sumtotal + row.total;
      sumsurface := sumsurface + row.surface;
    }
    assert s[..|s|] == s;
    if sumsurface == 0.0 {
      return Err(DivisionByZero);
    }
    res := Ok(data + [Row("Total", sumsurface, sumtotal, sumtotal / sumsurface)]);
  }

  ghost predicate NonNegativeSurfaces(s: seq<(Id, Instance)>) {
    forall k :: 0 <= k < |s| ==> s[k].1.surface >= 0.0
  }

  /** With non-negative surfaces the summed surface is zero exactly when every
      surface is zero, so the Total row is defined as soon as one is not. */
  lemma {:induction false} SumSurfaceZero(s: seq<(Id, Instance)>)
    requires NonNegativeSurfaces(s)
    ensures SumSurface(s) >= 0.0
    ensures SumSurface(s) == 0.0 <==> forall k :: 0 <= k < |s| ==> s[k].1.surface == 0.0
    decreases |s|
  {
    if s != [] {
      var rest := s[1..];
      forall k | 0 <= k < |rest|
        ensures rest[k].1.surface >= 0.0
      {
        assert rest[k] == s[k + 1];
      }
      SumSurfaceZero(rest);
      assert SumSurface(s) == s[0].1.surface + SumSurface(rest);
      if SumSurface(s) == 0.0 {
        forall k | 0 <= k < |s|
          ensures s[k].1.surface == 0.0
        {
          if k > 0 {
            assert s[k] == rest[k - 1];
          }
        }
      } else if s[0].1.surface == 0.0 {
        var k :| 0 <= k < |rest| && rest[k].1.surface != 0.0;
        assert s[k + 1] == rest[k];
      }
    }
  }

  lemma ScaleMonotone(x: real, y: real, a: real)
    requires x <= y && a >= 0.0
    ensures x * a <= y * a
  {
  }

  lemma {:induction false} SumTotalBounds(s: seq<(Id, Instance)>, lo: real, hi: real)
    requires NonNegativeSurfaces(s)
    requires forall k :: 0 <= k < |s| ==> lo <= EmpreinteTotale(s[k].1.layers) <= hi
    ensures lo * SumSurface(s) <= SumTotal(s) <= hi * SumSurface(s)
    decreases |s|
  {
    if s != [] {
      var rest := s[1..];
      forall k | 0 <= k < |rest|
        ensures rest[k].1.surface >= 0.0 && lo <= EmpreinteTotale(rest[k].1.layers) <= hi
      {
        assert rest[k] == s[k + 1];
      }
      SumTotalBounds(rest, lo, hi);
      var a, e := s[0].1.surface, EmpreinteTotale(s[0].1.layers);
      var area, total := SumSurface(rest), SumTotal(rest);
      ScaleMonotone(lo, e, a);
      ScaleMonotone(e, hi, a);
      assert SumTotal(s) == e * a + total;
      assert SumSurface(s) == a + area;
      assert lo * (a + area) == lo * a + lo * area;
      assert hi * (a + area) == hi * a + hi * area;
    }
  }

  /** The Total row's per-m² value is a surface-weighted average: it lies between
      the smallest and the largest per-m² value of the rows. */
  lemma TotalPerM2IsAverage(s: seq<(Id, Instance)>, lo: real, hi: real)
    requires NonNegativeSurfaces(s)
    requires SumSurface(s) != 0.0
    requires forall k :: 0 <= k < |s| ==> lo <= EmpreinteTotale(s[k].1.layers) <= hi
    ensures lo <= SumTotal(s) / SumSurface(s) <= hi
  {
    SumSurfaceZero(s);
    SumTotalBounds(s, lo, hi);
    var t, a := SumTotal(s), SumSurface(s);
    assert lo * a <= t <= hi * a;
    assert t / a * a == t;
  }

  /** The Total row does not depend on the order of the compositions. */
  lemma TotalRowOrderIndependent(s: seq<(Id, Instance)>, t: seq<(Id, Instance)>)
    requires multiset(s) == multiset(t)
    ensures SumSurface(s) == SumSurface(t) && SumTotal(s) == SumTotal(t)
  {
    SumPermutation(s, t, RowTotal);
    SumPermutation(s, t, RowSurface);
  }

  /** Deleting a composition removes exactly its row from the Total row's sums. */
  lemma DeleteRemovesRow(s: seq<(Id, Instance)>, i: nat)
    requires i < |s|
    ensures SumTotal(s[..i] + s[i + 1..]) == SumTotal(s) - RowTotal(s[i])
    ensures SumSurface(s[..i] + s[i + 1..]) == SumSurface(s) - s[i].1.surface
  {
    SumRemoveAt(s, i, RowTotal);
    SumRemoveAt(s, i, RowSurface);
  }

  /** A duplicate has the same per-m² value and total as its original, and adds
      them once more to the Total row's sums. */
  lemma DuplicateAddsRow(s: seq<(Id, Instance)>, i: nat, newId: Id)
    requires i < |s|
    ensures RowOf((newId, Copy(s[i].1))).perM2 == RowOf(s[i]).perM2
    ensures RowOf((newId, Copy(s[i].1))).total == RowOf(s[i]).total
    ensures SumTotal(s + [(newId, Copy(s[i].1))]) == SumTotal(s) + RowTotal(s[i])
    ensures SumSurface(s + [(newId, Copy(s[i].1))]) == SumSurface(s) + s[i].1.surface
  {
    var dup := (newId, Copy(s[i].1));
    assert dup.1.layers == s[i].1.layers && dup.1.surface == s[i].1.surface;
    assert RowTotal(dup) == RowTotal(s[i]);
    SumSnoc(s, dup, RowTotal);
    SumSnoc(s, dup, RowSurface);
  }

  /** One bar segment: a layer's material, its footprint per m² and the height it
      is drawn from. */
  datatype Segment = Segment(material: Material, height: real, bottom: real)

  /** The segments of a stack in drawing order, bottom layer first: the n-th drawn
      is layer |ls|-1-n and sits on the footprints of the layers below it. */
  function Stack(ls: seq<Layer>): seq<Segment> {
    seq(|ls|, n requires 0 <= n < |ls| => SegmentAt(ls, n))
  }

  function SegmentAt(ls: seq<Layer>, n: nat): Segment
    requires n < |ls|
  {
    Segment(ls[|ls| - 1 - n].material, EmpreinteCouche(ls[|ls| - 1 - n]), Sum(ls[|ls| - n..], EmpreinteCouche))
  }

  /** Drawing layer k puts one segment, sitting on the layers below it, on top of
      the segments already drawn. */
  lemma StackStep(ls: seq<Layer>, k: nat)
    requires k < |ls|
    ensures Stack(ls)[..|ls| - k]
            == Stack(ls)[..|ls| - k - 1] + [Segment(ls[k].material, EmpreinteCouche(ls[k]), Sum(ls[k + 1..], EmpreinteCouche))]
  {
    assert |ls| - (|ls| - k - 1) == k + 1;
  }

  /** Drawing layer k on the segments and height of the layers below it gives the
      segments and height of the layers from k down. */
  lemma DrawStep(ls: seq<Layer>, k: nat, segs: seq<Segment>, cumul: real)
    requires k < |ls|
    requires cumul == Sum(ls[k + 1..], EmpreinteCouche)
    requires segs == Stack(ls)[..|ls| - (k + 1)]
    ensures segs + [Segment(ls[k].material, EmpreinteCouche(ls[k]), cumul)] == Stack(ls)[..|ls| - k]
    ensures EmpreinteCouche(ls[k]) + cumul == Sum(ls[k..], EmpreinteCouche)
  {
    StackStep(ls, k);
    SumStep(ls, k, EmpreinteCouche);
  }

  /** The drawn bar reaches exactly the sum of the layer footprints. */
  lemma StackTop(ls: seq<Layer>)
    requires ls != []
    ensures Stack(ls)[|ls| - 1].bottom + Stack(ls)[|ls| - 1].height == LayersFootprint(ls)
  {
    assert ls[1..] == ls[|ls| - (|ls| - 1)..];
  }

  /** The materials of a stack in drawing order. */
  function BottomUp(ls: seq<Layer>): seq<Material> {
    seq(|ls|, n requires 0 <= n < |ls| => ls[|ls| - 1 - n].material)
  }

  lemma BottomUpStep(seen: seq<Material>, ls: seq<Layer>, k: nat)
    requires k < |ls|
    ensures seen + BottomUp(ls)[..|ls| - k] == seen + BottomUp(ls)[..|ls| - k - 1] + [ls[k].material]
  {
    assert BottomUp(ls)[..|ls| - k] == BottomUp(ls)[..|ls| - k - 1] + [ls[k].material];
  }

  /** The materials of all compositions in the order the chart meets them. */
  function DrawOrder(s: seq<(Id, Instance)>): seq<Material>
    decreases |s|
  {
    if s == [] then [] else DrawOrder(s[..|s| - 1]) + BottomUp(s[|s| - 1].1.layers)
  }

  lemma DrawOrderStep(s: seq<(Id, Instance)>, i: nat)
    requires i < |s|
    ensures DrawOrder(s[..i + 1]) == DrawOrder(s[..i]) + BottomUp(s[i].1.layers)
  {
    assert s[..i + 1][..i] == s[..i];
  }

  /** The colour index of each material, handed out from a counter the first time
      the material is met and never changed afterwards. */
  function FirstSeen(ms: seq<Material>): (c: map<Material, nat>)
    ensures |c| <= |ms|
    decreases |ms|
  {
    if ms == [] then map[]
    else
      var c := FirstSeen(ms[..|ms| - 1]);
      var m := ms[|ms| - 1];
      if m in c then c else c[m := |c|]
  }

  /** Every material met has a colour, and no other; colours are distinct and are
      the first |c| counter values. */
  lemma {:induction false} FirstSeenColours(ms: seq<Material>)
    ensures forall m :: m in FirstSeen(ms) <==> m in ms
    ensures forall m :: m in FirstSeen(ms) ==> FirstSeen(ms)[m] < |FirstSeen(ms)|
    ensures forall a, b :: a in FirstSeen(ms) && b in FirstSeen(ms) && a != b ==> FirstSeen(ms)[a] != FirstSeen(ms)[b]
    decreases |ms|
  {
    if ms != [] {
      var p := ms[..|ms| - 1];
      FirstSeenColours(p);
      assert ms == p + [ms[|ms| - 1]];
    }
  }

  lemma FirstSeenStep(met: seq<Material>, m: Material)
    ensures FirstSeen(met + [m]) == if m in FirstSeen(met) then FirstSeen(met) else FirstSeen(met)[m := |FirstSeen(met)|]
  {
    assert (met + [m])[..|met|] == met;
  }

  /** A colour once given is kept whatever is met afterwards. */
  lemma {:induction false} FirstSeenStable(ms: seq<Material>, more: seq<Material>)
    ensures forall m :: m in FirstSeen(ms) ==> m in FirstSeen(ms + more) && FirstSeen(ms + more)[m] == FirstSeen(ms)[m]
    decreases |more|
  {
    if more == [] {
      assert ms + more == ms;
    } else {
      var p := more[..|more| - 1];
      FirstSeenStable(ms, p);
      assert (ms + more)[..|ms + more| - 1] == ms + p;
      assert (ms + more)[|ms + more| - 1] == more[|more| - 1];
    }
  }

  /** The material first met at position k gets the number of distinct materials
      met before it. */
  lemma FirstSeenAt(ms: seq<Material>, k: nat)
    requires k < |ms| && ms[k] !in ms[..k]
    ensures ms[k] in FirstSeen(ms)
    ensures FirstSeen(ms)[ms[k]] == |FirstSeen(ms[..k])|
  {
    var before := ms[..k];
    FirstSeenColours(before);
    assert ms[..k + 1] == before + [ms[k]];
    FirstSeenStep(before, ms[k]);
    FirstSeenStable(ms[..k + 1], ms[k + 1..]);
    assert ms[..k + 1] + ms[k + 1..] == ms;
  }

  /** Draws one composition: walks its layers bottom-up, recording each segment on
      top of the running height and giving each new material the next colour. */
  method StackLayers(ls: seq<Layer>, colours: map<Material, nat>, ghost seen: seq<Material>)
    returns (segs: seq<Segment>, cumul: real, colours': map<Material, nat>)
    requires colours == FirstSeen(seen)
    ensures segs == Stack(ls)
    ensures cumul == LayersFootprint(ls)
    ensures colours' == FirstSeen(seen + BottomUp(ls))
  {
    segs := [];
    cumul := 0.0;
    colours' := colours;
    var k := |ls|;
    ghost var met := seen;
    assert seen + BottomUp(ls)[..0] == seen;
    while k > 0
      invariant 0 <= k <= |ls|
      invariant cumul == Sum(ls[k..], EmpreinteCouche)
      invariant segs == Stack(ls)[..|ls| - k]
      invariant met == seen + BottomUp(ls)[..|ls| - k]
      invariant colours' == FirstSeen(met)
    {
      k := k - 1;
      var c := ls[k];
      var imp := EmpreinteCouche(c);
      FirstSeenStep(met, c.material);
      if c.material !in colours' {
        colours' := colours'[c.material := |colours'|];
      }
      BottomUpStep(seen, ls, k);
      met := met + [c.material];
      DrawStep(ls, k, segs, cumul);
      segs := segs + [Segment(c.material, imp, cumul)];
      cumul := imp + cumul;
    }
    assert ls[0..] == ls;
    assert BottomUp(ls)[..|ls|] == BottomUp(ls);
    assert Stack(ls)[..|ls|] == Stack(ls);
  }

  /** Composition `p` is drawn with the label `name`, the segments `stack` and the absolute
      total `total` (its layer footprints times its surface). */
  ghost predicate DrawnAs(p: (Id, Instance), name: string, stack: seq<Segment>, total: real) {
    && name == p.1.name
    && stack == Stack(p.1.layers)
    && total == LayersFootprint(p.1.layers) * p.1.surface
  }

  /** Draws one composition and gives its absolute total, the sum of its layer
      footprints per m² times its surface. */
  method DrawComposition(p: (Id, Instance), colours: map<Material, nat>, ghost seen: seq<Material>)
    returns (name: string, segs: seq<Segment>, totalAbs: real, colours': map<Material, nat>)
    requires colours == FirstSeen(seen)
    ensures DrawnAs(p, name, segs, totalAbs)
    ensures colours' == FirstSeen(seen + BottomUp(p.1.layers))
  {
    var cumul;
    segs, cumul, colours' := StackLayers(p.1.layers, colours, seen);
    name := p.1.name;
    totalAbs := cumul * p.1.surface;
  }

  /** Drawing one more composition keeps every earlier one drawn as it was. */
  lemma DrawnAsExtend(s: seq<(Id, Instance)>, labels: seq<string>, stacks: seq<seq<Segment>>, totals: seq<real>,
                      name: string, segs: seq<Segment>, total: real)
    requires |s| == |labels| + 1 && |labels| == |stacks| == |totals|
    requires forall j :: 0 <= j < |labels| ==> DrawnAs(s[j], labels[j], stacks[j], totals[j])
    requires DrawnAs(s[|labels|], name, segs, total)
    ensures forall j :: 0 <= j < |s| ==> DrawnAs(s[j], (labels + [name])[j], (stacks + [segs])[j], (totals + [total])[j])
  {
  }

  /** The running maximum of the absolute totals, starting from 0. The source computes
      it, like the list of totals, but never reads it: no second axis is drawn. */
  function MaxTotal(totals: seq<real>): (r: real)
    ensures r >= 0.0
    ensures totals != [] ==> totals[|totals| - 1] <= r
  {
    if totals == [] then 0.0
    else
      var m := MaxTotal(totals[..|totals| - 1]);
      var t := totals[|totals| - 1];
      if t > m then t else m
  }

  /** The running maximum is at least 0, bounds every total, and is either 0 or one
      of the totals. */
  lemma {:induction false} MaxTotalBounds(totals: seq<real>)
    ensures MaxTotal(totals) >= 0.0
    ensures forall i :: 0 <= i < |totals| ==> totals[i] <= MaxTotal(totals)
    ensures MaxTotal(totals) == 0.0 || exists i :: 0 <= i < |totals| && totals[i] == MaxTotal(totals)
  {
    if totals != [] {
      var init := totals[..|totals| - 1];
      MaxTotalBounds(init);
      var m := MaxTotal(init);
      if m != 0.0 {
        var i :| 0 <= i < |init| && init[i] == m;
        assert totals[i] == init[i];
      }
      forall i | 0 <= i < |totals|
        ensures totals[i] <= MaxTotal(totals)
      {
        if i < |init| {
          assert totals[i] == init[i];
        }
      }
    }
  }

  /** Builds the stacked chart: one label and one stack per composition, and the
      colour of every material. It also computes each composition's absolute total
      and the largest of them (at least 0), which the source leaves unused. The
      totals leave out the excavation term. */
  method Breakdown(s: seq<(Id, Instance)>)
    returns (labels: seq<string>, stacks: seq<seq<Segment>>, totals: seq<real>, maxTotal: real, colours: map<Material, nat>)
    ensures |labels| == |stacks| == |totals| == |s|
    ensures forall i :: 0 <= i < |s| ==> DrawnAs(s[i], labels[i], stacks[i], totals[i])
    ensures maxTotal == MaxTotal(totals)
    ensures colours == FirstSeen(DrawOrder(s))
  {
    labels, stacks, totals, maxTotal, colours := [], [], [], 0.0, map[];
    for i := 0 to |s|
      invariant |labels| == |stacks| == |totals| == i
      invariant forall j :: 0 <= j < i ==> DrawnAs(s[j], labels[j], stacks[j], totals[j])
      invariant maxTotal == MaxTotal(totals)
      invariant colours == FirstSeen(DrawOrder(s[..i]))
    {
      var name, segs, totalAbs;
      name, segs, totalAbs, colours := DrawComposition(s[i], colours, DrawOrder(s[..i]));
      ghost var before := totals;
      DrawnAsExtend(s[..i + 1], labels, stacks, totals, name, segs, totalAbs);
      labels, stacks, totals := labels + [name], stacks + [segs], totals + [totalAbs];
      assert totals[..i] == before;
      if totalAbs > maxTotal {
        maxTotal := totalAbs;
      }
      DrawOrderStep(s, i);
    }
    assert s[..|s|] == s;
  }

  /** The chart's absolute total of a composition is the table's total minus the
      excavation term, which the chart does not draw. */
  lemma ChartOmitsExcavation(p: (Id, Instance))
    ensures LayersFootprint(p.1.layers) * p.1.surface
            == RowTotal(p) - ImpactExcavation * Depth(p.1.layers) / 100.0 * p.1.surface
  {
  }
}
