/** The compositions a user is comparing: an insertion-ordered collection of
    identified instances, each a named, sized stack of layers, and the edits the
    user applies to it. */
module Compositions {
  import opened Wrappers
  import opened Catalog
  import opened Resolution

  /** An identifier of a composition (a freshly generated unique string). */
  type Id = string

  /** A composition: name, surface in m² and layers from top to bottom. */
  datatype Instance = Instance(name: string, surface: real, layers: seq<Layer>)

  /** The identifiers present in a collection. */
  function Keys(s: seq<(Id, Instance)>): set<Id> {
    set k | 0 <= k < |s| :: s[k].0
  }

  /** No identifier occurs twice. */
  ghost predicate UniqueIds(s: seq<(Id, Instance)>) {
    forall j, k :: 0 <= j < k < |s| ==> s[j].0 != s[k].0
  }

  /** Position of an identifier in the collection. */
  function IndexOf(s: seq<(Id, Instance)>, id: Id): (i: nat)
    requires id in Keys(s)
    ensures i < |s| && s[i].0 == id
    ensures forall k :: 0 <= k < i ==> s[k].0 != id
    decreases |s|
  {
    if s[0].0 == id then 0
    else
      assert id in Keys(s[1..]) by {
        var k :| 0 <= k < |s| && s[k].0 == id;
        assert s[1..][k - 1].0 == id;
      }
      1 + IndexOf(s[1..], id)
  }

  /** The layer added by the editor: an undefined material, 5 cm thick. */
  const NewLayer: Layer := Seed(Indefini, 5)

  /** A copy of a composition, as made by duplication. */
  function Copy(inst: Instance): (r: Instance)
    ensures r.name == inst.name + " (copie)"
    ensures r.surface == inst.surface && r.layers == inst.layers
    ensures |r.name| == |inst.name| + 8 && r.name[..|inst.name|] == inst.name
  {
    Instance(inst.name + " (copie)", inst.surface, inst.layers)
  }

  class Session {
    /** The compositions, in the order they were created. */
    var instances: seq<(Id, Instance)>

    /** Identifiers are unique and every surface is non-negative. */
    ghost predicate Valid()
      reads this
    {
      && UniqueIds(instances)
      && forall k :: 0 <= k < |instances| ==> instances[k].1.surface >= 0.0
    }

    function Lookup(id: Id): Instance
      reads this
      requires id in Keys(instances)
    {
      instances[IndexOf(instances, id)].1
    }

    constructor ()
      ensures Valid() && instances == []
    {
      instances := [];
    }

    /** Adds a composition built from a template: the template's name, 1 m² and
        the template's layers, under a fresh identifier at the end. */
    method AddComposition(newId: Id, p: Pavement)
      requires Valid() && newId !in Keys(instances)
      modifies this
      ensures Valid()
      ensures instances == old(instances) + [(newId, Instance(PavementName(p), 1.0, Template(p)))]
    {
      instances := instances + [(newId, Instance(PavementName(p), 1.0, Template(p)))];
    }

    /** Replaces the composition `id` by `inst`, in place. */
    method Replace(id: Id, inst: Instance)
      requires Valid() && id in Keys(instances) && inst.surface >= 0.0
      modifies this
      ensures Valid()
      ensures instances == old(instances)[IndexOf(old(instances), id) := (id, inst)]
    {
      var i := IndexOf(instances, id);
      instances := instances[i := (id, inst)];
    }

    method Rename(id: Id, name: string)
      requires Valid() && id in Keys(instances)
      modifies this
      ensures Valid()
      ensures instances == old(instances)[IndexOf(old(instances), id) := (id, old(Lookup(id)).(name := name))]
    {
      Replace(id, Lookup(id).(name := name));
    }

    method SetSurface(id: Id, surface: real)
      requires Valid() && id in Keys(instances) && surface >= 0.0
      modifies this
      ensures Valid()
      ensures instances == old(instances)[IndexOf(old(instances), id) := (id, old(Lookup(id)).(surface := surface))]
    {
      Replace(id, Lookup(id).(surface := surface));
    }

    /** Inserts a new layer on top of the stack. */
    method AddLayerTop(id: Id)
      requires Valid() && id in Keys(instances)
      modifies this
      ensures Valid()
      ensures instances == old(instances)[IndexOf(old(instances), id) :=
                (id, old(Lookup(id)).(layers := [NewLayer] + old(Lookup(id)).layers))]
    {
      var inst := Lookup(id);
      Replace(id, inst.(layers := [NewLayer] + inst.layers));
    }

    /** Appends a new layer at the bottom of the stack. */
    method AddLayerBottom(id: Id)
      requires Valid() && id in Keys(instances)
      modifies this
      ensures Valid()
      ensures instances == old(instances)[IndexOf(old(instances), id) :=
                (id, old(Lookup(id)).(layers := old(Lookup(id)).layers + [NewLayer]))]
    {
      var inst := Lookup(id);
      Replace(id, inst.(layers := inst.layers + [NewLayer]));
    }

    /** Applies the layer editor's entries to layer `idx`. */
    method EditLayer(id: Id, idx: nat, m: Material, ep: nat, ov: Overrides)
      requires Valid() && id in Keys(instances) && idx < |Lookup(id).layers|
      modifies this
      ensures Valid()
      ensures instances == old(instances)[IndexOf(old(instances), id) :=
                (id, old(Lookup(id)).(layers := old(Lookup(id)).layers[idx := EditedLayer(old(Lookup(id)).layers[idx], m, ep, ov)]))]
    {
      var inst := Lookup(id);
      Replace(id, inst.(layers := inst.layers[idx := EditedLayer(inst.layers[idx], m, ep, ov)]));
    }

    /** Runs the layer editor over composition `id`: walking its layers in order,
        layer k becomes the record edited with the k-th material, thickness and
        entries. */
    method RunEditor(id: Id, ms: seq<Material>, eps: seq<nat>, ovs: seq<Overrides>)
      requires Valid() && id in Keys(instances)
      requires |ms| == |eps| == |ovs| == |Lookup(id).layers|
      modifies this
      ensures Valid()
      ensures instances == old(instances)[IndexOf(old(instances), id) :=
                (id, old(Lookup(id)).(layers := EditedLayers(old(Lookup(id)).layers, ms, eps, ovs)))]
    {
      var inst := Lookup(id);
      var ls := inst.layers;
      for k := 0 to |ls|
        invariant |ls| == |inst.layers|
        invariant forall j :: 0 <= j < k ==> ls[j] == EditedLayer(inst.layers[j], ms[j], eps[j], ovs[j])
        invariant forall j :: k <= j < |ls| ==> ls[j] == inst.layers[j]
      {
        ls := ls[k := EditedLayer(ls[k], ms[k], eps[k], ovs[k])];
      }
      assert ls == EditedLayers(inst.layers, ms, eps, ovs);
      Replace(id, inst.(layers := ls));
    }

    /** Removes layer `idx`, keeping the others in order. */
    method RemoveLayer(id: Id, idx: nat)
      requires Valid() && id in Keys(instances) && idx < |Lookup(id).layers|
      modifies this
      ensures Valid()
      ensures instances == old(instances)[IndexOf(old(instances), id) :=
                (id, old(Lookup(id)).(layers := old(Lookup(id)).layers[..idx] + old(Lookup(id)).layers[idx + 1..]))]
    {
      var inst := Lookup(id);
      Replace(id, inst.(layers := inst.layers[..idx] + inst.layers[idx + 1..]));
    }

    /** Deletes composition `id`; the others keep their order. */
    method Delete(id: Id)
      requires Valid() && id in Keys(instances)
      modifies this
      ensures Valid()
      ensures id !in Keys(instances)
      ensures instances == old(instances[..IndexOf(instances, id)] + instances[IndexOf(instances, id) + 1..])
    {
      var i := IndexOf(instances, id);
      ghost var before := instances;
      instances := instances[..i] + instances[i + 1..];
      assert forall k :: 0 <= k < |instances| ==> instances[k] == before[if k < i then k else k + 1];
    }

    /** Appends a copy of composition `id` under the fresh identifier `newId`;
        the original is left as it was. */
    method Duplicate(id: Id, newId: Id)
      requires Valid() && id in Keys(instances) && newId !in Keys(instances)
      modifies this
      ensures Valid()
      ensures instances == old(instances) + [(newId, Copy(old(Lookup(id))))]
    {
      instances := instances + [(newId, Copy(Lookup(id)))];
    }
  }
}
