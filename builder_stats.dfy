/** The rollups of services/builder.ts: the running totals of a design and
    the size of the current selection. */
module BuilderStats {
  import opened Types
  import opened JsMath
  import opened Constants
  import opened Builder

  // ---- calculateStats ----

  /** The totals `calculateStats` returns; `counts` is keyed by catalogue name. */
  datatype Stats = Stats(totalCost: real, totalWeight: real, totalSdg: real, counts: map<string, nat>)

  /** What one block adds: its catalogue cost and weight, its sustainability
      figure (0 when the table has none), or nothing when the catalogue does
      not list its type. */
  function CostOf(b: PlacedBrock, specs: map<BrockType, BrockSpec>): real
  {
    if b.kind in specs then specs[b.kind].cost else 0.0
  }

  function WeightOf(b: PlacedBrock, specs: map<BrockType, BrockSpec>): real
  {
    if b.kind in specs then specs[b.kind].weight else 0.0
  }

  function SdgOf(b: PlacedBrock, specs: map<BrockType, BrockSpec>, sdg: map<BrockType, real>): real
  {
    if b.kind in specs && b.kind in sdg then sdg[b.kind] else 0.0
  }

  /** The sums over a list of blocks. */
  function TotalCost(blocks: seq<PlacedBrock>, specs: map<BrockType, BrockSpec>): real
  {
    if blocks == [] then 0.0 else TotalCost(blocks[..|blocks| - 1], specs) + CostOf(blocks[|blocks| - 1], specs)
  }

  function TotalWeight(blocks: seq<PlacedBrock>, specs: map<BrockType, BrockSpec>): real
  {
    if blocks == [] then 0.0 else TotalWeight(blocks[..|blocks| - 1], specs) + WeightOf(blocks[|blocks| - 1], specs)
  }

  function TotalSdg(blocks: seq<PlacedBrock>, specs: map<BrockType, BrockSpec>, sdg: map<BrockType, real>): real
  {
    if blocks == [] then 0.0 else TotalSdg(blocks[..|blocks| - 1], specs, sdg) + SdgOf(blocks[|blocks| - 1], specs, sdg)
  }

  /** The number of listed blocks whose catalogue entry has the given name. */
  function NameCount(blocks: seq<PlacedBrock>, specs: map<BrockType, BrockSpec>, name: string): nat
  {
    if blocks == [] then 0
    else
      var b := blocks[|blocks| - 1];
      NameCount(blocks[..|blocks| - 1], specs, name) + (if b.kind in specs && specs[b.kind].name == name then 1 else 0)
  }

  /** `calculateStats` against the current catalogue `specs` and the current
      sustainability table `sdg`: the totals over the listed blocks and, per
      catalogue name, how many blocks carry it. */
  method CalculateStats(blocks: seq<PlacedBrock>, specs: map<BrockType, BrockSpec>, sdg: map<BrockType, real>)
    returns (st: Stats)
    ensures st.totalCost == TotalCost(blocks, specs)
    ensures st.totalWeight == TotalWeight(blocks, specs)
    ensures st.totalSdg == TotalSdg(blocks, specs, sdg)
    ensures forall name :: name in st.counts <==> NameCount(blocks, specs, name) > 0
    ensures forall name :: name in st.counts ==> st.counts[name] == NameCount(blocks, specs, name)
  {
    var totalCost, totalWeight, totalSdg := 0.0, 0.0, 0.0;
    var counts: map<string, nat> := map[];
    var i := 0;
    while i < |blocks|
      invariant 0 <= i <= |blocks|
      invariant totalCost == TotalCost(blocks[..i], specs)
      invariant totalWeight == TotalWeight(blocks[..i], specs)
      invariant totalSdg == TotalSdg(blocks[..i], specs, sdg)
      invariant forall name :: name in counts <==> NameCount(blocks[..i], specs, name) > 0
      invariant forall name :: name in counts ==> counts[name] == NameCount(blocks[..i], specs, name)
    {
      var block := blocks[i];
      assert blocks[..i + 1][..i] == blocks[..i];
      if block.kind in specs {
        var spec := specs[block.kind];
        totalCost := totalCost + spec.cost;
        totalWeight := totalWeight + spec.weight;
        totalSdg := totalSdg + (if block.kind in sdg then sdg[block.kind] else 0.0);
        counts := counts[spec.name := (if spec.name in counts then counts[spec.name] else 0) + 1];
      }
      i := i + 1;
    }
    assert blocks[..i] == blocks;
    st := Stats(totalCost, totalWeight, totalSdg, counts);
  }

  /** The totals of two lists together are the sums of their totals: the
      rollup does not depend on how the design is split. */
  lemma {:induction false} TotalsAppend(a: seq<PlacedBrock>, b: seq<PlacedBrock>, specs: map<BrockType, BrockSpec>,
                                        sdg: map<BrockType, real>, name: string)
    ensures TotalCost(a + b, specs) == TotalCost(a, specs) + TotalCost(b, specs)
    ensures TotalWeight(a + b, specs) == TotalWeight(a, specs) + TotalWeight(b, specs)
    ensures TotalSdg(a + b, specs, sdg) == TotalSdg(a, specs, sdg) + TotalSdg(b, specs, sdg)
    ensures NameCount(a + b, specs, name) == NameCount(a, specs, name) + NameCount(b, specs, name)
  {
    if b == [] {
      assert a + b == a;
    } else {
      var b' := b[..|b| - 1];
      assert (a + b)[..|a + b| - 1] == a + b';
      assert (a + b)[|a + b| - 1] == b[|b| - 1];
      TotalsAppend(a, b', specs, sdg, name);
    }
  }

  /** A block whose type the catalogue does not list changes no total. */
  lemma UnlistedAddsNothing(blocks: seq<PlacedBrock>, b: PlacedBrock, specs: map<BrockType, BrockSpec>,
                            sdg: map<BrockType, real>, name: string)
    requires b.kind !in specs
    ensures TotalCost(blocks + [b], specs) == TotalCost(blocks, specs)
    ensures TotalWeight(blocks + [b], specs) == TotalWeight(blocks, specs)
    ensures TotalSdg(blocks + [b], specs, sdg) == TotalSdg(blocks, specs, sdg)
    ensures NameCount(blocks + [b], specs, name) == NameCount(blocks, specs, name)
  {
    assert (blocks + [b])[..|blocks|] == blocks;
  }

  // ---- calculateSelectionBounds ----

  /** The overall size of the selection in metres. */
  datatype SelectionSize = SelectionSize(width: real, height: real, depth: real)

  const UnitMeters: real := 0.2

  /** The box a block occupies according to its rotated dimensions. */
  function Footprint(b: PlacedBrock): (a: Aabb)
    ensures a.min.x < a.max.x && a.min.y < a.max.y && a.min.z < a.max.z
  {
    var d := RotatedDimensions(b.kind, b.rotation);
    RotatedDimensionsPositive(b.kind, b.rotation);
    Aabb(Sub(b.position, Scale(d, 0.5)), Add(b.position, Scale(d, 0.5)))
  }

  /** The smallest box holding two boxes. */
  function Join(a: Aabb, b: Aabb): Aabb
  {
    Aabb(Vec3(Min(a.min.x, b.min.x), Min(a.min.y, b.min.y), Min(a.min.z, b.min.z)),
         Vec3(Max(a.max.x, b.max.x), Max(a.max.y, b.max.y), Max(a.max.z, b.max.z)))
  }

  /** The joined footprints of the selected blocks, none if no block is
      selected. */
  function Hull(blocks: seq<PlacedBrock>, selected: set<Id>): (h: Option<Aabb>)
    ensures h.Some? ==> h.value.min.x <= h.value.max.x && h.value.min.y <= h.value.max.y && h.value.min.z <= h.value.max.z
  {
    if blocks == [] then None
    else
      var h := Hull(blocks[..|blocks| - 1], selected);
      var b := blocks[|blocks| - 1];
      if b.id !in selected then h
      else if h.None? then Some(Footprint(b))
      else Some(Join(h.value, Footprint(b)))
  }

  /** The size of a box in metres, never negative. */
  function SizeInMeters(a: Aabb): SelectionSize
  {
    SelectionSize(Max(0.0, a.max.x - a.min.x) * UnitMeters,
                  Max(0.0, a.max.y - a.min.y) * UnitMeters,
                  Max(0.0, a.max.z - a.min.z) * UnitMeters)
  }

  /** `calculateSelectionBounds`: the size in metres of the box holding every
      selected block, or none when no block of the list is selected. */
  method CalculateSelectionBounds(blocks: seq<PlacedBrock>, selectedIds: set<Id>) returns (r: Option<SelectionSize>)
    ensures r.None? <==> Hull(blocks, selectedIds).None?
    ensures r.Some? ==> r.value == SizeInMeters(Hull(blocks, selectedIds).value)
  {
    if |selectedIds| == 0 {
      HullEmptySelection(blocks, selectedIds);
      return None;
    }
    var acc := Aabb(Origin, Origin);
    var hasBlocks := false;
    var i := 0;
    while i < |blocks|
      invariant 0 <= i <= |blocks|
      invariant hasBlocks <==> Hull(blocks[..i], selectedIds).Some?
      invariant hasBlocks ==> acc == Hull(blocks[..i], selectedIds).value
    {
      var b := blocks[i];
      assert blocks[..i + 1][..i] == blocks[..i];
      if b.id in selectedIds {
        var fp := Footprint(b);
        acc := if hasBlocks then Join(acc, fp) else fp;
        hasBlocks := true;
      }
      i := i + 1;
    }
    assert blocks[..i] == blocks;
    if !hasBlocks {
      return None;
    }
    r := Some(SizeInMeters(acc));
  }

  /** There is a hull exactly when some block of the list is selected. */
  lemma {:induction false} HullExists(blocks: seq<PlacedBrock>, selected: set<Id>)
    ensures Hull(blocks, selected).Some? <==> exists b :: b in blocks && b.id in selected
  {
    if blocks != [] {
      var init := blocks[..|blocks| - 1];
      HullExists(init, selected);
      assert blocks == init + [blocks[|blocks| - 1]];
    }
  }

  lemma HullEmptySelection(blocks: seq<PlacedBrock>, selected: set<Id>)
    requires |selected| == 0
    ensures Hull(blocks, selected).None?
  {
    HullExists(blocks, selected);
  }

  /** Every selected block lies inside the hull. */
  lemma {:induction false} HullContains(blocks: seq<PlacedBrock>, selected: set<Id>, b: PlacedBrock)
    requires b in blocks && b.id in selected
    ensures Hull(blocks, selected).Some?
    ensures var h := Hull(blocks, selected).value; var fp := Footprint(b);
      Within(fp.min, h.min, h.max) && Within(fp.max, h.min, h.max)
  {
    var init := blocks[..|blocks| - 1];
    var last := blocks[|blocks| - 1];
    assert blocks == init + [last];
    if b in init {
      HullContains(init, selected, b);
    }
  }

  /** The hull is no bigger than needed: each of its faces touches the
      footprint of some selected block. */
  lemma {:induction false} HullTight(blocks: seq<PlacedBrock>, selected: set<Id>)
    requires Hull(blocks, selected).Some?
    ensures var h := Hull(blocks, selected).value;
      (exists b :: b in blocks && b.id in selected && Footprint(b).min.x == h.min.x)
      && (exists b :: b in blocks && b.id in selected && Footprint(b).max.x == h.max.x)
      && (exists b :: b in blocks && b.id in selected && Footprint(b).min.y == h.min.y)
      && (exists b :: b in blocks && b.id in selected && Footprint(b).max.y == h.max.y)
      && (exists b :: b in blocks && b.id in selected && Footprint(b).min.z == h.min.z)
      && (exists b :: b in blocks && b.id in selected && Footprint(b).max.z == h.max.z)
  {
    var init := blocks[..|blocks| - 1];
    var last := blocks[|blocks| - 1];
    assert blocks == init + [last];
    assert forall b :: b in init ==> b in blocks;
    if Hull(init, selected).Some? {
      HullTight(init, selected);
    }
  }

  /** So the clamp at zero never acts: the reported size is exactly the
      hull's extent in metres, and it is positive on every axis. */
  lemma SelectionSizeExact(blocks: seq<PlacedBrock>, selected: set<Id>)
    requires Hull(blocks, selected).Some?
    ensures var h := Hull(blocks, selected).value; var s := SizeInMeters(h);
      s.width == (h.max.x - h.min.x) * UnitMeters && s.width > 0.0
      && s.height == (h.max.y - h.min.y) * UnitMeters && s.height > 0.0
      && s.depth == (h.max.z - h.min.z) * UnitMeters && s.depth > 0.0
  {
    HullExists(blocks, selected);
    var b :| b in blocks && b.id in selected;
    HullContains(blocks, selected, b);
  }
}
