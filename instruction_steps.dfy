/** The assembly steps of services/builder.ts (`generateInstructionSteps`):
    the blocks grouped into layers by height, lowest layer first. */
module InstructionSteps {
  import opened Types
  import opened JsMath

  /** The layer key `y.toFixed(1)`: the height in tenths, rounded half away
      from zero, and whether the text carries a minus sign. The sign matters
      only for heights in (-0.05, 0), which give "-0.0", a key distinct from
      "0.0" although both parse to zero. */
  datatype LayerKey = LayerKey(tenths: int, negative: bool)

  function KeyOf(y: real): (k: LayerKey)
    ensures k.tenths as real - 0.5 <= 10.0 * y <= k.tenths as real + 0.5
  {
    LayerKey(RoundHalfAway(10.0 * y), y < 0.0)
  }

  function BlockKey(b: PlacedBrock): LayerKey
  {
    KeyOf(b.position.y)
  }

  /** A lower block never gets a higher key. */
  lemma KeyMonotone(y1: real, y2: real)
    requires y1 <= y2
    ensures KeyOf(y1).tenths <= KeyOf(y2).tenths
  {
    var n1, n2 := RoundHalfAway(10.0 * y1), RoundHalfAway(10.0 * y2);
    if y2 >= 0.0 {
      assert n1 as real - 0.5 <= 10.0 * y1 <= 10.0 * y2 < n2 as real + 0.5;
    } else {
      assert n1 as real - 0.5 < 10.0 * y1 <= 10.0 * y2 <= n2 as real + 0.5;
    }
  }

  /** The blocks of one layer, in input order. */
  function Layer(blocks: seq<PlacedBrock>, k: LayerKey): (r: seq<PlacedBrock>)
    ensures forall b :: b in r ==> b in blocks && BlockKey(b) == k
  {
    if blocks == [] then []
    else
      var last := blocks[|blocks| - 1];
      Layer(blocks[..|blocks| - 1], k) + (if BlockKey(last) == k then [last] else [])
  }

  /** The layer keys in order of first appearance, as a dictionary lists
      keys that are not array indices. */
  function KeysInOrder(blocks: seq<PlacedBrock>): (ks: seq<LayerKey>)
    ensures NoDuplicates(ks)
  {
    if blocks == [] then []
    else
      var init := blocks[..|blocks| - 1];
      var last := blocks[|blocks| - 1];
      var ks := KeysInOrder(init);
      if BlockKey(last) in ks then ks else ks + [BlockKey(last)]
  }

  /** Every block's key is listed ... */
  lemma {:induction false} KeysInOrderComplete(blocks: seq<PlacedBrock>, b: PlacedBrock)
    requires b in blocks
    ensures BlockKey(b) in KeysInOrder(blocks)
  {
    var init := blocks[..|blocks| - 1];
    assert blocks == init + [blocks[|blocks| - 1]];
    if b in init {
      KeysInOrderComplete(init, b);
    }
  }

  /** ... and only those keys are. */
  lemma {:induction false} KeysInOrderSound(blocks: seq<PlacedBrock>, k: LayerKey)
    requires k in KeysInOrder(blocks)
    ensures exists b :: b in blocks && BlockKey(b) == k
  {
    var init := blocks[..|blocks| - 1];
    var last := blocks[|blocks| - 1];
    assert blocks == init + [last];
    if k in KeysInOrder(init) {
      KeysInOrderSound(init, k);
      var b :| b in init && BlockKey(b) == k;
      assert b in blocks;
    } else {
      assert BlockKey(last) == k;
    }
  }

  /** A key that no block has has an empty layer. */
  lemma {:induction false} LayerAbsent(blocks: seq<PlacedBrock>, k: LayerKey)
    requires k !in KeysInOrder(blocks)
    ensures Layer(blocks, k) == []
  {
    if blocks != [] {
      var init := blocks[..|blocks| - 1];
      assert blocks == init + [blocks[|blocks| - 1]];
      LayerAbsent(init, k);
    }
  }

  predicate SortedByTenths(ks: seq<LayerKey>)
  {
    forall i, j :: 0 <= i < j < |ks| ==> ks[i].tenths <= ks[j].tenths
  }

  /** Places k after every key of s whose value is not larger: one step of a
      stable insertion sort. */
  function InsertByTenths(s: seq<LayerKey>, k: LayerKey): (r: seq<LayerKey>)
    ensures multiset(r) == multiset(s) + multiset{k}
  {
    if s == [] then [k]
    else if s[|s| - 1].tenths <= k.tenths then s + [k]
    else
      var init := s[..|s| - 1];
      assert s == init + [s[|s| - 1]];
      InsertByTenths(init, k) + [s[|s| - 1]]
  }

  lemma {:induction false} InsertSorted(s: seq<LayerKey>, k: LayerKey)
    requires SortedByTenths(s)
    ensures SortedByTenths(InsertByTenths(s, k))
  {
    if s == [] {
    } else if s[|s| - 1].tenths <= k.tenths {
      SortedSnoc(s, k);
    } else {
      var init := s[..|s| - 1];
      var last := s[|s| - 1];
      assert s == init + [last];
      InsertSorted(init, k);
      var r := InsertByTenths(init, k);
      forall i | 0 <= i < |r| ensures r[i].tenths <= last.tenths {
        assert r[i] in multiset(init) + multiset{k};
      }
      SortedSnoc(r, last);
    }
  }

  /** Appending a key no smaller than the last keeps a sorted list sorted. */
  lemma SortedSnoc(s: seq<LayerKey>, x: LayerKey)
    requires SortedByTenths(s) && (s != [] ==> s[|s| - 1].tenths <= x.tenths)
    ensures SortedByTenths(s + [x])
  {
  }

  /** `sort((a, b) => parseFloat(a) - parseFloat(b))`: a stable sort by
      numeric value, so "-0.0" and "0.0" keep their relative order. */
  function SortByTenths(ks: seq<LayerKey>): (r: seq<LayerKey>)
    ensures multiset(r) == multiset(ks)
    ensures SortedByTenths(r)
  {
    if ks == [] then []
    else
      var init := ks[..|ks| - 1];
      assert ks == init + [ks[|ks| - 1]];
      InsertSorted(SortByTenths(init), ks[|ks| - 1]);
      InsertByTenths(SortByTenths(init), ks[|ks| - 1])
  }

  lemma {:induction false} InsertNoDuplicates(s: seq<LayerKey>, k: LayerKey)
    requires NoDuplicates(s) && k !in s
    ensures NoDuplicates(InsertByTenths(s, k))
  {
    if s != [] && s[|s| - 1].tenths > k.tenths {
      var init := s[..|s| - 1];
      var last := s[|s| - 1];
      assert s == init + [last];
      InsertNoDuplicates(init, k);
      var r := InsertByTenths(init, k);
      assert last !in multiset(r);
    }
  }

  lemma {:induction false} SortNoDuplicates(ks: seq<LayerKey>)
    requires NoDuplicates(ks)
    ensures NoDuplicates(SortByTenths(ks))
  {
    if ks != [] {
      var init := ks[..|ks| - 1];
      var last := ks[|ks| - 1];
      assert ks == init + [last];
      SortNoDuplicates(init);
      assert last !in multiset(SortByTenths(init));
      InsertNoDuplicates(SortByTenths(init), last);
    }
  }

  /** The layers of the given keys, in the given order. */
  function LayersOf(blocks: seq<PlacedBrock>, ks: seq<LayerKey>): (r: seq<seq<PlacedBrock>>)
    ensures |r| == |ks|
    ensures forall j :: 0 <= j < |ks| ==> r[j] == Layer(blocks, ks[j])
  {
    if ks == [] then [] else [Layer(blocks, ks[0])] + LayersOf(blocks, ks[1..])
  }

  /** The keys of the steps: every key that occurs, by ascending value. */
  function StepKeys(blocks: seq<PlacedBrock>): seq<LayerKey>
  {
    SortByTenths(KeysInOrder(blocks))
  }

  /** What `generateInstructionSteps` returns. */
  function Steps(blocks: seq<PlacedBrock>): seq<seq<PlacedBrock>>
  {
    LayersOf(blocks, StepKeys(blocks))
  }

  /** `generateInstructionSteps`: fills a dictionary from layer key to the
      blocks of that layer, then lists the layers by ascending key. */
  method GenerateInstructionSteps(blocks: seq<PlacedBrock>) returns (steps: seq<seq<PlacedBrock>>)
    ensures steps == Steps(blocks)
  {
    if |blocks| == 0 {
      return [];
    }
    var layers, keys := GroupByLayer(blocks);
    var sortedKeys := SortByTenths(keys);
    forall k | k in sortedKeys ensures k in layers {
      assert k in multiset(keys);
    }
    steps := LookUp(layers, sortedKeys);
    LookUpLayers(blocks, layers, sortedKeys);
  }

  /** `sortedKeys.map(key => layers[key])`. */
  function LookUp(layers: map<LayerKey, seq<PlacedBrock>>, ks: seq<LayerKey>): (r: seq<seq<PlacedBrock>>)
    requires forall k :: k in ks ==> k in layers
    ensures |r| == |ks|
  {
    if ks == [] then [] else [layers[ks[0]]] + LookUp(layers, ks[1..])
  }

  /** Looking the keys up in a dictionary that holds each key's layer lists
      the layers of those keys. */
  lemma {:induction false} LookUpLayers(blocks: seq<PlacedBrock>, layers: map<LayerKey, seq<PlacedBrock>>, ks: seq<LayerKey>)
    requires forall k :: k in ks ==> k in layers
    requires forall k :: k in layers ==> layers[k] == Layer(blocks, k)
    ensures LookUp(layers, ks) == LayersOf(blocks, ks)
  {
    if ks != [] {
      LookUpLayers(blocks, layers, ks[1..]);
    }
  }

  /** The `forEach` of `generateInstructionSteps`: the dictionary of layers
      and its keys in insertion order. */
  method GroupByLayer(blocks: seq<PlacedBrock>) returns (layers: map<LayerKey, seq<PlacedBrock>>, keys: seq<LayerKey>)
    ensures keys == KeysInOrder(blocks)
    ensures forall k :: k in layers <==> k in keys
    ensures forall k :: k in layers ==> layers[k] == Layer(blocks, k)
  {
    layers := map[];
    keys := [];
    var i := 0;
    while i < |blocks|
      invariant 0 <= i <= |blocks|
      invariant keys == KeysInOrder(blocks[..i])
      invariant forall k :: k in layers <==> k in keys
      invariant forall k :: k in layers ==> layers[k] == Layer(blocks[..i], k)
    {
      var block := blocks[i];
      var yKey := KeyOf(block.position.y);
      assert blocks[..i + 1][..i] == blocks[..i] && blocks[..i + 1][i] == block;
      assert forall k :: Layer(blocks[..i + 1], k) == Layer(blocks[..i], k) + (if yKey == k then [block] else []);
      if yKey !in layers {
        LayerAbsent(blocks[..i], yKey);
        layers := layers[yKey := []];
        keys := keys + [yKey];
      }
      layers := layers[yKey := layers[yKey] + [block]];
      i := i + 1;
    }
    assert blocks[..i] == blocks;
  }

  // ---- Properties of the steps ----

  /** Each step is one whole layer: non-empty, its blocks share one key, and
      it holds every block with that key in input order. */
  lemma StepsAreLayers(blocks: seq<PlacedBrock>, i: nat)
    requires i < |Steps(blocks)|
    ensures Steps(blocks)[i] != []
    ensures forall b :: b in Steps(blocks)[i] ==> BlockKey(b) == StepKeys(blocks)[i]
    ensures Steps(blocks)[i] == Layer(blocks, StepKeys(blocks)[i])
  {
    var k := StepKeys(blocks)[i];
    assert k in multiset(KeysInOrder(blocks));
    KeysInOrderSound(blocks, k);
    var b :| b in blocks && BlockKey(b) == k;
    LayerHas(blocks, b);
  }

  lemma {:induction false} LayerHas(blocks: seq<PlacedBrock>, b: PlacedBrock)
    requires b in blocks
    ensures b in Layer(blocks, BlockKey(b))
  {
    var init := blocks[..|blocks| - 1];
    assert blocks == init + [blocks[|blocks| - 1]];
    if b in init {
      LayerHas(init, b);
    }
  }

  /** The steps go up: every block of an earlier step is at a key no higher
      than every block of a later step, and different steps have different
      keys. */
  lemma StepsAscend(blocks: seq<PlacedBrock>, i: nat, j: nat, a: PlacedBrock, b: PlacedBrock)
    requires i < j < |Steps(blocks)|
    requires a in Steps(blocks)[i] && b in Steps(blocks)[j]
    ensures BlockKey(a).tenths <= BlockKey(b).tenths
    ensures BlockKey(a) != BlockKey(b)
  {
    StepsAreLayers(blocks, i);
    StepsAreLayers(blocks, j);
    SortNoDuplicates(KeysInOrder(blocks));
  }

  function Flatten(ss: seq<seq<PlacedBrock>>): seq<PlacedBrock>
  {
    if ss == [] then [] else ss[0] + Flatten(ss[1..])
  }

  /** The blocks of the layers of some keys, counted with multiplicity. */
  function Grouped(blocks: seq<PlacedBrock>, ks: seq<LayerKey>): multiset<PlacedBrock>
  {
    if ks == [] then multiset{} else multiset(Layer(blocks, ks[0])) + Grouped(blocks, ks[1..])
  }

  lemma {:induction false} FlattenGrouped(blocks: seq<PlacedBrock>, ks: seq<LayerKey>)
    ensures multiset(Flatten(LayersOf(blocks, ks))) == Grouped(blocks, ks)
  {
    if ks != [] {
      FlattenGrouped(blocks, ks[1..]);
      assert LayersOf(blocks, ks)[1..] == LayersOf(blocks, ks[1..]);
    }
  }

  /** Adding a block adds it to the grouping once if its key is listed. */
  lemma {:induction false} GroupedSnoc(blocks: seq<PlacedBrock>, b: PlacedBrock, ks: seq<LayerKey>)
    requires NoDuplicates(ks)
    ensures Grouped(blocks + [b], ks)
      == Grouped(blocks, ks) + (if BlockKey(b) in ks then multiset{b} else multiset{})
  {
    if ks != [] {
      var k, rest := ks[0], ks[1..];
      GroupedSnoc(blocks, b, rest);
      LayerSnoc(blocks, b, k);
      var A, B := multiset(Layer(blocks, k)), Grouped(blocks, rest);
      if BlockKey(b) == k {
        assert BlockKey(b) !in rest;
        assert multiset(Layer(blocks + [b], k)) == A + multiset{b};
        assert Grouped(blocks + [b], rest) == B;
        assert Grouped(blocks + [b], ks) == A + multiset{b} + B;
      } else {
        assert BlockKey(b) in ks <==> BlockKey(b) in rest;
        assert multiset(Layer(blocks + [b], k)) == A;
      }
    }
  }

  /** Adding a block adds it at the end of its own layer only. */
  lemma LayerSnoc(blocks: seq<PlacedBrock>, b: PlacedBrock, k: LayerKey)
    ensures Layer(blocks + [b], k) == Layer(blocks, k) + (if BlockKey(b) == k then [b] else [])
  {
    assert (blocks + [b])[..|blocks|] == blocks;
  }

  /** When the keys cover every block exactly once, the grouping holds each
      block exactly once. */
  lemma {:induction false} GroupedAll(blocks: seq<PlacedBrock>, ks: seq<LayerKey>)
    requires NoDuplicates(ks)
    requires forall b :: b in blocks ==> BlockKey(b) in ks
    ensures Grouped(blocks, ks) == multiset(blocks)
  {
    if blocks == [] {
      GroupedEmpty(ks);
    } else {
      var init := blocks[..|blocks| - 1];
      var last := blocks[|blocks| - 1];
      assert blocks == init + [last];
      GroupedAll(init, ks);
      GroupedSnoc(init, last, ks);
    }
  }

  lemma {:induction false} GroupedEmpty(ks: seq<LayerKey>)
    ensures Grouped([], ks) == multiset{}
  {
    if ks != [] {
      GroupedEmpty(ks[1..]);
    }
  }

  /** Read one after the other, the steps hold exactly the input blocks. */
  lemma StepsPermutation(blocks: seq<PlacedBrock>)
    ensures multiset(Flatten(Steps(blocks))) == multiset(blocks)
  {
    var ks := StepKeys(blocks);
    SortNoDuplicates(KeysInOrder(blocks));
    forall b | b in blocks ensures BlockKey(b) in ks {
      KeysInOrderComplete(blocks, b);
      assert BlockKey(b) in multiset(KeysInOrder(blocks));
    }
    FlattenGrouped(blocks, ks);
    GroupedAll(blocks, ks);
  }

  /** Four blocks at heights 0, 0.5, 0.5 and 1 make three steps: the lowest,
      the two middle ones in input order, the highest. */
  lemma StepsExample(a: PlacedBrock, b: PlacedBrock, c: PlacedBrock, d: PlacedBrock)
    requires a.position.y == 0.0 && b.position.y == 0.5 && c.position.y == 0.5 && d.position.y == 1.0
    ensures Steps([a, b, c, d]) == [[a], [b, c], [d]]
  {
    var k0, k5, k10 := LayerKey(0, false), LayerKey(5, false), LayerKey(10, false);
    ExampleKeys(a, b, c, d);
    ExampleSort(k0, k5, k10);
    ExampleLayers(a, b, c, d);
    assert StepKeys([a, b, c, d]) == [k0, k5, k10];
  }

  lemma ExampleBlockKeys(a: PlacedBrock, b: PlacedBrock, c: PlacedBrock, d: PlacedBrock)
    requires a.position.y == 0.0 && b.position.y == 0.5 && c.position.y == 0.5 && d.position.y == 1.0
    ensures BlockKey(a) == LayerKey(0, false) && BlockKey(b) == LayerKey(5, false)
    ensures BlockKey(c) == LayerKey(5, false) && BlockKey(d) == LayerKey(10, false)
  {
  }

  lemma ExamplePrefixes(a: PlacedBrock, b: PlacedBrock, c: PlacedBrock, d: PlacedBrock)
    ensures [a, b, c, d][..3] == [a, b, c] && [a, b, c][..2] == [a, b] && [a, b][..1] == [a] && [a][..0] == []
  {
  }

  lemma ExampleKeys(a: PlacedBrock, b: PlacedBrock, c: PlacedBrock, d: PlacedBrock)
    requires a.position.y == 0.0 && b.position.y == 0.5 && c.position.y == 0.5 && d.position.y == 1.0
    ensures KeysInOrder([a, b, c, d]) == [LayerKey(0, false), LayerKey(5, false), LayerKey(10, false)]
  {
    var k0, k5, k10 := LayerKey(0, false), LayerKey(5, false), LayerKey(10, false);
    ExampleBlockKeys(a, b, c, d);
    ExamplePrefixes(a, b, c, d);
    assert KeysInOrder([a]) == [k0];
    assert KeysInOrder([a, b]) == [k0, k5];
    assert KeysInOrder([a, b, c]) == [k0, k5];
  }

  lemma ExampleSort(k0: LayerKey, k5: LayerKey, k10: LayerKey)
    requires k0.tenths == 0 && k5.tenths == 5 && k10.tenths == 10
    ensures SortByTenths([k0, k5, k10]) == [k0, k5, k10]
  {
    assert [k0, k5, k10][..2] == [k0, k5] && [k0, k5][..1] == [k0] && [k0][..0] == [];
    assert SortByTenths([k0]) == [k0];
    assert InsertByTenths([k0], k5) == [k0, k5];
    assert SortByTenths([k0, k5]) == [k0, k5];
    assert InsertByTenths([k0, k5], k10) == [k0, k5, k10];
  }

  lemma ExampleLayers(a: PlacedBrock, b: PlacedBrock, c: PlacedBrock, d: PlacedBrock)
    requires a.position.y == 0.0 && b.position.y == 0.5 && c.position.y == 0.5 && d.position.y == 1.0
    ensures Layer([a, b, c, d], LayerKey(0, false)) == [a]
    ensures Layer([a, b, c, d], LayerKey(5, false)) == [b, c]
    ensures Layer([a, b, c, d], LayerKey(10, false)) == [d]
  {
    ExampleBlockKeys(a, b, c, d);
    ExamplePrefixes(a, b, c, d);
    ExampleLayer(a, b, c, d, LayerKey(0, false), [a], [a], [a], [a]);
    ExampleLayer(a, b, c, d, LayerKey(5, false), [], [b], [b, c], [b, c]);
    ExampleLayer(a, b, c, d, LayerKey(10, false), [], [], [], [d]);
  }

  /** One layer of the example, built up one block at a time. */
  lemma ExampleLayer(a: PlacedBrock, b: PlacedBrock, c: PlacedBrock, d: PlacedBrock, k: LayerKey,
                     l1: seq<PlacedBrock>, l2: seq<PlacedBrock>, l3: seq<PlacedBrock>, l4: seq<PlacedBrock>)
    requires [a, b, c, d][..3] == [a, b, c] && [a, b, c][..2] == [a, b] && [a, b][..1] == [a] && [a][..0] == []
    requires l1 == (if BlockKey(a) == k then [a] else [])
    requires l2 == l1 + (if BlockKey(b) == k then [b] else [])
    requires l3 == l2 + (if BlockKey(c) == k then [c] else [])
    requires l4 == l3 + (if BlockKey(d) == k then [d] else [])
    ensures Layer([a, b, c, d], k) == l4
  {
    assert Layer([a], k) == l1;
    assert Layer([a, b], k) == l2;
    assert Layer([a, b, c], k) == l3;
  }
}
