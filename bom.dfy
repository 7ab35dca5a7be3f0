/** The bill of materials (components/BOMModal.tsx): one line per block type
    in the design, with its count and its price, weight and SDG impact per
    unit and in total, sorted by the catalogue name, and the grand totals. */
module Bom {
  import opened Types
  import opened Constants

  /** One line of the bill. The source also keeps the catalogue entry, only
      to sort by its name, which `NameKey` reads instead. */
  datatype Item = Item(
    kind: BrockType, count: nat,
    unitPrice: real, totalPrice: real,
    unitWeight: real, totalWeight: real,
    unitSdg: real, totalSdg: real)

  /** The three quantities a bill adds up. */
  datatype Measure = Price | Weight | Sdg

  /** Every block has a catalogue type and the tables price all of them. */
  predicate Priced(blocks: seq<PlacedBrock>, prices: map<BrockType, real>,
                   weights: map<BrockType, real>, sdg: map<BrockType, real>)
  {
    && (forall i :: 0 <= i < |blocks| ==> blocks[i].kind in KnownTypes)
    && KnownTypes <= prices.Keys && KnownTypes <= weights.Keys && KnownTypes <= sdg.Keys
  }

  /** How many blocks have type `t`. */
  function Count(blocks: seq<PlacedBrock>, t: BrockType): nat
  {
    if blocks == [] then 0
    else Count(blocks[..|blocks| - 1], t) + (if blocks[|blocks| - 1].kind == t then 1 else 0)
  }

  /** A type is counted exactly when some block has it. */
  lemma {:induction false} CountPositive(blocks: seq<PlacedBrock>, t: BrockType)
    ensures Count(blocks, t) > 0 <==> exists i :: 0 <= i < |blocks| && blocks[i].kind == t
  {
    if blocks != [] {
      var front := blocks[..|blocks| - 1];
      CountPositive(front, t);
      if exists i :: 0 <= i < |front| && front[i].kind == t {
        var i :| 0 <= i < |front| && front[i].kind == t;
        assert blocks[i] == front[i];
      }
      if exists i :: 0 <= i < |blocks| && blocks[i].kind == t {
        var i :| 0 <= i < |blocks| && blocks[i].kind == t;
        if i < |front| {
          assert front[i] == blocks[i];
        }
      }
    }
  }

  /** The sum of `table` over the blocks, one term per block, in order. */
  function Total(blocks: seq<PlacedBrock>, table: map<BrockType, real>): real
    requires forall i :: 0 <= i < |blocks| ==> blocks[i].kind in table
  {
    if blocks == [] then 0.0
    else Total(blocks[..|blocks| - 1], table) + table[blocks[|blocks| - 1].kind]
  }

  /** `v` added `n` times, as a line's total is accumulated. */
  function Repeat(n: nat, v: real): real
  {
    if n == 0 then 0.0 else Repeat(n - 1, v) + v
  }

  /** Accumulating `n` times is multiplying by `n`. */
  lemma {:induction false} RepeatIsProduct(n: nat, v: real)
    ensures Repeat(n, v) == n as real * v
  {
    if n > 0 {
      RepeatIsProduct(n - 1, v);
      assert (n - 1) as real * v + v == n as real * v;
    }
  }

  /** The bill's line for type `t`. */
  function ItemOf(blocks: seq<PlacedBrock>, t: BrockType, prices: map<BrockType, real>,
                  weights: map<BrockType, real>, sdg: map<BrockType, real>): (item: Item)
    requires t in prices && t in weights && t in sdg
    ensures item.kind == t && item.count == Count(blocks, t)
    ensures item.unitPrice == prices[t] && item.unitWeight == weights[t] && item.unitSdg == sdg[t]
  {
    var n := Count(blocks, t);
    Item(t, n, prices[t], Repeat(n, prices[t]), weights[t], Repeat(n, weights[t]), sdg[t], Repeat(n, sdg[t]))
  }

  /** The catalogue types ordered by `name.localeCompare`: "1D - Brock",
      "2D - Brock", "3D - Brock", "4D - Brock", "BASE-Brock",
      "DOUBLE - Brock", "T - Brock". */
  const NameOrder: seq<BrockType> := [Conn1D, Conn2D, Conn3D, Conn4D, Base, Double, Terminal]

  /** What the comparison decides on: the first letters of the names differ,
      and digits come before capital letters. */
  function NameKey(t: BrockType): char
    requires t in KnownTypes
  {
    match t
    case Conn1D => '1'
    case Conn2D => '2'
    case Conn3D => '3'
    case Conn4D => '4'
    case Base => 'B'
    case Double => 'D'
    case Terminal => 'T'
  }

  /** The key is the first letter of the catalogue name. */
  lemma NameKeyIsInitial(t: BrockType)
    requires t in KnownTypes
    ensures NameKey(t) == InitialSpec(t).value.name[0]
  {
    match t
    case Conn1D =>
    case Conn2D =>
    case Conn3D =>
    case Conn4D =>
    case Base =>
    case Double =>
    case Terminal =>
  }

  /** `NameOrder` lists exactly the catalogue types. */
  lemma NameOrderCovers()
    ensures forall t :: t in KnownTypes <==> t in NameOrder
  {
  }

  /** `NameOrder` is in ascending key order, hence lists no type twice. */
  lemma NameOrderAscending()
    ensures Ascending(NameOrder)
  {
    var keys := "1234BDT";
    assert forall k :: 0 <= k < |NameOrder| ==> NameOrder[k] in KnownTypes && NameKey(NameOrder[k]) == keys[k];
  }

  /** The lines for the types `ts` that occur, in the order of `ts`. */
  function ItemsFor(blocks: seq<PlacedBrock>, ts: seq<BrockType>, prices: map<BrockType, real>,
                    weights: map<BrockType, real>, sdg: map<BrockType, real>): (items: seq<Item>)
    requires forall t :: t in ts ==> t in prices && t in weights && t in sdg
    ensures |items| <= |ts|
  {
    if ts == [] then []
    else
      var t := ts[|ts| - 1];
      ItemsFor(blocks, ts[..|ts| - 1], prices, weights, sdg)
        + (if Count(blocks, t) > 0 then [ItemOf(blocks, t, prices, weights, sdg)] else [])
  }

  /** The bill's lines: every type that occurs, by name. */
  function Items(blocks: seq<PlacedBrock>, prices: map<BrockType, real>,
                 weights: map<BrockType, real>, sdg: map<BrockType, real>): seq<Item>
    requires KnownTypes <= prices.Keys && KnownTypes <= weights.Keys && KnownTypes <= sdg.Keys
  {
    ItemsFor(blocks, NameOrder, prices, weights, sdg)
  }

  /** The `useMemo` body: one pass over the blocks fills a record keyed by
      type and the three grand totals, then the records are sorted by name. */
  method BillOfMaterials(blocks: seq<PlacedBrock>, prices: map<BrockType, real>,
                         weights: map<BrockType, real>, sdg: map<BrockType, real>)
    returns (items: seq<Item>, grandTotalCost: real, grandTotalWeight: real, grandTotalSdg: real)
    requires Priced(blocks, prices, weights, sdg)
    ensures items == Items(blocks, prices, weights, sdg)
    ensures grandTotalCost == Total(blocks, prices)
    ensures grandTotalWeight == Total(blocks, weights)
    ensures grandTotalSdg == Total(blocks, sdg)
  {
    var groups;
    groups, grandTotalCost, grandTotalWeight, grandTotalSdg := GroupByType(blocks, prices, weights, sdg);
    items := SortByName(blocks, groups, prices, weights, sdg);
  }

  /** The `forEach` pass: a line per type seen, created at zero on first
      sight and counted once per block, and the grand totals. */
  method GroupByType(blocks: seq<PlacedBrock>, prices: map<BrockType, real>,
                     weights: map<BrockType, real>, sdg: map<BrockType, real>)
    returns (groups: map<BrockType, Item>, grandTotalCost: real, grandTotalWeight: real, grandTotalSdg: real)
    requires Priced(blocks, prices, weights, sdg)
    ensures GroupKeys(blocks, groups) && GroupLines(blocks, groups, prices, weights, sdg)
    ensures grandTotalCost == Total(blocks, prices)
    ensures grandTotalWeight == Total(blocks, weights)
    ensures grandTotalSdg == Total(blocks, sdg)
  {
    groups := map[];
    grandTotalCost, grandTotalWeight, grandTotalSdg := 0.0, 0.0, 0.0;
    for i := 0 to |blocks|
      invariant GroupKeys(blocks[..i], groups)
      invariant GroupLines(blocks[..i], groups, prices, weights, sdg)
      invariant grandTotalCost == Total(blocks[..i], prices)
      invariant grandTotalWeight == Total(blocks[..i], weights)
      invariant grandTotalSdg == Total(blocks[..i], sdg)
    {
      var b := blocks[i];
      TallyStep(blocks, i, groups, prices, weights, sdg);
      groups := Tally(groups, b.kind, prices, weights, sdg);
      grandTotalCost := grandTotalCost + prices[b.kind];
      grandTotalWeight := grandTotalWeight + weights[b.kind];
      grandTotalSdg := grandTotalSdg + sdg[b.kind];
      TotalsStep(blocks, i, prices, weights, sdg);
    }
    assert blocks[..|blocks|] == blocks;
  }

  /** `Object.values(groups).sort(byName)`: the recorded lines in catalogue
      name order. */
  method SortByName(blocks: seq<PlacedBrock>, groups: map<BrockType, Item>, prices: map<BrockType, real>,
                    weights: map<BrockType, real>, sdg: map<BrockType, real>) returns (items: seq<Item>)
    requires KnownTypes <= prices.Keys && KnownTypes <= weights.Keys && KnownTypes <= sdg.Keys
    requires GroupKeys(blocks, groups) && GroupLines(blocks, groups, prices, weights, sdg)
    ensures items == Items(blocks, prices, weights, sdg)
  {
    items := [];
    for k := 0 to |NameOrder|
      invariant items == ItemsFor(blocks, NameOrder[..k], prices, weights, sdg)
    {
      assert NameOrder[..k + 1][..k] == NameOrder[..k];
      var t := NameOrder[k];
      if t in groups {
        items := items + [groups[t]];
      }
    }
    assert NameOrder[..|NameOrder|] == NameOrder;
  }

  /** The record of the loop holds a line for each type seen so far... */
  ghost predicate GroupKeys(seen: seq<PlacedBrock>, groups: map<BrockType, Item>)
  {
    forall t :: t in groups <==> t in KnownTypes && Count(seen, t) > 0
  }

  /** ...and that line is the type's line of the bill for the blocks seen
      so far. */
  ghost predicate GroupLines(seen: seq<PlacedBrock>, groups: map<BrockType, Item>, prices: map<BrockType, real>,
                             weights: map<BrockType, real>, sdg: map<BrockType, real>)
  {
    forall t :: t in groups ==>
      t in prices && t in weights && t in sdg && groups[t] == ItemOf(seen, t, prices, weights, sdg)
  }

  /** One pass of the loop for a block of type `t`: the type's line is
      created at zero if missing, then counted once; the other lines stay. */
  function Tally(groups: map<BrockType, Item>, t: BrockType, prices: map<BrockType, real>,
                 weights: map<BrockType, real>, sdg: map<BrockType, real>): (after: map<BrockType, Item>)
    requires t in prices && t in weights && t in sdg
  {
    var g := if t in groups then groups[t] else Item(t, 0, prices[t], 0.0, weights[t], 0.0, sdg[t], 0.0);
    groups[t := g.(count := g.count + 1, totalPrice := g.totalPrice + prices[t],
                   totalWeight := g.totalWeight + weights[t], totalSdg := g.totalSdg + sdg[t])]
  }

  /** After a pass the record is still that of the blocks seen so far. */
  lemma TallyStep(blocks: seq<PlacedBrock>, i: nat, before: map<BrockType, Item>,
                  prices: map<BrockType, real>, weights: map<BrockType, real>, sdg: map<BrockType, real>)
    requires i < |blocks| && Priced(blocks, prices, weights, sdg)
    requires GroupKeys(blocks[..i], before) && GroupLines(blocks[..i], before, prices, weights, sdg)
    ensures GroupKeys(blocks[..i + 1], Tally(before, blocks[i].kind, prices, weights, sdg))
    ensures GroupLines(blocks[..i + 1], Tally(before, blocks[i].kind, prices, weights, sdg), prices, weights, sdg)
  {
    GroupKeysStep(blocks, i, before, prices, weights, sdg);
    GroupLinesStep(blocks, i, before, prices, weights, sdg);
  }

  /** After a pass, the recorded types are those seen so far. */
  lemma GroupKeysStep(blocks: seq<PlacedBrock>, i: nat, before: map<BrockType, Item>,
                      prices: map<BrockType, real>, weights: map<BrockType, real>, sdg: map<BrockType, real>)
    requires i < |blocks| && Priced(blocks, prices, weights, sdg)
    requires GroupKeys(blocks[..i], before)
    ensures GroupKeys(blocks[..i + 1], Tally(before, blocks[i].kind, prices, weights, sdg))
  {
    var after := Tally(before, blocks[i].kind, prices, weights, sdg);
    forall t ensures t in after <==> t in KnownTypes && Count(blocks[..i + 1], t) > 0 {
      CountStep(blocks, i, t);
    }
  }

  /** After a pass, each recorded line is its type's line for the blocks
      seen so far. */
  lemma GroupLinesStep(blocks: seq<PlacedBrock>, i: nat, before: map<BrockType, Item>,
                       prices: map<BrockType, real>, weights: map<BrockType, real>, sdg: map<BrockType, real>)
    requires i < |blocks| && Priced(blocks, prices, weights, sdg)
    requires GroupKeys(blocks[..i], before) && GroupLines(blocks[..i], before, prices, weights, sdg)
    ensures GroupLines(blocks[..i + 1], Tally(before, blocks[i].kind, prices, weights, sdg), prices, weights, sdg)
  {
    var seen := blocks[..i + 1];
    var kind := blocks[i].kind;
    var after := Tally(before, kind, prices, weights, sdg);
    OwnLineStep(blocks, i, before, prices, weights, sdg);
    forall t | t in after && t != kind
      ensures t in prices && t in weights && t in sdg && after[t] == ItemOf(seen, t, prices, weights, sdg)
    {
      OtherLineStep(blocks, i, before, t, prices, weights, sdg);
    }
  }

  /** The pass leaves the lines of the other types as they were. */
  lemma OtherLineStep(blocks: seq<PlacedBrock>, i: nat, before: map<BrockType, Item>, t: BrockType,
                      prices: map<BrockType, real>, weights: map<BrockType, real>, sdg: map<BrockType, real>)
    requires i < |blocks| && Priced(blocks, prices, weights, sdg)
    requires t in before && t != blocks[i].kind && t in prices && t in weights && t in sdg
    requires before[t] == ItemOf(blocks[..i], t, prices, weights, sdg)
    ensures Tally(before, blocks[i].kind, prices, weights, sdg)[t] == ItemOf(blocks[..i + 1], t, prices, weights, sdg)
  {
    CountStep(blocks, i, t);
  }

  /** The pass counts the block's own type once more. */
  lemma OwnLineStep(blocks: seq<PlacedBrock>, i: nat, before: map<BrockType, Item>,
                    prices: map<BrockType, real>, weights: map<BrockType, real>, sdg: map<BrockType, real>)
    requires i < |blocks| && Priced(blocks, prices, weights, sdg)
    requires blocks[i].kind in before <==> Count(blocks[..i], blocks[i].kind) > 0
    requires blocks[i].kind in before ==>
      before[blocks[i].kind] == ItemOf(blocks[..i], blocks[i].kind, prices, weights, sdg)
    ensures Tally(before, blocks[i].kind, prices, weights, sdg)[blocks[i].kind]
         == ItemOf(blocks[..i + 1], blocks[i].kind, prices, weights, sdg)
  {
    var kind := blocks[i].kind;
    var n := Count(blocks[..i], kind);
    CountStep(blocks, i, kind);
    assert Repeat(n + 1, prices[kind]) == Repeat(n, prices[kind]) + prices[kind];
    assert Repeat(n + 1, weights[kind]) == Repeat(n, weights[kind]) + weights[kind];
    assert Repeat(n + 1, sdg[kind]) == Repeat(n, sdg[kind]) + sdg[kind];
  }

  lemma CountStep(blocks: seq<PlacedBrock>, i: nat, t: BrockType)
    requires i < |blocks|
    ensures Count(blocks[..i + 1], t) == Count(blocks[..i], t) + (if blocks[i].kind == t then 1 else 0)
  {
    assert blocks[..i + 1][..i] == blocks[..i];
  }

  /** One more block adds its unit values to the three grand totals. */
  lemma TotalsStep(blocks: seq<PlacedBrock>, i: nat, prices: map<BrockType, real>,
                   weights: map<BrockType, real>, sdg: map<BrockType, real>)
    requires i < |blocks| && Priced(blocks, prices, weights, sdg)
    ensures Total(blocks[..i + 1], prices) == Total(blocks[..i], prices) + prices[blocks[i].kind]
    ensures Total(blocks[..i + 1], weights) == Total(blocks[..i], weights) + weights[blocks[i].kind]
    ensures Total(blocks[..i + 1], sdg) == Total(blocks[..i], sdg) + sdg[blocks[i].kind]
  {
    TotalStep(blocks, i, prices);
    TotalStep(blocks, i, weights);
    TotalStep(blocks, i, sdg);
  }

  /** One more block adds its unit value to a grand total. */
  lemma TotalStep(blocks: seq<PlacedBrock>, i: nat, table: map<BrockType, real>)
    requires i < |blocks| && forall j :: 0 <= j < |blocks| ==> blocks[j].kind in table
    ensures Total(blocks[..i + 1], table) == Total(blocks[..i], table) + table[blocks[i].kind]
  {
    assert blocks[..i + 1][..i] == blocks[..i];
  }

  /** The quantity `m` of a line, in total. */
  function LineTotal(item: Item, m: Measure): real
  {
    match m
    case Price => item.totalPrice
    case Weight => item.totalWeight
    case Sdg => item.totalSdg
  }

  function SumLines(items: seq<Item>, m: Measure): real
  {
    if items == [] then 0.0 else SumLines(items[..|items| - 1], m) + LineTotal(items[|items| - 1], m)
  }

  function SumCounts(items: seq<Item>): nat
  {
    if items == [] then 0 else SumCounts(items[..|items| - 1]) + items[|items| - 1].count
  }

  function TableFor(m: Measure, prices: map<BrockType, real>, weights: map<BrockType, real>,
                    sdg: map<BrockType, real>): map<BrockType, real>
  {
    match m
    case Price => prices
    case Weight => weights
    case Sdg => sdg
  }

  /** Count times unit value, summed over the types `ts`. */
  function PerType(blocks: seq<PlacedBrock>, ts: seq<BrockType>, table: map<BrockType, real>): real
    requires forall t :: t in ts ==> t in table
  {
    if ts == [] then 0.0
    else PerType(blocks, ts[..|ts| - 1], table) + Repeat(Count(blocks, ts[|ts| - 1]), table[ts[|ts| - 1]])
  }

  function PerTypeCount(blocks: seq<PlacedBrock>, ts: seq<BrockType>): nat
  {
    if ts == [] then 0 else PerTypeCount(blocks, ts[..|ts| - 1]) + Count(blocks, ts[|ts| - 1])
  }

  /** The lines' totals of one quantity add up to count times unit value
      over the types. */
  lemma {:induction false} LinesPerType(blocks: seq<PlacedBrock>, ts: seq<BrockType>, m: Measure,
                                        prices: map<BrockType, real>, weights: map<BrockType, real>,
                                        sdg: map<BrockType, real>)
    requires forall t :: t in ts ==> t in prices && t in weights && t in sdg
    ensures SumLines(ItemsFor(blocks, ts, prices, weights, sdg), m)
         == PerType(blocks, ts, TableFor(m, prices, weights, sdg))
  {
    if ts != [] {
      var front := ts[..|ts| - 1];
      LinesPerType(blocks, front, m, prices, weights, sdg);
      var rest := ItemsFor(blocks, front, prices, weights, sdg);
      var t := ts[|ts| - 1];
      if Count(blocks, t) > 0 {
        var item := ItemOf(blocks, t, prices, weights, sdg);
        SumLinesSnoc(rest, item, m);
        LineTotalOf(blocks, t, m, prices, weights, sdg);
      } else {
        assert rest + [] == rest;
      }
    }
  }

  lemma SumLinesSnoc(items: seq<Item>, item: Item, m: Measure)
    ensures SumLines(items + [item], m) == SumLines(items, m) + LineTotal(item, m)
  {
    assert (items + [item])[..|items|] == items;
  }

  lemma LineTotalOf(blocks: seq<PlacedBrock>, t: BrockType, m: Measure, prices: map<BrockType, real>,
                    weights: map<BrockType, real>, sdg: map<BrockType, real>)
    requires t in prices && t in weights && t in sdg
    ensures LineTotal(ItemOf(blocks, t, prices, weights, sdg), m)
         == Repeat(Count(blocks, t), TableFor(m, prices, weights, sdg)[t])
  {
  }

  /** The lines' counts add up to the types' counts. */
  lemma {:induction false} CountsPerType(blocks: seq<PlacedBrock>, ts: seq<BrockType>,
                                         prices: map<BrockType, real>, weights: map<BrockType, real>,
                                         sdg: map<BrockType, real>)
    requires forall t :: t in ts ==> t in prices && t in weights && t in sdg
    ensures SumCounts(ItemsFor(blocks, ts, prices, weights, sdg)) == PerTypeCount(blocks, ts)
  {
    if ts != [] {
      var front := ts[..|ts| - 1];
      CountsPerType(blocks, front, prices, weights, sdg);
      var rest := ItemsFor(blocks, front, prices, weights, sdg);
      var t := ts[|ts| - 1];
      if Count(blocks, t) > 0 {
        var items := rest + [ItemOf(blocks, t, prices, weights, sdg)];
        assert items[..|items| - 1] == rest;
      } else {
        assert rest + [] == rest;
      }
    }
  }

  /** Dropping the last type of a list without repeats leaves a list without
      repeats that lacks it. */
  lemma DropLast(ts: seq<BrockType>)
    requires ts != [] && NoDuplicates(ts)
    ensures NoDuplicates(ts[..|ts| - 1]) && ts[|ts| - 1] !in ts[..|ts| - 1]
    ensures forall u :: u in ts <==> u in ts[..|ts| - 1] || u == ts[|ts| - 1]
  {
    var front := ts[..|ts| - 1];
    forall i, j | 0 <= i < j < |front| ensures front[i] != front[j] {
      assert front[i] == ts[i] && front[j] == ts[j];
    }
    forall i | 0 <= i < |front| ensures front[i] != ts[|ts| - 1] {
      assert front[i] == ts[i];
    }
  }

  /** Appending a block to the design adds its unit value once, when its
      type is among `ts` (listed once). */
  lemma {:induction false} PerTypeSnoc(blocks: seq<PlacedBrock>, b: PlacedBrock, ts: seq<BrockType>,
                                       table: map<BrockType, real>)
    requires NoDuplicates(ts) && forall t :: t in ts ==> t in table
    ensures PerType(blocks + [b], ts, table)
         == PerType(blocks, ts, table) + (if b.kind in ts then table[b.kind] else 0.0)
  {
    if ts != [] {
      DropLast(ts);
      PerTypeSnoc(blocks, b, ts[..|ts| - 1], table);
      assert (blocks + [b])[..|blocks|] == blocks;
    }
  }

  /** Appending a block adds one to the count of its type. */
  lemma {:induction false} PerTypeCountSnoc(blocks: seq<PlacedBrock>, b: PlacedBrock, ts: seq<BrockType>)
    requires NoDuplicates(ts)
    ensures PerTypeCount(blocks + [b], ts) == PerTypeCount(blocks, ts) + (if b.kind in ts then 1 else 0)
  {
    if ts != [] {
      DropLast(ts);
      PerTypeCountSnoc(blocks, b, ts[..|ts| - 1]);
      assert (blocks + [b])[..|blocks|] == blocks;
    }
  }

  lemma {:induction false} PerTypeEmpty(ts: seq<BrockType>, table: map<BrockType, real>)
    requires forall t :: t in ts ==> t in table
    ensures PerType([], ts, table) == 0.0
  {
    if ts != [] {
      PerTypeEmpty(ts[..|ts| - 1], table);
    }
  }

  lemma {:induction false} PerTypeCountEmpty(ts: seq<BrockType>)
    ensures PerTypeCount([], ts) == 0
  {
    if ts != [] {
      PerTypeCountEmpty(ts[..|ts| - 1]);
    }
  }

  /** `NameOrder` lists no type twice. */
  lemma NameOrderDistinct()
    ensures NoDuplicates(NameOrder)
  {
  }

  /** The grand total of a quantity is count times unit value summed over
      the catalogue. */
  lemma {:induction false} TotalPerType(blocks: seq<PlacedBrock>, table: map<BrockType, real>)
    requires forall i :: 0 <= i < |blocks| ==> blocks[i].kind in KnownTypes
    requires KnownTypes <= table.Keys
    ensures Total(blocks, table) == PerType(blocks, NameOrder, table)
  {
    NameOrderCovers();
    if blocks == [] {
      PerTypeEmpty(NameOrder, table);
    } else {
      var front := blocks[..|blocks| - 1];
      var b := blocks[|blocks| - 1];
      TotalPerType(front, table);
      assert front + [b] == blocks;
      NameOrderDistinct();
      PerTypeSnoc(front, b, NameOrder, table);
    }
  }

  /** The types' counts add up to the number of blocks. */
  lemma {:induction false} BlocksPerType(blocks: seq<PlacedBrock>)
    requires forall i :: 0 <= i < |blocks| ==> blocks[i].kind in KnownTypes
    ensures |blocks| == PerTypeCount(blocks, NameOrder)
  {
    NameOrderCovers();
    if blocks == [] {
      PerTypeCountEmpty(NameOrder);
    } else {
      var front := blocks[..|blocks| - 1];
      var b := blocks[|blocks| - 1];
      BlocksPerType(front);
      assert front + [b] == blocks;
      NameOrderDistinct();
      PerTypeCountSnoc(front, b, NameOrder);
    }
  }

  /** The grand totals are the sums of the lines' totals, and the lines'
      counts add up to the number of blocks. */
  lemma GrandTotalsAreLineSums(blocks: seq<PlacedBrock>, prices: map<BrockType, real>,
                               weights: map<BrockType, real>, sdg: map<BrockType, real>)
    requires Priced(blocks, prices, weights, sdg)
    ensures Total(blocks, prices) == SumLines(Items(blocks, prices, weights, sdg), Price)
    ensures Total(blocks, weights) == SumLines(Items(blocks, prices, weights, sdg), Weight)
    ensures Total(blocks, sdg) == SumLines(Items(blocks, prices, weights, sdg), Sdg)
    ensures SumCounts(Items(blocks, prices, weights, sdg)) == |blocks|
  {
    TotalPerType(blocks, prices);
    TotalPerType(blocks, weights);
    TotalPerType(blocks, sdg);
    BlocksPerType(blocks);
    LinesPerType(blocks, NameOrder, Price, prices, weights, sdg);
    LinesPerType(blocks, NameOrder, Weight, prices, weights, sdg);
    LinesPerType(blocks, NameOrder, Sdg, prices, weights, sdg);
    CountsPerType(blocks, NameOrder, prices, weights, sdg);
  }

  /** The types of the lines, in order. */
  function Kinds(items: seq<Item>): (r: seq<BrockType>)
    ensures |r| == |items| && forall k :: 0 <= k < |items| ==> r[k] == items[k].kind
  {
    if items == [] then [] else Kinds(items[..|items| - 1]) + [items[|items| - 1].kind]
  }

  lemma KindsSnoc(items: seq<Item>, item: Item)
    ensures Kinds(items + [item]) == Kinds(items) + [item.kind]
  {
    assert (items + [item])[..|items|] == items;
  }

  /** `item` is the bill's line for its own type. */
  predicate IsLineOf(blocks: seq<PlacedBrock>, item: Item, prices: map<BrockType, real>,
                     weights: map<BrockType, real>, sdg: map<BrockType, real>)
  {
    item.kind in prices && item.kind in weights && item.kind in sdg
    && item == ItemOf(blocks, item.kind, prices, weights, sdg)
  }

  /** Each line is the line of a type of `ts`. */
  predicate LinesOver(blocks: seq<PlacedBrock>, items: seq<Item>, ts: seq<BrockType>, prices: map<BrockType, real>,
                      weights: map<BrockType, real>, sdg: map<BrockType, real>)
  {
    forall k :: 0 <= k < |items| ==> items[k].kind in ts && IsLineOf(blocks, items[k], prices, weights, sdg)
  }

  /** Each line is its type's line of the bill. */
  lemma {:induction false} ItemsForValues(blocks: seq<PlacedBrock>, ts: seq<BrockType>, prices: map<BrockType, real>,
                                          weights: map<BrockType, real>, sdg: map<BrockType, real>)
    requires forall t :: t in ts ==> t in prices && t in weights && t in sdg
    ensures LinesOver(blocks, ItemsFor(blocks, ts, prices, weights, sdg), ts, prices, weights, sdg)
  {
    if ts != [] {
      var front := ts[..|ts| - 1];
      ItemsForValues(blocks, front, prices, weights, sdg);
      var rest := ItemsFor(blocks, front, prices, weights, sdg);
      var t := ts[|ts| - 1];
      assert forall u :: u in front ==> u in ts;
      if Count(blocks, t) == 0 {
        assert rest + [] == rest;
      }
    }
  }

  /** Strictly ascending by catalogue name. */
  predicate Ascending(ts: seq<BrockType>)
  {
    forall k, l :: 0 <= k < l < |ts| ==>
      ts[k] in KnownTypes && ts[l] in KnownTypes && NameKey(ts[k]) < NameKey(ts[l])
  }

  /** The types of `ts` some block has, in the order of `ts`. */
  function Present(blocks: seq<PlacedBrock>, ts: seq<BrockType>): (r: seq<BrockType>)
    ensures forall t :: t in r <==> t in ts && Count(blocks, t) > 0
  {
    if ts == [] then []
    else
      var t := ts[|ts| - 1];
      assert forall u :: u in ts <==> u in ts[..|ts| - 1] || u == t;
      Present(blocks, ts[..|ts| - 1]) + (if Count(blocks, t) > 0 then [t] else [])
  }

  /** The lines' types are the present types. */
  lemma {:induction false} KindsPresent(blocks: seq<PlacedBrock>, ts: seq<BrockType>, prices: map<BrockType, real>,
                                        weights: map<BrockType, real>, sdg: map<BrockType, real>)
    requires forall t :: t in ts ==> t in prices && t in weights && t in sdg
    ensures Kinds(ItemsFor(blocks, ts, prices, weights, sdg)) == Present(blocks, ts)
  {
    if ts != [] {
      var front := ts[..|ts| - 1];
      KindsPresent(blocks, front, prices, weights, sdg);
      var rest := ItemsFor(blocks, front, prices, weights, sdg);
      var t := ts[|ts| - 1];
      if Count(blocks, t) > 0 {
        KindsSnoc(rest, ItemOf(blocks, t, prices, weights, sdg));
      } else {
        assert rest + [] == rest;
      }
    }
  }

  /** Keeping the present types keeps an ascending order. */
  lemma {:induction false} PresentAscending(blocks: seq<PlacedBrock>, ts: seq<BrockType>)
    requires forall t :: t in ts ==> t in KnownTypes
    requires Ascending(ts)
    ensures Ascending(Present(blocks, ts))
  {
    if ts != [] {
      var front := ts[..|ts| - 1];
      var t := ts[|ts| - 1];
      assert Ascending(front) by {
        forall k, l | 0 <= k < l < |front| ensures front[k] == ts[k] && front[l] == ts[l] {}
      }
      PresentAscending(blocks, front);
      var rest := Present(blocks, front);
      if Count(blocks, t) > 0 {
        var ks := rest + [t];
        forall k, l | 0 <= k < l < |ks|
          ensures ks[k] in KnownTypes && ks[l] in KnownTypes && NameKey(ks[k]) < NameKey(ks[l])
        {
          if l < |rest| {
            assert ks[k] == rest[k] && ks[l] == rest[l];
          } else {
            assert ks[k] == rest[k] && ks[k] in front;
            var i :| 0 <= i < |front| && front[i] == ks[k];
            assert ts[i] == ks[k];
          }
        }
      } else {
        assert rest + [] == rest;
      }
    }
  }

  /** The bill has one line per type in the design and none for the others,
      sorted by catalogue name. */
  lemma BillTypes(blocks: seq<PlacedBrock>, prices: map<BrockType, real>,
                  weights: map<BrockType, real>, sdg: map<BrockType, real>)
    requires Priced(blocks, prices, weights, sdg)
    ensures var items := Items(blocks, prices, weights, sdg);
      && (forall t :: t in Kinds(items) <==> exists i :: 0 <= i < |blocks| && blocks[i].kind == t)
      && Ascending(Kinds(items))
  {
    NameOrderCovers();
    NameOrderAscending();
    KindsPresent(blocks, NameOrder, prices, weights, sdg);
    PresentAscending(blocks, NameOrder);
    forall t ensures Count(blocks, t) > 0 <==> exists i :: 0 <= i < |blocks| && blocks[i].kind == t {
      CountPositive(blocks, t);
    }
  }

  /** Each line of the bill carries its type's count, unit values and totals. */
  lemma BillValues(blocks: seq<PlacedBrock>, prices: map<BrockType, real>,
                   weights: map<BrockType, real>, sdg: map<BrockType, real>)
    requires Priced(blocks, prices, weights, sdg)
    ensures LinesOver(blocks, Items(blocks, prices, weights, sdg), NameOrder, prices, weights, sdg)
  {
    ItemsForValues(blocks, NameOrder, prices, weights, sdg);
  }
}
