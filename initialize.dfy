/** The table building of `InitializeMarket.OnCreateManager`: the good catalogue and its
    indices, the chart seeding, and per archetype the cost-of-living and limit lists, the ideal
    vector, the starting inventory with its used space, and the flattened recipe list; then
    `CreateAgent`. Reading the configuration files is left out: their parsed contents are the
    inputs here. */
module Initialize {
  import opened Goods
  import opened Agents
  import opened LogicTypes
  import opened Charts

  /** A `{name, quantity}` pair of an archetype file. */
  datatype JsonValue = JsonValue(name: string, quantity: int)

  /** A `{name, quantity, possibility}` entry of a recipe. */
  datatype JsonPossibility = JsonPossibility(name: string, quantity: int, possibility: real)

  /** One recipe of an archetype file: its consumes, then its produces. */
  datatype JsonDeltas = JsonDeltas(consumes: seq<JsonPossibility>, produces: seq<JsonPossibility>)

  /** An archetype file. */
  datatype JsonLogic = JsonLogic(name: string, costOfLiving: seq<JsonValue>, limitGoods: seq<JsonValue>,
                                 idealQuantity: seq<JsonValue>, startQuantity: seq<JsonValue>,
                                 possibleDeltas: seq<JsonDeltas>)

  // ---------------------------------------------------------------------------------------
  // The good catalogue

  /** No two good files share a name (`Dictionary.Add` throws on a repeated key). */
  predicate DistinctNames(jsons: seq<JsonGood>)
  {
    forall i, j :: 0 <= i < j < |jsons| ==> jsons[i].name != jsons[j].name
  }

  /** After the first `n` good files: `goodArray` lists their goods in order, each good's
      index is its position, and `goods` maps exactly their names to them. */
  ghost predicate Indexed(jsons: seq<JsonGood>, goods: map<string, Good>, goodArray: seq<Good>, n: int)
    requires 0 <= n <= |jsons|
  {
    |goodArray| == n && |goods| == n &&
    (forall j :: 0 <= j < n ==> goodArray[j] == NewGood(j, jsons[j])) &&
    (forall j :: 0 <= j < n ==> jsons[j].name in goods && goods[jsons[j].name] == goodArray[j]) &&
    (forall name :: name in goods ==> 0 <= goods[name].index < n && jsons[goods[name].index].name == name)
  }

  /** Adding good file `n` under its fresh name, numbered by the current count, extends
      `Indexed` by one. */
  lemma {:induction false} IndexStep(jsons: seq<JsonGood>, goods: map<string, Good>, goodArray: seq<Good>, n: int)
    requires DistinctNames(jsons) && 0 <= n < |jsons| && Indexed(jsons, goods, goodArray, n)
    ensures jsons[n].name !in goods
    ensures Indexed(jsons, goods[jsons[n].name := NewGood(n, jsons[n])], goodArray + [NewGood(n, jsons[n])], n + 1)
  {
    var name := jsons[n].name;
    var good := NewGood(n, jsons[n]);
    var goods' := goods[name := good];
    var goodArray' := goodArray + [good];
    assert |goods'| == n + 1;
    forall j | 0 <= j < n + 1
      ensures goodArray'[j] == NewGood(j, jsons[j])
      ensures jsons[j].name in goods' && goods'[jsons[j].name] == goodArray'[j]
    {
      if j < n {
        assert jsons[j].name != name;
      }
    }
    forall k | k in goods'
      ensures 0 <= goods'[k].index < n + 1 && jsons[goods'[k].index].name == k
    {
      if k != name {
        assert goods'[k] == goods[k];
      }
    }
  }

  /** The goods keyed by name and, as `goods.Values` enumerates them, in insertion order.
      Each good's index is the dictionary's count when it was added: 0, 1, 2, ... */
  method IndexGoods(jsons: seq<JsonGood>) returns (goods: map<string, Good>, goodArray: seq<Good>)
    requires DistinctNames(jsons)
    ensures |goodArray| == |jsons| && |goods| == |jsons|
    ensures forall i :: 0 <= i < |jsons| ==> goodArray[i] == NewGood(i, jsons[i])
    ensures forall i :: 0 <= i < |jsons| ==> jsons[i].name in goods && goods[jsons[i].name] == goodArray[i]
    ensures forall name :: name in goods ==> exists i :: 0 <= i < |jsons| && jsons[i].name == name
    ensures Catalogue(goods, goodArray)
    ensures forall name :: name in goods ==> goods[name].spaceOccupied == 0
  {
    goods := map[];
    goodArray := [];
    var i := 0;
    while i < |jsons|
      invariant 0 <= i <= |jsons| && Indexed(jsons, goods, goodArray, i)
    {
      var jsonGood := jsons[i];
      IndexStep(jsons, goods, goodArray, i);
      var good := NewGood(|goods|, jsonGood);
      goods := goods[jsonGood.name := good];
      goodArray := goodArray + [good];
      i := i + 1;
    }
    forall name | name in goods
      ensures exists i :: 0 <= i < |jsons| && jsons[i].name == name
    {
      var k := goods[name].index;
      assert jsons[k].name == name;
    }
    IndexGoodsIsCatalogue(jsons, goods, goodArray);
  }

  /** Goods built by the constructor occupy no space, so a starting inventory drawn from
      such a catalogue uses none. */
  lemma {:induction false} NoSpaceUsed(goods: map<string, Good>, values: seq<JsonValue>)
    requires KnownValues(goods, values)
    requires forall name :: name in goods ==> goods[name].spaceOccupied == 0
    ensures UsedSpace(goods, values) == 0
  {
    if values != [] {
      NoSpaceUsed(goods, values[..|values| - 1]);
    }
  }

  /** The catalogue's indices are exactly the positions: goods are numbered 0, 1, 2, ... in
      enumeration order, so distinct goods never compare equal. */
  lemma {:induction false} IndicesArePositions(jsons: seq<JsonGood>, goodArray: seq<Good>)
    requires |goodArray| == |jsons|
    requires forall i :: 0 <= i < |jsons| ==> goodArray[i] == NewGood(i, jsons[i])
    ensures forall i :: 0 <= i < |goodArray| ==> goodArray[i].index == i
    ensures forall i, j :: 0 <= i < |goodArray| && 0 <= j < |goodArray| ==>
      (goodArray[i].Equals(goodArray[j]) <==> i == j)
  {
  }

  /** The loop's invariants at its end make the catalogue: every name maps to the good at
      its index. */
  lemma {:induction false} IndexGoodsIsCatalogue(jsons: seq<JsonGood>, goods: map<string, Good>, goodArray: seq<Good>)
    requires |goodArray| == |jsons|
    requires forall i :: 0 <= i < |jsons| ==> goodArray[i] == NewGood(i, jsons[i])
    requires forall i :: 0 <= i < |jsons| ==> jsons[i].name in goods && goods[jsons[i].name] == goodArray[i]
    requires forall name :: name in goods ==> exists i :: 0 <= i < |jsons| && jsons[i].name == name
    ensures Catalogue(goods, goodArray)
  {
    forall name | name in goods
      ensures 0 <= goods[name].index < |goodArray| && goodArray[goods[name].index] == goods[name]
    {
      var i :| 0 <= i < |jsons| && jsons[i].name == name;
      assert goods[name] == goodArray[i];
    }
  }

  // ---------------------------------------------------------------------------------------
  // Chart seeding

  /** The four fake values of one good: its initial cost joins its price, ask, bid and trade
      series; no other list changes. */
  method SeedGood(history: History, k: int, cost: real)
    requires history.Logs(history.goodsCount) && 0 <= k < history.goodsCount
    modifies history.prices[k], history.asks[k], history.bids[k], history.trades[k]
    ensures history.Logs(history.goodsCount)
    ensures forall i :: 0 <= i < history.goodsCount ==>
      history.prices[i] == old(history.prices[i]) && history.asks[i] == old(history.asks[i]) &&
      history.bids[i] == old(history.bids[i]) && history.trades[i] == old(history.trades[i])
    ensures forall i :: 0 <= i < history.goodsCount ==>
      var added := if i == k then [cost] else [];
      history.prices[i].items == old(history.prices[i].items) + added &&
      history.asks[i].items == old(history.asks[i].items) + added &&
      history.bids[i].items == old(history.bids[i].items) + added &&
      history.trades[i].items == old(history.trades[i].items) + added
    ensures forall i :: 0 <= i < history.goodsCount ==> history.profits[i].items == old(history.profits[i].items)
  {
    history.prices[k].Add(cost);
    history.asks[k].Add(cost);
    history.bids[k].Add(cost);
    history.trades[k].Add(cost);
  }

  /** `History.AssignLogs(goods.Count)` and then one fake value, the good's initial cost, in
      each of its price, ask, bid and trade series; profits stay empty. */
  method SeedHistory(history: History, goodArray: seq<Good>)
    requires forall i :: 0 <= i < |goodArray| ==> goodArray[i].index == i
    modifies history
    ensures history.goodsCount == |goodArray| && history.Logs(|goodArray|)
    ensures forall i :: 0 <= i < |goodArray| ==>
      history.prices[i].items == [goodArray[i].initialCost] && history.asks[i].items == [goodArray[i].initialCost] &&
      history.bids[i].items == [goodArray[i].initialCost] && history.trades[i].items == [goodArray[i].initialCost]
    ensures forall i :: 0 <= i < |goodArray| ==> history.profits[i].items == []
  {
    history.AssignLogs(|goodArray|);
    var k := 0;
    while k < |goodArray|
      invariant 0 <= k <= |goodArray|
      invariant history.goodsCount == |goodArray| && history.Logs(|goodArray|)
      invariant forall i :: 0 <= i < |goodArray| ==>
        fresh(history.prices[i]) && fresh(history.asks[i]) && fresh(history.bids[i]) && fresh(history.trades[i])
      invariant forall i :: 0 <= i < |goodArray| ==>
        var seeded := if i < k then [goodArray[i].initialCost] else [];
        history.prices[i].items == seeded && history.asks[i].items == seeded &&
        history.bids[i].items == seeded && history.trades[i].items == seeded
      invariant forall i :: 0 <= i < |goodArray| ==> history.profits[i].items == []
    {
      var good := goodArray[k];
      SeedGood(history, good.index, good.initialCost);
      k := k + 1;
    }
  }

  // ---------------------------------------------------------------------------------------
  // Archetype tables

  /** The catalogue as `IndexGoods` builds it: good `i` of `goodArray` has index `i`, and
      every named good is the one at its index. */
  predicate Catalogue(goods: map<string, Good>, goodArray: seq<Good>)
  {
    (forall i :: 0 <= i < |goodArray| ==> goodArray[i].index == i) &&
    (forall name :: name in goods ==> 0 <= goods[name].index < |goodArray| && goodArray[goods[name].index] == goods[name])
  }



  /** Every named value refers to a good of the catalogue (an unknown name makes the
      dictionary lookup throw). */
  predicate KnownValues(goods: map<string, Good>, values: seq<JsonValue>)
  {
    forall i :: 0 <= i < |values| ==> values[i].name in goods
  }

  /** One cost of living per value, in order: the catalogue index of the value's good and the
      value's quantity. */
  method CostsOfLiving(goods: map<string, Good>, values: seq<JsonValue>) returns (costs: seq<CostOfLiving>)
    requires KnownValues(goods, values)
    ensures |costs| == |values|
    ensures forall i :: 0 <= i < |values| ==>
      costs[i].good == goods[values[i].name].index && costs[i].quantity == values[i].quantity
  {
    costs := [];
    var i := 0;
    while i < |values|
      invariant 0 <= i <= |values| && |costs| == i
      invariant forall j :: 0 <= j < i ==>
        costs[j].good == goods[values[j].name].index && costs[j].quantity == values[j].quantity
    {
      costs := costs + [NewCostOfLiving(goods[values[i].name].index, values[i].quantity)];
      i := i + 1;
    }
  }

  /** One limit good per value, in order: the catalogue index of the value's good and the
      value's quantity. */
  method LimitGoods(goods: map<string, Good>, values: seq<JsonValue>) returns (limits: seq<LimitGood>)
    requires KnownValues(goods, values)
    ensures |limits| == |values|
    ensures forall i :: 0 <= i < |values| ==>
      limits[i].good == goods[values[i].name].index && limits[i].quantity == values[i].quantity
  {
    limits := [];
    var i := 0;
    while i < |values|
      invariant 0 <= i <= |values| && |limits| == i
      invariant forall j :: 0 <= j < i ==>
        limits[j].good == goods[values[j].name].index && limits[j].quantity == values[j].quantity
    {
      limits := limits + [NewLimitGood(goods[values[i].name].index, values[i].quantity)];
      i := i + 1;
    }
  }

  /** The position of the last value naming good `g`, or -1 when none does: the write that an
      indexed assignment in a `foreach` leaves standing. */
  function LastFor(goods: map<string, Good>, values: seq<JsonValue>, g: int): (j: int)
    requires KnownValues(goods, values)
    ensures -1 <= j < |values|
  {
    if values == [] then -1
    else if goods[values[|values| - 1].name].index == g then |values| - 1
    else LastFor(goods, values[..|values| - 1], g)
  }

  /** `LastFor` is -1 exactly when no value names `g`; otherwise it names `g` and no later
      value does. */
  lemma {:induction false} LastForIsLast(goods: map<string, Good>, values: seq<JsonValue>, g: int)
    requires KnownValues(goods, values)
    ensures LastFor(goods, values, g) == -1 <==> forall i :: 0 <= i < |values| ==> goods[values[i].name].index != g
    ensures LastFor(goods, values, g) >= 0 ==> goods[values[LastFor(goods, values, g)].name].index == g
    ensures forall i :: LastFor(goods, values, g) < i < |values| ==> goods[values[i].name].index != g
    decreases |values|
  {
    if values != [] && goods[values[|values| - 1].name].index != g {
      var init := values[..|values| - 1];
      assert KnownValues(goods, init);
      LastForIsLast(goods, init, g);
      assert forall i :: 0 <= i < |init| ==> init[i] == values[i];
    }
  }

  lemma {:induction false} LastForPrefix(goods: map<string, Good>, values: seq<JsonValue>, i: nat, g: int)
    requires KnownValues(goods, values) && i < |values|
    ensures KnownValues(goods, values[..i]) && KnownValues(goods, values[..i + 1])
    ensures LastFor(goods, values[..i + 1], g) ==
      if goods[values[i].name].index == g then i else LastFor(goods, values[..i], g)
  {
    assert values[..i + 1][..i] == values[..i];
  }

  /** The ideal level of good `g`: the last listed quantity for it, 0 when it is not listed. */
  function IdealOf(goods: map<string, Good>, values: seq<JsonValue>, g: int): int
    requires KnownValues(goods, values)
  {
    var j := LastFor(goods, values, g);
    if j < 0 then 0 else values[j].quantity
  }

  /** Every good a catalogue indexes lies below its size. */
  predicate IndicesBelow(goods: map<string, Good>, n: int)
  {
    forall name :: name in goods ==> 0 <= goods[name].index < n
  }

  /** The ideal vector: `n` entries that start at zero; each value in turn then sets the entry
      at its good's catalogue index to its quantity, so a later value for the same good wins. */
  method IdealVector(goods: map<string, Good>, n: nat, values: seq<JsonValue>) returns (ideal: array<IdealQuantity>)
    requires KnownValues(goods, values) && IndicesBelow(goods, n)
    ensures fresh(ideal) && ideal.Length == n
    ensures forall g :: 0 <= g < n ==> IdealToInt(ideal[g]) == IdealOf(goods, values, g)
  {
    ideal := new IdealQuantity[n](_ => IdealFromInt(0));
    var i := 0;
    while i < |values|
      invariant 0 <= i <= |values|
      invariant KnownValues(goods, values[..i])
      invariant forall g :: 0 <= g < n ==> IdealToInt(ideal[g]) == IdealOf(goods, values[..i], g)
    {
      forall g | 0 <= g < n {
        LastForPrefix(goods, values, i, g);
      }
      ideal[goods[values[i].name].index] := IdealFromInt(values[i].quantity);
      i := i + 1;
    }
    assert values[..i] == values;
  }

  /** The ideal vector has the listed quantity for a listed good (the last one when it is
      listed twice) and 0 for a good that is not listed. */
  lemma {:induction false} IdealLastWriteWins(goods: map<string, Good>, values: seq<JsonValue>, g: int, j: int)
    requires KnownValues(goods, values)
    ensures (forall i :: 0 <= i < |values| ==> goods[values[i].name].index != g) ==> IdealOf(goods, values, g) == 0
    ensures 0 <= j < |values| && goods[values[j].name].index == g &&
            (forall i :: j < i < |values| ==> goods[values[i].name].index != g) ==>
            IdealOf(goods, values, g) == values[j].quantity
  {
    LastForIsLast(goods, values, g);
  }

  /** The starting cell of good `g`: the last listed quantity at the good's initial cost, or
      the zero cell when the good is not listed. */
  function StartCell(goods: map<string, Good>, values: seq<JsonValue>, g: int): InvContent
    requires KnownValues(goods, values)
  {
    var j := LastFor(goods, values, g);
    if j < 0 then InvContent(0, 0.0) else InvContent(values[j].quantity, goods[values[j].name].initialCost)
  }

  /** The space the listed starting quantities take: the sum of quantity times unit size. */
  function UsedSpace(goods: map<string, Good>, values: seq<JsonValue>): int
    requires KnownValues(goods, values)
  {
    if values == [] then 0
    else
      var v := values[|values| - 1];
      UsedSpace(goods, values[..|values| - 1]) + v.quantity * goods[v.name].spaceOccupied
  }

  /** The starting inventory: `n` zero cells, then for every start value a cell at its good's
      index holding the value's quantity at the initial cost, with `sizeCounter` summing the
      space the value takes. */
  method StartInventory(goods: map<string, Good>, n: nat, values: seq<JsonValue>)
    returns (currentInventory: array<InvContent>, sizeCounter: int)
    requires KnownValues(goods, values) && IndicesBelow(goods, n)
    ensures fresh(currentInventory) && currentInventory.Length == n
    ensures forall g :: 0 <= g < n ==> currentInventory[g] == StartCell(goods, values, g)
    ensures sizeCounter == UsedSpace(goods, values)
  {
    currentInventory := new InvContent[n](_ => InvContent(0, 0.0));
    sizeCounter := 0;
    var i := 0;
    while i < |values|
      invariant 0 <= i <= |values|
      invariant KnownValues(goods, values[..i])
      invariant forall g :: 0 <= g < n ==> currentInventory[g] == StartCell(goods, values[..i], g)
      invariant sizeCounter == UsedSpace(goods, values[..i])
    {
      forall g | 0 <= g < n {
        LastForPrefix(goods, values, i, g);
      }
      var value := values[i];
      var targetGood := goods[value.name];
      assert values[..i + 1][..i] == values[..i];
      currentInventory[targetGood.index] := NewInvContent(value.quantity, targetGood.initialCost);
      sizeCounter := sizeCounter + value.quantity * targetGood.spaceOccupied;
      i := i + 1;
    }
    assert values[..i] == values;
  }

  /** A recorded price at or below this is treated as unset. */
  const UnsetPrice: real := 0.1

  /** The fill pass: every cell whose recorded price is at most `UnsetPrice` takes the initial
      cost of the good at its position; the others are left alone. */
  method FillPrices(currentInventory: array<InvContent>, goodArray: seq<Good>)
    requires |goodArray| == currentInventory.Length
    modifies currentInventory
    ensures forall i :: 0 <= i < currentInventory.Length ==>
      currentInventory[i] == if old(currentInventory[i]).recordedPrice > UnsetPrice then old(currentInventory[i])
                             else old(currentInventory[i]).(recordedPrice := goodArray[i].initialCost)
  {
    var index := 0;
    while index < currentInventory.Length
      invariant 0 <= index <= currentInventory.Length
      invariant forall i :: 0 <= i < index ==>
        currentInventory[i] == if old(currentInventory[i]).recordedPrice > UnsetPrice then old(currentInventory[i])
                               else old(currentInventory[i]).(recordedPrice := goodArray[i].initialCost)
      invariant forall i :: index <= i < currentInventory.Length ==> currentInventory[i] == old(currentInventory[i])
    {
      var targetInv := currentInventory[index];
      if targetInv.recordedPrice > UnsetPrice {
        index := index + 1;
        continue;
      }
      targetInv := targetInv.(recordedPrice := goodArray[index].initialCost);
      currentInventory[index] := targetInv;
      index := index + 1;
    }
  }

  /** What the starting inventory holds after the fill pass: the starting cell, its price
      replaced by the good's initial cost when it is at most `UnsetPrice`. */
  function FilledCell(goods: map<string, Good>, goodArray: seq<Good>, values: seq<JsonValue>, g: int): InvContent
    requires KnownValues(goods, values) && 0 <= g < |goodArray|
  {
    var c := StartCell(goods, values, g);
    if c.recordedPrice > UnsetPrice then c else c.(recordedPrice := goodArray[g].initialCost)
  }

  /** Over a catalogue, every starting cell ends at its good's initial cost, and holds the
      last listed quantity for a listed good and nothing for the others. */
  lemma {:induction false} StartingPricesAreInitialCosts(goods: map<string, Good>, goodArray: seq<Good>, values: seq<JsonValue>, g: int)
    requires Catalogue(goods, goodArray) && KnownValues(goods, values) && 0 <= g < |goodArray|
    ensures FilledCell(goods, goodArray, values, g).recordedPrice == goodArray[g].initialCost
    ensures FilledCell(goods, goodArray, values, g).quantity ==
      if LastFor(goods, values, g) < 0 then 0 else values[LastFor(goods, values, g)].quantity
  {
    LastForIsLast(goods, values, g);
  }

  // ---------------------------------------------------------------------------------------
  // Recipe flattening

  predicate KnownPossibilities(goods: map<string, Good>, vs: seq<JsonPossibility>)
  {
    forall i :: 0 <= i < |vs| ==> vs[i].name in goods
  }

  /** Every good a recipe names is a known good. */
  predicate KnownRecipe(goods: map<string, Good>, recipe: JsonDeltas)
  {
    KnownPossibilities(goods, recipe.consumes) && KnownPossibilities(goods, recipe.produces)
  }

  predicate KnownRecipes(goods: map<string, Good>, recipes: seq<JsonDeltas>)
  {
    forall r :: 0 <= r < |recipes| ==> KnownRecipe(goods, recipes[r])
  }

  /** The recipe entry of one value: its good's catalogue index, its quantity and its chance. */
  function Delta(goods: map<string, Good>, v: JsonPossibility): DeltaValue
    requires v.name in goods
  {
    NewDeltaValue(goods[v.name].index, v.quantity, v.possibility)
  }

  /** The delta entries of a list of consumes or produces, in order. */
  function Deltas(goods: map<string, Good>, vs: seq<JsonPossibility>): (r: seq<DeltaValue>)
    requires KnownPossibilities(goods, vs)
    ensures |r| == |vs| && forall i :: 0 <= i < |vs| ==> r[i] == Delta(goods, vs[i])
  {
    if vs == [] then [] else Deltas(goods, vs[..|vs| - 1]) + [Delta(goods, vs[|vs| - 1])]
  }

  /** The number of delta entries the recipes contribute. */
  function Size(recipes: seq<JsonDeltas>): nat
  {
    if recipes == [] then 0
    else
      var last := recipes[|recipes| - 1];
      Size(recipes[..|recipes| - 1]) + |last.consumes| + |last.produces|
  }

  /** The archetype's delta list: every recipe's consumes, then its produces, recipe after
      recipe. */
  function Flat(goods: map<string, Good>, recipes: seq<JsonDeltas>): (r: seq<DeltaValue>)
    requires KnownRecipes(goods, recipes)
    ensures |r| == Size(recipes)
  {
    if recipes == [] then []
    else
      var last := recipes[|recipes| - 1];
      Flat(goods, recipes[..|recipes| - 1]) + Deltas(goods, last.consumes) + Deltas(goods, last.produces)
  }

  /** The recipe ranges: (start of consumes, start of produces, end) per recipe. */
  function Ranges(recipes: seq<JsonDeltas>): (r: seq<PossibleDelta>)
    ensures |r| == |recipes|
  {
    if recipes == [] then []
    else
      var init := recipes[..|recipes| - 1];
      var last := recipes[|recipes| - 1];
      var consumeStart := Size(init);
      var produceStart := consumeStart + |last.consumes|;
      Ranges(init) + [PossibleDeltaFromInt3(Int3(consumeStart, produceStart, produceStart + |last.produces|))]
  }

  lemma {:induction false} KnownPrefix(goods: map<string, Good>, recipes: seq<JsonDeltas>, k: nat)
    requires KnownRecipes(goods, recipes) && k <= |recipes|
    ensures KnownRecipes(goods, recipes[..k])
  {
  }

  /** The first `k` recipes contribute no more entries than all of them. */
  lemma {:induction false} SizePrefix(recipes: seq<JsonDeltas>, k: nat)
    requires k <= |recipes|
    ensures Size(recipes[..k]) <= Size(recipes)
    decreases |recipes| - k
  {
    if k < |recipes| {
      SizePrefix(recipes, k + 1);
      assert recipes[..k + 1][..k] == recipes[..k];
    } else {
      assert recipes[..k] == recipes;
    }
  }

  /** Flattening a prefix of the recipes gives a prefix of the flattened list. */
  lemma {:induction false} FlatPrefix(goods: map<string, Good>, recipes: seq<JsonDeltas>, k: nat)
    requires KnownRecipes(goods, recipes) && k <= |recipes|
    ensures KnownRecipes(goods, recipes[..k])
    ensures Size(recipes[..k]) <= Size(recipes)
    ensures Flat(goods, recipes[..k]) == Flat(goods, recipes)[..Size(recipes[..k])]
    decreases |recipes| - k
  {
    KnownPrefix(goods, recipes, k);
    if k < |recipes| {
      FlatPrefix(goods, recipes, k + 1);
      FlatLast(goods, recipes, k);
      var head := Flat(goods, recipes[..k]);
      HeadOfConcat(head, Deltas(goods, recipes[k].consumes), Deltas(goods, recipes[k].produces));
      PrefixOfPrefix(Flat(goods, recipes), Flat(goods, recipes[..k + 1]), head);
    } else {
      assert recipes[..k] == recipes;
    }
  }

  /** Range `i` starts where the first `i` recipes' entries end and ends where the first
      `i + 1` recipes' entries end; its middle bound follows the consumes. */
  lemma {:induction false} RangeAt(recipes: seq<JsonDeltas>, i: nat)
    requires i < |recipes|
    ensures Ranges(recipes)[i].deltas.x == Size(recipes[..i])
    ensures Ranges(recipes)[i].deltas.y == Size(recipes[..i]) + |recipes[i].consumes|
    ensures Ranges(recipes)[i].deltas.z == Size(recipes[..i + 1])
    ensures Size(recipes[..i + 1]) == Size(recipes[..i]) + |recipes[i].consumes| + |recipes[i].produces|
    decreases |recipes|
  {
    var init := recipes[..|recipes| - 1];
    var next := recipes[..i + 1];
    assert next[..i] == recipes[..i];
    if i < |init| {
      RangeAt(init, i);
      assert init[..i] == recipes[..i];
      assert init[..i + 1] == recipes[..i + 1];
    } else {
      assert init == recipes[..i];
      assert next == recipes;
    }
  }

  /** The ranges tile the delta list: one per recipe, each inside the list, the first
      starting at 0, each ending where the next starts and the last ending at the list's end;
      the consume part has one slot per consume and the produce part one per produce. */
  lemma {:induction false} RangesTile(recipes: seq<JsonDeltas>)
    ensures |Ranges(recipes)| == |recipes|
    ensures forall i :: 0 <= i < |recipes| ==> RangeIn(Ranges(recipes)[i].deltas, Size(recipes))
    ensures forall i :: 0 <= i < |recipes| ==>
      Ranges(recipes)[i].deltas.y - Ranges(recipes)[i].deltas.x == |recipes[i].consumes|
    ensures forall i :: 0 <= i < |recipes| ==>
      Ranges(recipes)[i].deltas.z - Ranges(recipes)[i].deltas.y == |recipes[i].produces|
    ensures |recipes| > 0 ==> Ranges(recipes)[0].deltas.x == 0
    ensures |recipes| > 0 ==> Ranges(recipes)[|recipes| - 1].deltas.z == Size(recipes)
    ensures forall i :: 0 <= i < |recipes| - 1 ==> Ranges(recipes)[i].deltas.z == Ranges(recipes)[i + 1].deltas.x
  {
    RangesInside(recipes);
    RangesContiguous(recipes);
    if |recipes| > 0 {
      RangeAt(recipes, 0);
      assert recipes[..0] == [];
      RangeAt(recipes, |recipes| - 1);
      assert recipes[..|recipes|] == recipes;
    }
  }

  /** Each range lies inside the delta list and is as wide as the recipe's lists. */
  lemma {:induction false} RangesInside(recipes: seq<JsonDeltas>)
    ensures forall i :: 0 <= i < |recipes| ==> RangeIn(Ranges(recipes)[i].deltas, Size(recipes))
    ensures forall i :: 0 <= i < |recipes| ==>
      Ranges(recipes)[i].deltas.y - Ranges(recipes)[i].deltas.x == |recipes[i].consumes|
    ensures forall i :: 0 <= i < |recipes| ==>
      Ranges(recipes)[i].deltas.z - Ranges(recipes)[i].deltas.y == |recipes[i].produces|
  {
    forall i | 0 <= i < |recipes|
      ensures RangeIn(Ranges(recipes)[i].deltas, Size(recipes))
      ensures Ranges(recipes)[i].deltas.y - Ranges(recipes)[i].deltas.x == |recipes[i].consumes|
      ensures Ranges(recipes)[i].deltas.z - Ranges(recipes)[i].deltas.y == |recipes[i].produces|
    {
      RangeAt(recipes, i);
      SizePrefix(recipes, i + 1);
    }
  }

  /** Each range ends where the next one starts. */
  lemma {:induction false} RangesContiguous(recipes: seq<JsonDeltas>)
    ensures forall i :: 0 <= i < |recipes| - 1 ==> Ranges(recipes)[i].deltas.z == Ranges(recipes)[i + 1].deltas.x
  {
    forall i | 0 <= i < |recipes| - 1
      ensures Ranges(recipes)[i].deltas.z == Ranges(recipes)[i + 1].deltas.x
    {
      RangeAt(recipes, i);
      RangeAt(recipes, i + 1);
    }
  }


  /** The entries of the first `i + 1` recipes: those of the first `i`, then recipe `i`'s
      consumes and produces. */
  lemma {:induction false} FlatLast(goods: map<string, Good>, recipes: seq<JsonDeltas>, i: nat)
    requires KnownRecipes(goods, recipes) && i < |recipes|
    ensures KnownRecipes(goods, recipes[..i]) && KnownRecipes(goods, recipes[..i + 1])
    ensures Flat(goods, recipes[..i + 1]) ==
      Flat(goods, recipes[..i]) + Deltas(goods, recipes[i].consumes) + Deltas(goods, recipes[i].produces)
  {
    KnownPrefix(goods, recipes, i);
    KnownPrefix(goods, recipes, i + 1);
    assert recipes[..i + 1][..i] == recipes[..i];
  }

  /** Recipe `i`'s entries sit in the delta list right after those of the recipes before it. */
  lemma {:induction false} FlatAt(goods: map<string, Good>, recipes: seq<JsonDeltas>, i: nat)
    requires KnownRecipes(goods, recipes) && i < |recipes|
    ensures KnownRecipes(goods, recipes[..i])
    ensures Size(recipes[..i + 1]) <= Size(recipes)
    ensures Flat(goods, recipes)[..Size(recipes[..i + 1])] ==
      Flat(goods, recipes[..i]) + Deltas(goods, recipes[i].consumes) + Deltas(goods, recipes[i].produces)
  {
    FlatPrefix(goods, recipes, i + 1);
    FlatLast(goods, recipes, i);
  }

  /** Consume `j` of recipe `i` sits at position `x + j` of the delta list. */
  lemma {:induction false} ConsumeAt(goods: map<string, Good>, recipes: seq<JsonDeltas>, i: nat, j: nat)
    requires KnownRecipes(goods, recipes) && i < |recipes| && j < |recipes[i].consumes|
    ensures 0 <= Ranges(recipes)[i].deltas.x + j < |Flat(goods, recipes)|
    ensures Flat(goods, recipes)[Ranges(recipes)[i].deltas.x + j] == Delta(goods, recipes[i].consumes[j])
  {
    RangeAt(recipes, i);
    FlatAt(goods, recipes, i);
    SegmentAt(Flat(goods, recipes), Size(recipes[..i + 1]), Flat(goods, recipes[..i]),
              Deltas(goods, recipes[i].consumes), Deltas(goods, recipes[i].produces), j);
  }

  /** Produce `j` of recipe `i` sits at position `y + j` of the delta list. */
  lemma {:induction false} ProduceAt(goods: map<string, Good>, recipes: seq<JsonDeltas>, i: nat, j: nat)
    requires KnownRecipes(goods, recipes) && i < |recipes| && j < |recipes[i].produces|
    ensures 0 <= Ranges(recipes)[i].deltas.y + j < |Flat(goods, recipes)|
    ensures Flat(goods, recipes)[Ranges(recipes)[i].deltas.y + j] == Delta(goods, recipes[i].produces[j])
  {
    RangeAt(recipes, i);
    FlatAt(goods, recipes, i);
    var before := Flat(goods, recipes[..i]) + Deltas(goods, recipes[i].consumes);
    assert before + Deltas(goods, recipes[i].produces) + [] == before + Deltas(goods, recipes[i].produces);
    SegmentAt(Flat(goods, recipes), Size(recipes[..i + 1]), Flat(goods, recipes[..i]) +
              Deltas(goods, recipes[i].consumes), Deltas(goods, recipes[i].produces), [], j);
  }

  lemma {:induction false} PrefixOfPrefix<T>(a: seq<T>, b: seq<T>, c: seq<T>)
    requires |b| <= |a| && b == a[..|b|] && |c| <= |b| && c == b[..|c|]
    ensures c == a[..|c|]
  {
    assert forall k :: 0 <= k < |c| ==> c[k] == b[k] == a[k];
  }

  lemma {:induction false} HeadOfConcat<T>(a: seq<T>, b: seq<T>, c: seq<T>)
    ensures (a + b + c)[..|a|] == a
  {
    assert forall i :: 0 <= i < |a| ==> (a + b + c)[i] == a[i];
  }

  /** When a list starts with `head + mid + tail`, element `k` of `mid` sits at `|head| + k`. */
  lemma {:induction false} SegmentAt<T>(whole: seq<T>, n: nat, head: seq<T>, mid: seq<T>, tail: seq<T>, k: nat)
    requires n <= |whole| && whole[..n] == head + mid + tail && k < |mid|
    ensures |head| + k < |whole| && whole[|head| + k] == mid[k]
  {
    assert (head + mid + tail)[|head| + k] == mid[k];
  }

  /** The inner `foreach`: append one delta entry per consume (or produce), in order. */
  method AddDeltas(goods: map<string, Good>, deltas: seq<DeltaValue>, vs: seq<JsonPossibility>)
    returns (result: seq<DeltaValue>)
    requires KnownPossibilities(goods, vs)
    ensures result == deltas + Deltas(goods, vs)
  {
    result := deltas;
    var j := 0;
    while j < |vs|
      invariant 0 <= j <= |vs|
      invariant result == deltas + Deltas(goods, vs[..j])
    {
      var value := vs[j];
      result := result + [NewDeltaValue(goods[value.name].index, value.quantity, value.possibility)];
      assert vs[..j + 1][..j] == vs[..j];
      j := j + 1;
    }
    assert vs[..j] == vs;
  }

  /** The ranges of the first `r + 1` recipes: those of the first `r`, then recipe `r`'s. */
  lemma {:induction false} RangesLast(recipes: seq<JsonDeltas>, r: nat)
    requires r < |recipes|
    ensures Ranges(recipes[..r + 1]) == Ranges(recipes[..r]) +
      [PossibleDeltaFromInt3(Int3(Size(recipes[..r]), Size(recipes[..r]) + |recipes[r].consumes|,
        Size(recipes[..r]) + |recipes[r].consumes| + |recipes[r].produces|))]
  {
    assert recipes[..r + 1][..r] == recipes[..r];
  }

  /** One pass of the recipe loop: recipe `r` appends its consumes, then its produces, and
      its range. */
  method AddRecipe(goods: map<string, Good>, recipes: seq<JsonDeltas>, r: nat,
                   possibleDeltas: seq<PossibleDelta>, deltas: seq<DeltaValue>)
    returns (possibleDeltas': seq<PossibleDelta>, deltas': seq<DeltaValue>)
    requires KnownRecipes(goods, recipes) && r < |recipes|
    requires possibleDeltas == Ranges(recipes[..r]) && deltas == Flat(goods, recipes[..r])
    ensures KnownRecipes(goods, recipes[..r + 1])
    ensures possibleDeltas' == Ranges(recipes[..r + 1]) && deltas' == Flat(goods, recipes[..r + 1])
  {
    var possibilities := recipes[r];
    assert KnownRecipe(goods, possibilities);
    FlatLast(goods, recipes, r);
    RangesLast(recipes, r);
    var consumeStart := |deltas|;
    deltas' := AddDeltas(goods, deltas, possibilities.consumes);
    var produceStart := |deltas'|;
    deltas' := AddDeltas(goods, deltas', possibilities.produces);
    possibleDeltas' := possibleDeltas + [PossibleDeltaFromInt3(Int3(consumeStart, produceStart, |deltas'|))];
  }

  /** The recipe loop: each recipe appends its consumes and then its produces to the delta
      list and records the range (consume start, produce start, end) of what it appended. */
  method FlattenRecipes(goods: map<string, Good>, recipes: seq<JsonDeltas>)
    returns (possibleDeltas: seq<PossibleDelta>, deltas: seq<DeltaValue>)
    requires KnownRecipes(goods, recipes)
    ensures possibleDeltas == Ranges(recipes) && deltas == Flat(goods, recipes)
  {
    possibleDeltas, deltas := [], [];
    var r := 0;
    while r < |recipes|
      invariant 0 <= r <= |recipes|
      invariant KnownRecipes(goods, recipes[..r])
      invariant possibleDeltas == Ranges(recipes[..r]) && deltas == Flat(goods, recipes[..r])
    {
      possibleDeltas, deltas := AddRecipe(goods, recipes, r, possibleDeltas, deltas);
      r := r + 1;
    }
    assert recipes[..r] == recipes;
  }

  /** Every delta entry of known recipes names a good below the catalogue's size. */
  lemma {:induction false} FlatGoodsBelow(goods: map<string, Good>, n: int, recipes: seq<JsonDeltas>)
    requires KnownRecipes(goods, recipes) && IndicesBelow(goods, n)
    ensures forall k :: 0 <= k < |Flat(goods, recipes)| ==> 0 <= Flat(goods, recipes)[k].good < n
    decreases |recipes|
  {
    if recipes != [] {
      var init := recipes[..|recipes| - 1];
      KnownPrefix(goods, recipes, |recipes| - 1);
      FlatGoodsBelow(goods, n, init);
    }
  }

  // ---------------------------------------------------------------------------------------
  // One archetype file

  /** Every good an archetype file names is in the catalogue. */
  predicate KnownLogic(goods: map<string, Good>, json: JsonLogic)
  {
    KnownValues(goods, json.costOfLiving) && KnownValues(goods, json.limitGoods) &&
    KnownValues(goods, json.idealQuantity) && KnownValues(goods, json.startQuantity) &&
    KnownRecipes(goods, json.possibleDeltas)
  }

  /** The buffers an archetype file is turned into: cost-of-living and limit entries in
      file order with their goods' indices, one ideal entry per good, and the flattened
      recipes. */
  ghost predicate Loaded(goods: map<string, Good>, n: nat, json: JsonLogic, a: Archetype)
    requires KnownLogic(goods, json)
  {
    |a.costOfLiving| == |json.costOfLiving| &&
    (forall i :: 0 <= i < |json.costOfLiving| ==>
      a.costOfLiving[i].good == goods[json.costOfLiving[i].name].index &&
      a.costOfLiving[i].quantity == json.costOfLiving[i].quantity) &&
    |a.limitGoods| == |json.limitGoods| &&
    (forall i :: 0 <= i < |json.limitGoods| ==>
      a.limitGoods[i].good == goods[json.limitGoods[i].name].index &&
      a.limitGoods[i].quantity == json.limitGoods[i].quantity) &&
    |a.idealQuantity| == n &&
    (forall g :: 0 <= g < n ==> IdealToInt(a.idealQuantity[g]) == IdealOf(goods, json.idealQuantity, g)) &&
    a.possibleDeltas == Ranges(json.possibleDeltas) &&
    a.deltaValues == Flat(goods, json.possibleDeltas)
  }

  /** What the loader builds from a file over a catalogue is well formed: every good index
      lies inside the catalogue and every recipe range inside the delta list. */
  lemma {:induction false} LoadedIsWellFormed(goods: map<string, Good>, goodArray: seq<Good>, json: JsonLogic, a: Archetype)
    requires Catalogue(goods, goodArray) && KnownLogic(goods, json)
    requires Loaded(goods, |goodArray|, json, a)
    ensures WellFormed(a, |goodArray|)
  {
    var n := |goodArray|;
    assert forall i :: 0 <= i < |a.costOfLiving| ==> 0 <= a.costOfLiving[i].good < n by {
      forall i | 0 <= i < |a.costOfLiving| ensures 0 <= a.costOfLiving[i].good < n {
        assert json.costOfLiving[i].name in goods;
      }
    }
    assert forall i :: 0 <= i < |a.limitGoods| ==> 0 <= a.limitGoods[i].good < n by {
      forall i | 0 <= i < |a.limitGoods| ensures 0 <= a.limitGoods[i].good < n {
        assert json.limitGoods[i].name in goods;
      }
    }
    FlatGoodsBelow(goods, n, json.possibleDeltas);
    RangesTile(json.possibleDeltas);
  }

  /** The body of the archetype loop for one file: its buffers, its starting inventory after
      the fill pass, and its used space. */
  method LoadArchetype(goods: map<string, Good>, goodArray: seq<Good>, json: JsonLogic)
    returns (archetype: Archetype, currentInventory: array<InvContent>, sizeCounter: int)
    requires Catalogue(goods, goodArray) && KnownLogic(goods, json)
    ensures Loaded(goods, |goodArray|, json, archetype) && WellFormed(archetype, |goodArray|)
    ensures fresh(currentInventory) && currentInventory.Length == |goodArray|
    ensures forall g :: 0 <= g < |goodArray| ==> currentInventory[g] == FilledCell(goods, goodArray, json.startQuantity, g)
    ensures sizeCounter == UsedSpace(goods, json.startQuantity)
  {
    var n := |goodArray|;
    var costOfLiving := CostsOfLiving(goods, json.costOfLiving);
    var limitGoods := LimitGoods(goods, json.limitGoods);
    var idealQuantity := IdealVector(goods, n, json.idealQuantity);
    currentInventory, sizeCounter := StartInventory(goods, n, json.startQuantity);
    FillPrices(currentInventory, goodArray);
    var possibleDeltas, deltas := FlattenRecipes(goods, json.possibleDeltas);
    archetype := Archetype(costOfLiving, limitGoods, idealQuantity[..], possibleDeltas, deltas);
    LoadedIsWellFormed(goods, goodArray, json, archetype);
  }

  // ---------------------------------------------------------------------------------------
  // Agents

  /** `CreateAgent(factoryType, wealth)`: the next id (the counter is incremented first), the
      archetype's entity, a wallet holding `wealth`, and a copy of the archetype's starting
      inventory. */
  method CreateAgent(counter: int, logic: nat, wealth: int, startingInventory: array<InvContent>)
    returns (next: int, agent: Agent, wallet: Wallet, inventory: array<InvContent>)
    ensures next == counter + 1
    ensures agent.id == next && agent.logic == logic && agent == NewAgentWithId(next, logic)
    ensures wallet.money == wealth as real && wallet.moneyLastRound == wealth as real && wallet.profit == 0.0
    ensures fresh(inventory) && inventory[..] == startingInventory[..]
  {
    next := counter + 1;
    agent := NewAgentWithId(next, logic);
    wallet := NewWallet(wealth as real);
    inventory := new InvContent[startingInventory.Length](i reads startingInventory
      requires 0 <= i < startingInventory.Length => startingInventory[i]);
  }
}
