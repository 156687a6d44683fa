/** Upkeep and production: `ProcessAgentLogic` (MarketSystem.cs), one agent at a time. */
module Production {
  import opened Wrappers
  import opened LogicTypes
  import opened Agents
  import opened Mathf

  /** Every good named by `costs` is a slot of an inventory of `n` goods. */
  predicate CostsIn(costs: seq<CostOfLiving>, n: int)
  {
    forall i :: 0 <= i < |costs| ==> 0 <= costs[i].good < n
  }

  predicate LimitsIn(limits: seq<LimitGood>, n: int)
  {
    forall i :: 0 <= i < |limits| ==> 0 <= limits[i].good < n
  }

  predicate DeltasIn(deltas: seq<DeltaValue>, n: int)
  {
    forall i :: 0 <= i < |deltas| ==> 0 <= deltas[i].good < n
  }

  predicate NonNegative(s: seq<InvContent>)
  {
    forall g :: 0 <= g < |s| ==> s[g].quantity >= 0
  }

  function Max0(v: int): int
  {
    if v < 0 then 0 else v
  }

  function Abs(v: int): nat
  {
    if v < 0 then -v else v
  }

  // ---------------------------------------------------------------------------------------
  // Cost of living

  /** One cost-of-living entry: subtract and clamp at zero. */
  function PayOne(s: seq<InvContent>, c: CostOfLiving): (r: seq<InvContent>)
    requires 0 <= c.good < |s|
  {
    s[c.good := s[c.good].(quantity := Max0(s[c.good].quantity - c.quantity))]
  }

  /** The inventory after paying the cost-of-living entries in order. */
  function Upkeep(s: seq<InvContent>, costs: seq<CostOfLiving>): (r: seq<InvContent>)
    requires CostsIn(costs, |s|)
    ensures |r| == |s|
    decreases |costs|
  {
    if costs == [] then s
    else PayOne(Upkeep(s, costs[..|costs| - 1]), costs[|costs| - 1])
  }

  /** Whether one of the entries, applied in order, would have driven its good below zero. */
  function Starves(s: seq<InvContent>, costs: seq<CostOfLiving>): bool
    requires CostsIn(costs, |s|)
    decreases |costs|
  {
    if costs == [] then false
    else
      var before := costs[..|costs| - 1];
      var c := costs[|costs| - 1];
      Starves(s, before) || Upkeep(s, before)[c.good].quantity - c.quantity < 0
  }

  /** The upkeep loop of `ProcessAgentLogic`; the result is whether the agent starved. */
  method PayCostOfLiving(inv: array<InvContent>, costs: seq<CostOfLiving>) returns (starved: bool)
    requires CostsIn(costs, inv.Length)
    modifies inv
    ensures inv[..] == Upkeep(old(inv[..]), costs)
    ensures starved == Starves(old(inv[..]), costs)
  {
    starved := false;
    for i := 0 to |costs|
      invariant inv[..] == Upkeep(old(inv[..]), costs[..i])
      invariant starved == Starves(old(inv[..]), costs[..i])
    {
      assert costs[..i + 1][..i] == costs[..i];
      var c := costs[i];
      var placeholder := inv[c.good];
      placeholder := placeholder.(quantity := placeholder.quantity - c.quantity);
      if placeholder.quantity < 0 {
        starved := true;
        placeholder := placeholder.(quantity := 0);
      }
      inv[c.good] := placeholder;
    }
    assert costs[..|costs|] == costs;
  }

  predicate DistinctCostGoods(costs: seq<CostOfLiving>)
  {
    forall i, j :: 0 <= i < j < |costs| ==> costs[i].good != costs[j].good
  }

  /** Upkeep never touches a good it does not name, never changes a recorded price, and leaves
      every good it names at a quantity of at least zero. */
  lemma {:induction false} UpkeepFrame(s: seq<InvContent>, costs: seq<CostOfLiving>, g: int)
    requires CostsIn(costs, |s|) && 0 <= g < |s|
    ensures Upkeep(s, costs)[g].recordedPrice == s[g].recordedPrice
    ensures (forall k :: 0 <= k < |costs| ==> costs[k].good != g) ==> Upkeep(s, costs)[g] == s[g]
    ensures (exists k :: 0 <= k < |costs| && costs[k].good == g) ==> Upkeep(s, costs)[g].quantity >= 0
    decreases |costs|
  {
    if costs != [] {
      var before := costs[..|costs| - 1];
      UpkeepFrame(s, before, g);
      if exists k :: 0 <= k < |costs| && costs[k].good == g {
        var k :| 0 <= k < |costs| && costs[k].good == g;
        if costs[|costs| - 1].good != g {
          assert before[k].good == g;
        }
      }
    }
  }

  /** With distinct goods, each named good ends at max(q - cost, 0). */
  lemma {:induction false} UpkeepDistinct(s: seq<InvContent>, costs: seq<CostOfLiving>)
    requires CostsIn(costs, |s|) && DistinctCostGoods(costs)
    ensures forall k :: 0 <= k < |costs| ==>
      Upkeep(s, costs)[costs[k].good].quantity == Max0(s[costs[k].good].quantity - costs[k].quantity)
    decreases |costs|
  {
    if costs != [] {
      var n := |costs| - 1;
      var before := costs[..n];
      UpkeepDistinct(s, before);
      var c := costs[n];
      UpkeepFrame(s, before, c.good);
      forall k | 0 <= k < |costs|
        ensures Upkeep(s, costs)[costs[k].good].quantity == Max0(s[costs[k].good].quantity - costs[k].quantity)
      {
        if k < n {
          assert before[k] == costs[k];
          assert costs[k].good != c.good;
        }
      }
    }
  }

  /** With distinct goods, the agent starves exactly when some q - cost is negative. */
  lemma {:induction false} StarvesDistinct(s: seq<InvContent>, costs: seq<CostOfLiving>)
    requires CostsIn(costs, |s|) && DistinctCostGoods(costs)
    ensures Starves(s, costs) <==>
      exists k :: 0 <= k < |costs| && s[costs[k].good].quantity - costs[k].quantity < 0
    decreases |costs|
  {
    if costs != [] {
      var n := |costs| - 1;
      var before := costs[..n];
      StarvesDistinct(s, before);
      var c := costs[n];
      UpkeepFrame(s, before, c.good);
      assert Upkeep(s, before)[c.good] == s[c.good];
      if Starves(s, costs) && Starves(s, before) {
        var k :| 0 <= k < n && s[before[k].good].quantity - before[k].quantity < 0;
        assert costs[k] == before[k];
      }
      if exists k :: 0 <= k < |costs| && s[costs[k].good].quantity - costs[k].quantity < 0 {
        var k :| 0 <= k < |costs| && s[costs[k].good].quantity - costs[k].quantity < 0;
        if k < n {
          assert before[k] == costs[k];
        }
      }
    }
  }

  // ---------------------------------------------------------------------------------------
  // Limit goods

  /** Some limit good is held at or above its limit ("more than or equal": stop working). */
  predicate AtLimit(s: seq<InvContent>, limits: seq<LimitGood>)
    requires LimitsIn(limits, |s|)
  {
    exists i :: 0 <= i < |limits| && s[limits[i].good].quantity >= limits[i].quantity
  }

  /** The limit-good loop of `ProcessAgentLogic`. */
  method ReachedLimit(inv: array<InvContent>, limits: seq<LimitGood>) returns (reached: bool)
    requires LimitsIn(limits, inv.Length)
    ensures reached <==> AtLimit(inv[..], limits)
  {
    for i := 0 to |limits|
      invariant forall k :: 0 <= k < i ==> inv[limits[k].good].quantity < limits[k].quantity
    {
      var current := limits[i];
      if inv[current.good].quantity >= current.quantity {
        return true;
      }
    }
    return false;
  }

  // ---------------------------------------------------------------------------------------
  // Recipe selection

  /** What a consume entry demands to be present: its quantity, or one unit for an "up to"
      entry (quantity not positive). */
  function Required(quantity: int): int
  {
    if quantity > 0 then quantity else 1
  }

  /** Every consume entry of recipe `r` is covered by the inventory. */
  predicate Satisfiable(s: seq<InvContent>, deltas: seq<DeltaValue>, r: Int3)
    requires DeltasIn(deltas, |s|) && RangeIn(r, |deltas|)
  {
    forall j :: r.x <= j < r.y ==> s[deltas[j].good].quantity >= Required(deltas[j].quantity)
  }

  predicate RecipesIn(recipes: seq<PossibleDelta>, n: int)
  {
    forall i :: 0 <= i < |recipes| ==> RangeIn(recipes[i].deltas, n)
  }

  /** The first recipe at or after `from` that is satisfiable. */
  function FirstSatisfiable(s: seq<InvContent>, deltas: seq<DeltaValue>, recipes: seq<PossibleDelta>,
                            from: nat): Option<nat>
    requires DeltasIn(deltas, |s|) && RecipesIn(recipes, |deltas|)
    decreases |recipes| - from
  {
    if from >= |recipes| then None
    else if Satisfiable(s, deltas, recipes[from].deltas) then Some(from)
    else FirstSatisfiable(s, deltas, recipes, from + 1)
  }

  /** `FirstSatisfiable` is first-fit: it picks a satisfiable recipe with no satisfiable
      recipe before it, and says `None` only when none from `from` on is satisfiable. */
  lemma {:induction false} FirstSatisfiableIsFirst(s: seq<InvContent>, deltas: seq<DeltaValue>,
                                                   recipes: seq<PossibleDelta>, from: nat)
    requires DeltasIn(deltas, |s|) && RecipesIn(recipes, |deltas|)
    ensures match FirstSatisfiable(s, deltas, recipes, from)
      case Some(k) =>
        from <= k < |recipes| && Satisfiable(s, deltas, recipes[k].deltas) &&
        forall j :: from <= j < k ==> !Satisfiable(s, deltas, recipes[j].deltas)
      case None =>
        forall j :: from <= j < |recipes| ==> !Satisfiable(s, deltas, recipes[j].deltas)
    decreases |recipes| - from
  {
    if from < |recipes| && !Satisfiable(s, deltas, recipes[from].deltas) {
      FirstSatisfiableIsFirst(s, deltas, recipes, from + 1);
    }
  }

  /** The inner loop: `checker` accumulates the requirement of each consume entry. */
  method CheckRecipe(inv: array<InvContent>, deltas: seq<DeltaValue>, r: Int3) returns (checker: bool)
    requires DeltasIn(deltas, inv.Length) && RangeIn(r, |deltas|)
    ensures checker <==> Satisfiable(inv[..], deltas, r)
  {
    checker := true;
    for j := r.x to r.y
      invariant checker <==> forall k :: r.x <= k < j ==>
        inv[deltas[k].good].quantity >= Required(deltas[k].quantity)
    {
      checker := checker &&
                 inv[deltas[j].good].quantity >= (if deltas[j].quantity > 0 then deltas[j].quantity else 1);
    }
  }

  /** The recipe loop: the index of the first satisfiable recipe, or `None`. */
  method SelectRecipe(inv: array<InvContent>, deltas: seq<DeltaValue>, recipes: seq<PossibleDelta>)
    returns (selected: Option<nat>)
    requires DeltasIn(deltas, inv.Length) && RecipesIn(recipes, |deltas|)
    ensures selected == FirstSatisfiable(inv[..], deltas, recipes, 0)
    ensures selected.Some? ==>
      selected.value < |recipes| && Satisfiable(inv[..], deltas, recipes[selected.value].deltas) &&
      forall j :: 0 <= j < selected.value ==> !Satisfiable(inv[..], deltas, recipes[j].deltas)
    ensures selected.None? ==> forall j :: 0 <= j < |recipes| ==> !Satisfiable(inv[..], deltas, recipes[j].deltas)
  {
    FirstSatisfiableIsFirst(inv[..], deltas, recipes, 0);
    for i := 0 to |recipes|
      invariant FirstSatisfiable(inv[..], deltas, recipes, 0) == FirstSatisfiable(inv[..], deltas, recipes, i)
    {
      var checker := CheckRecipe(inv, deltas, recipes[i].deltas);
      if checker {
        return Some(i);
      }
    }
    return None;
  }

  // ---------------------------------------------------------------------------------------
  // Scaling factor

  /** How much of an "up to" consume entry (quantity not positive) the inventory covers.
      A zero quantity divides by zero in the source, and the infinity or NaN that results never
      lowers the factor; it is 1 here. */
  function Ratio(held: int, quantity: int): (r: real)
    ensures 0.0 <= r <= 1.0
  {
    if quantity == 0 then 1.0 else Clamp01(held as real / Abs(quantity) as real)
  }

  /** The shared scaling factor over the consume entries [x, j): the smallest ratio of an
      "up to" entry, starting from 1. */
  function Factor(s: seq<InvContent>, deltas: seq<DeltaValue>, x: int, j: int): real
    requires DeltasIn(deltas, |s|) && 0 <= x <= j <= |deltas|
    decreases j - x
  {
    if j == x then 1.0
    else
      var f := Factor(s, deltas, x, j - 1);
      var d := deltas[j - 1];
      if d.quantity > 0 then f
      else
        var p := Ratio(s[d.good].quantity, d.quantity);
        if p < f then p else f
  }

  /** The factor lies in [0, 1], is at most the ratio of every "up to" entry, and is either 1 or
      the ratio of one of them. */
  lemma {:induction false} FactorIsMinimum(s: seq<InvContent>, deltas: seq<DeltaValue>, x: int, j: int)
    requires DeltasIn(deltas, |s|) && 0 <= x <= j <= |deltas|
    ensures 0.0 <= Factor(s, deltas, x, j) <= 1.0
    ensures forall k :: x <= k < j && deltas[k].quantity <= 0 ==>
      Factor(s, deltas, x, j) <= Ratio(s[deltas[k].good].quantity, deltas[k].quantity)
    ensures Factor(s, deltas, x, j) == 1.0 ||
      exists k :: x <= k < j && deltas[k].quantity <= 0 &&
                  Factor(s, deltas, x, j) == Ratio(s[deltas[k].good].quantity, deltas[k].quantity)
    ensures (forall k :: x <= k < j ==> deltas[k].quantity > 0) ==> Factor(s, deltas, x, j) == 1.0
    decreases j - x
  {
    if j > x {
      FactorIsMinimum(s, deltas, x, j - 1);
    }
  }

  /** The first consumption pass: the shared factor of the consume entries [x, y). */
  method ScalingFactor(inv: array<InvContent>, deltas: seq<DeltaValue>, x: int, y: int)
    returns (variableConsumption: real)
    requires DeltasIn(deltas, inv.Length) && 0 <= x <= y <= |deltas|
    ensures variableConsumption == Factor(inv[..], deltas, x, y)
    ensures 0.0 <= variableConsumption <= 1.0
  {
    variableConsumption := 1.0;
    for consume := x to y
      invariant variableConsumption == Factor(inv[..], deltas, x, consume)
    {
      var current := deltas[consume];
      if current.quantity > 0 {
        continue;
      }
      var percentConsumed := Ratio(inv[current.good].quantity, current.quantity);
      variableConsumption := if percentConsumed < variableConsumption then percentConsumed else variableConsumption;
    }
    FactorIsMinimum(inv[..], deltas, x, y);
  }

  // ---------------------------------------------------------------------------------------
  // Consumption and production

  /** `FloorToInt(|quantity| * factor)`. */
  function Amount(quantity: int, factor: real): int
  {
    (Abs(quantity) as real * factor).Floor
  }

  /** Add `delta` units to the slot of `good`. */
  function AddUnits(s: seq<InvContent>, good: int, delta: int): (r: seq<InvContent>)
    requires 0 <= good < |s|
    ensures |r| == |s|
  {
    s[good := s[good].(quantity := s[good].quantity + delta)]
  }

  /** The second consumption pass over [x, j): entry k consumes only if its roll
      `rolls[k - x]` does not exceed its possibility. */
  function Consumed(s: seq<InvContent>, deltas: seq<DeltaValue>, x: int, j: int, factor: real,
                    rolls: seq<real>): (r: seq<InvContent>)
    requires DeltasIn(deltas, |s|) && 0 <= x <= j <= |deltas| && j - x <= |rolls|
    ensures |r| == |s|
    decreases j - x
  {
    if j == x then s
    else
      var before := Consumed(s, deltas, x, j - 1, factor, rolls);
      var d := deltas[j - 1];
      if rolls[j - 1 - x] > d.possibility then before
      else AddUnits(before, d.good, -Amount(d.quantity, factor))
  }

  method Consume(inv: array<InvContent>, deltas: seq<DeltaValue>, x: int, y: int, factor: real,
                 rolls: seq<real>)
    requires DeltasIn(deltas, inv.Length) && 0 <= x <= y <= |deltas| && y - x <= |rolls|
    modifies inv
    ensures inv[..] == Consumed(old(inv[..]), deltas, x, y, factor, rolls)
  {
    for consume := x to y
      invariant inv[..] == Consumed(old(inv[..]), deltas, x, consume, factor, rolls)
    {
      var current := deltas[consume];
      var placeholder := inv[current.good];
      if rolls[consume - x] > current.possibility {
        continue;
      }
      ghost var before := inv[..];
      placeholder := placeholder.(quantity := placeholder.quantity - (Abs(current.quantity) as real * factor).Floor);
      inv[current.good] := placeholder;
      ghost var after := AddUnits(before, current.good, -Amount(current.quantity, factor));
      assert forall k :: 0 <= k < inv.Length ==> inv[k] == after[k];
      assert inv[..] == after;
    }
  }

  /** What one produce entry adds: its quantity, or |quantity| scaled by the shared factor. */
  function Gain(quantity: int, factor: real): int
  {
    if quantity > 0 then quantity else Amount(quantity, factor)
  }

  /** Production over [y, j); possibilities are not consulted. */
  function Produced(s: seq<InvContent>, deltas: seq<DeltaValue>, y: int, j: int, factor: real)
    : (r: seq<InvContent>)
    requires DeltasIn(deltas, |s|) && 0 <= y <= j <= |deltas|
    ensures |r| == |s|
    decreases j - y
  {
    if j == y then s
    else
      var before := Produced(s, deltas, y, j - 1, factor);
      AddUnits(before, deltas[j - 1].good, Gain(deltas[j - 1].quantity, factor))
  }

  method Produce(inv: array<InvContent>, deltas: seq<DeltaValue>, y: int, z: int, factor: real)
    requires DeltasIn(deltas, inv.Length) && 0 <= y <= z <= |deltas|
    modifies inv
    ensures inv[..] == Produced(old(inv[..]), deltas, y, z, factor)
  {
    for produce := y to z
      invariant inv[..] == Produced(old(inv[..]), deltas, y, produce, factor)
    {
      var current := deltas[produce];
      var placeholder := inv[current.good];
      placeholder := placeholder.(quantity := placeholder.quantity +
        (if current.quantity > 0 then current.quantity else (Abs(current.quantity) as real * factor).Floor));
      inv[current.good] := placeholder;
    }
  }

  /** With a factor of at least zero, production never lowers a quantity and never changes a
      recorded price. */
  lemma {:induction false} ProduceNeverDecreases(s: seq<InvContent>, deltas: seq<DeltaValue>, y: int,
                                                 j: int, factor: real, g: int)
    requires DeltasIn(deltas, |s|) && 0 <= y <= j <= |deltas| && 0.0 <= factor && 0 <= g < |s|
    ensures Produced(s, deltas, y, j, factor)[g].quantity >= s[g].quantity
    ensures Produced(s, deltas, y, j, factor)[g].recordedPrice == s[g].recordedPrice
    decreases j - y
  {
    if j > y {
      ProduceNeverDecreases(s, deltas, y, j - 1, factor, g);
      assert Gain(deltas[j - 1].quantity, factor) >= 0 by {
        var q := deltas[j - 1].quantity;
        if q <= 0 {
          assert Abs(q) as real * factor >= 0.0;
        }
      }
    }
  }

  predicate DistinctGoods(deltas: seq<DeltaValue>, a: int, b: int)
    requires 0 <= a <= b <= |deltas|
  {
    forall i, k :: a <= i < k < b ==> deltas[i].good != deltas[k].good
  }

  /** With distinct produce goods, each one grows by exactly its gain, the variable entries all
      scaled by the one shared factor. */
  lemma {:induction false} ProduceExact(s: seq<InvContent>, deltas: seq<DeltaValue>, y: int, j: int,
                                        factor: real)
    requires DeltasIn(deltas, |s|) && 0 <= y <= j <= |deltas| && DistinctGoods(deltas, y, j)
    ensures forall k :: y <= k < j ==>
      Produced(s, deltas, y, j, factor)[deltas[k].good].quantity ==
      s[deltas[k].good].quantity + Gain(deltas[k].quantity, factor)
    ensures forall g :: 0 <= g < |s| && (forall k :: y <= k < j ==> deltas[k].good != g) ==>
      Produced(s, deltas, y, j, factor)[g] == s[g]
    decreases j - y
  {
    if j > y {
      ProduceExact(s, deltas, y, j - 1, factor);
    }
  }

  lemma {:induction false} MulMonotone(a: real, b: real, c: real)
    requires 0.0 <= a && b <= c
    ensures a * b <= a * c
  {
  }

  lemma {:induction false} FloorBetween(v: real, n: int)
    requires 0.0 <= v <= n as real
    ensures 0 <= v.Floor <= n
  {
  }

  /** The amount a consume entry takes never exceeds what is held of its good, as long as the
      entry is satisfied and the factor is within the entry's ratio. */
  lemma {:induction false} AmountCovered(held: int, quantity: int, factor: real)
    requires 0 <= held && held >= Required(quantity) && 0.0 <= factor <= 1.0
    requires quantity <= 0 ==> factor <= Ratio(held, quantity)
    ensures 0 <= Amount(quantity, factor) <= held
  {
    var m := Abs(quantity) as real;
    MulMonotone(m, 0.0, factor);
    if quantity < 0 {
      var h := held as real;
      RatioAtMost(held, quantity);
      MulMonotone(m, factor, h / m);
      DivCancel(h, m);
      assert 0.0 <= m * factor <= h;
      FloorBetween(m * factor, held);
    } else if quantity > 0 {
      MulMonotone(m, factor, 1.0);
      assert m == quantity as real <= held as real;
      assert 0.0 <= m * factor <= held as real;
      FloorBetween(m * factor, held);
    } else {
      FloorBetween(m * factor, held);
    }
  }

  lemma {:induction false} RatioAtMost(held: int, quantity: int)
    requires 0 <= held && quantity < 0
    ensures Ratio(held, quantity) <= held as real / Abs(quantity) as real
  {
  }

  lemma {:induction false} DivCancel(h: real, m: real)
    requires m > 0.0
    ensures m * (h / m) == h
  {
  }

  /** Consumption of a satisfiable recipe with distinct consume goods never makes a quantity
      negative, and never touches a good outside its consume entries. */
  lemma {:induction false} ConsumeNonNegative(s: seq<InvContent>, deltas: seq<DeltaValue>, r: Int3, j: int,
                                              rolls: seq<real>)
    requires DeltasIn(deltas, |s|) && RangeIn(r, |deltas|) && NonNegative(s)
    requires Satisfiable(s, deltas, r) && DistinctGoods(deltas, r.x, r.y)
    requires r.x <= j <= r.y && r.y - r.x <= |rolls|
    ensures forall g :: 0 <= g < |s| ==>
      Consumed(s, deltas, r.x, j, Factor(s, deltas, r.x, r.y), rolls)[g].quantity >= 0
    ensures forall g :: 0 <= g < |s| && (forall k :: r.x <= k < j ==> deltas[k].good != g) ==>
      Consumed(s, deltas, r.x, j, Factor(s, deltas, r.x, r.y), rolls)[g] == s[g]
    decreases j - r.x
  {
    if j > r.x {
      ConsumeNonNegative(s, deltas, r, j - 1, rolls);
      FactorIsMinimum(s, deltas, r.x, r.y);
      var d := deltas[j - 1];
      AmountCovered(s[d.good].quantity, d.quantity, Factor(s, deltas, r.x, r.y));
    }
  }

  // ---------------------------------------------------------------------------------------
  // The whole phase

  /** The inventory and the agent after one call of `ProcessAgentLogic`. */
  datatype Outcome = Outcome(inventory: seq<InvContent>, agent: Agent)

  /** `rolls` has a value for every consume entry of every recipe. */
  predicate RollsCover(a: Archetype, rolls: seq<real>)
  {
    forall k :: 0 <= k < |a.possibleDeltas| ==>
      a.possibleDeltas[k].deltas.y - a.possibleDeltas[k].deltas.x <= |rolls|
  }

  /** The specification of `ProcessAgentLogic`. `rolls[i]` is the i-th `NextFloat(0, 1)` drawn. */
  function AgentLogic(s: seq<InvContent>, agent: Agent, a: Archetype, rolls: seq<real>): (o: Outcome)
    requires WellFormed(a, |s|) && RollsCover(a, rolls)
    ensures |o.inventory| == |s|
    ensures o.agent == agent.(starving := o.agent.starving)
  {
    var s1 := Upkeep(s, a.costOfLiving);
    var agent1 := agent.(starving := agent.starving || Starves(s, a.costOfLiving));
    if agent1.starving || AtLimit(s1, a.limitGoods) then Outcome(s1, agent1)
    else
      match FirstSatisfiable(s1, a.deltaValues, a.possibleDeltas, 0)
      case None => Outcome(s1, agent1)
      case Some(k) =>
        if k < |a.possibleDeltas| then
          var r := a.possibleDeltas[k].deltas;
          var f := Factor(s1, a.deltaValues, r.x, r.y);
          var s2 := Consumed(s1, a.deltaValues, r.x, r.y, f, rolls);
          Outcome(Produced(s2, a.deltaValues, r.y, r.z, f), agent1)
        else Outcome(s1, agent1)
  }

  method ProcessAgentLogic(inv: array<InvContent>, agent: Agent, a: Archetype, rolls: seq<real>)
    returns (agent': Agent)
    requires WellFormed(a, inv.Length) && RollsCover(a, rolls)
    modifies inv
    ensures inv[..] == AgentLogic(old(inv[..]), agent, a, rolls).inventory
    ensures agent' == AgentLogic(old(inv[..]), agent, a, rolls).agent
  {
    ghost var s := inv[..];
    var starved := PayCostOfLiving(inv, a.costOfLiving);
    agent' := agent.(starving := agent.starving || starved);
    if agent'.starving {
      return;
    }
    var reached := ReachedLimit(inv, a.limitGoods);
    if reached {
      return;
    }
    var selected := SelectRecipe(inv, a.deltaValues, a.possibleDeltas);
    if selected.None? {
      return;
    }
    var r := a.possibleDeltas[selected.value].deltas;
    var variableConsumption := ScalingFactor(inv, a.deltaValues, r.x, r.y);
    Consume(inv, a.deltaValues, r.x, r.y, variableConsumption, rolls);
    Produce(inv, a.deltaValues, r.y, r.z, variableConsumption);
  }

  /** A starving agent, or one at a limit, only pays its upkeep. */
  lemma {:induction false} SkipMeansUpkeepOnly(s: seq<InvContent>, agent: Agent, a: Archetype, rolls: seq<real>)
    requires WellFormed(a, |s|) && RollsCover(a, rolls)
    requires agent.starving || Starves(s, a.costOfLiving) || AtLimit(Upkeep(s, a.costOfLiving), a.limitGoods)
    ensures AgentLogic(s, agent, a, rolls).inventory == Upkeep(s, a.costOfLiving)
    ensures AgentLogic(s, agent, a, rolls).agent.starving == (agent.starving || Starves(s, a.costOfLiving))
  {
  }

  /** Every consume range of `a` names distinct goods. */
  predicate DistinctConsumes(a: Archetype)
    requires RecipesIn(a.possibleDeltas, |a.deltaValues|)
  {
    forall k :: 0 <= k < |a.possibleDeltas| ==>
      DistinctGoods(a.deltaValues, a.possibleDeltas[k].deltas.x, a.possibleDeltas[k].deltas.y)
  }

  /** Inventory non-negativity: if every quantity is at least zero before the phase and the
      consume goods of each recipe are distinct, every quantity is at least zero after it. */
  lemma {:induction false} AgentLogicNonNegative(s: seq<InvContent>, agent: Agent, a: Archetype, rolls: seq<real>)
    requires WellFormed(a, |s|) && RollsCover(a, rolls) && DistinctConsumes(a) && NonNegative(s)
    ensures NonNegative(AgentLogic(s, agent, a, rolls).inventory)
  {
    var s1 := Upkeep(s, a.costOfLiving);
    forall g | 0 <= g < |s| ensures s1[g].quantity >= 0 {
      UpkeepFrame(s, a.costOfLiving, g);
    }
    var sel := FirstSatisfiable(s1, a.deltaValues, a.possibleDeltas, 0);
    FirstSatisfiableIsFirst(s1, a.deltaValues, a.possibleDeltas, 0);
    if sel.Some? {
      var r := a.possibleDeltas[sel.value].deltas;
      var f := Factor(s1, a.deltaValues, r.x, r.y);
      FactorIsMinimum(s1, a.deltaValues, r.x, r.y);
      ConsumeNonNegative(s1, a.deltaValues, r, r.y, rolls);
      var s2 := Consumed(s1, a.deltaValues, r.x, r.y, f, rolls);
      forall g | 0 <= g < |s| ensures Produced(s2, a.deltaValues, r.y, r.z, f)[g].quantity >= 0 {
        ProduceNeverDecreases(s2, a.deltaValues, r.y, r.z, f, g);
      }
    }
  }
}
