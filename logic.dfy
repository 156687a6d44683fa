/** The archetype records (Logic.cs) and the inventory cell (Inventory.cs). */
module LogicTypes {

  /** The archetype component: its index among all archetypes. */
  datatype Logic = Logic(index: int)

  /** One cost-of-living entry: `quantity` units of `good` are used up every tick. */
  datatype CostOfLiving = CostOfLiving(good: int, quantity: int)

  /** One limit good: the archetype stops working once it owns at least `quantity` of `good`. */
  datatype LimitGood = LimitGood(good: int, quantity: int)

  /** The ideal inventory level of one good; converts to and from `int` implicitly. */
  datatype IdealQuantity = IdealQuantity(quantity: int)

  /** Unity's `int3`. */
  datatype Int3 = Int3(x: int, y: int, z: int)

  /** One recipe: `deltas.x` is where its consume entries start, `deltas.y` where its produce
      entries start and `deltas.z` where they end, all indices into the archetype's delta list. */
  datatype PossibleDelta = PossibleDelta(deltas: Int3)
  {
    function ConsumeStart(): int { deltas.x }
    function ProduceStart(): int { deltas.y }
    function ProduceEnd(): int { deltas.z }
  }

  /** One consume or produce entry: the good, a signed quantity and the probability (0.1 = 10%)
      that a consume entry fires. */
  datatype DeltaValue = DeltaValue(good: int, quantity: int, possibility: real)

  /** One inventory slot: units held and the price they were recorded at. */
  datatype InvContent = InvContent(quantity: int, recordedPrice: real)

  /** The `Logic` constructor: the archetype with catalogue index `index`. */
  function NewLogic(index: int): (l: Logic)
    ensures l.index == index
  {
    Logic(index)
  }

  /** The `CostOfLiving` constructor. */
  function NewCostOfLiving(good: int, quantity: int): (c: CostOfLiving)
    ensures c.good == good && c.quantity == quantity
  {
    CostOfLiving(good, quantity)
  }

  /** The `LimitGood` constructor. */
  function NewLimitGood(good: int, quantity: int): (l: LimitGood)
    ensures l.good == good && l.quantity == quantity
  {
    LimitGood(good, quantity)
  }

  /** `implicit operator IdealQuantity(int)`. */
  function IdealFromInt(i: int): (q: IdealQuantity)
    ensures IdealToInt(q) == i
  {
    IdealQuantity(i)
  }

  /** `implicit operator int(IdealQuantity)`. */
  function IdealToInt(q: IdealQuantity): int
  {
    q.quantity
  }

  /** `implicit operator PossibleDelta(int3)`: the three bounds keep their meaning. */
  function PossibleDeltaFromInt3(i: Int3): (p: PossibleDelta)
    ensures p.deltas == i
    ensures p.ConsumeStart() == i.x && p.ProduceStart() == i.y && p.ProduceEnd() == i.z
  {
    PossibleDelta(i)
  }

  /** The `DeltaValue` constructor. */
  function NewDeltaValue(good: int, quantity: int, possibility: real): (d: DeltaValue)
    ensures d.good == good && d.quantity == quantity && d.possibility == possibility
  {
    DeltaValue(good, quantity, possibility)
  }

  /** `new InvContent(quantity, recordedPrice)`. */
  function NewInvContent(quantity: int, recordedPrice: real): (c: InvContent)
    ensures c.quantity == quantity && c.recordedPrice == recordedPrice
  {
    InvContent(quantity, recordedPrice)
  }

  /** The int to IdealQuantity to int conversion is the identity, and so is the other way round. */
  lemma {:induction false} IdealRoundTrip(i: int, q: IdealQuantity)
    ensures IdealToInt(IdealFromInt(i)) == i
    ensures IdealFromInt(IdealToInt(q)) == q
  {
  }

  /** Everything an archetype entity carries as dynamic buffers. */
  datatype Archetype = Archetype(
    costOfLiving: seq<CostOfLiving>,
    limitGoods: seq<LimitGood>,
    idealQuantity: seq<IdealQuantity>,
    possibleDeltas: seq<PossibleDelta>,
    deltaValues: seq<DeltaValue>)

  /** Every good index in `a` lies in [0, goodCount) and every recipe range is ordered and lies
      inside the delta list: the consistency the catalog loader guarantees. */
  ghost predicate WellFormed(a: Archetype, goodCount: nat)
  {
    (forall i :: 0 <= i < |a.costOfLiving| ==> 0 <= a.costOfLiving[i].good < goodCount) &&
    (forall i :: 0 <= i < |a.limitGoods| ==> 0 <= a.limitGoods[i].good < goodCount) &&
    |a.idealQuantity| == goodCount &&
    (forall i :: 0 <= i < |a.deltaValues| ==> 0 <= a.deltaValues[i].good < goodCount) &&
    (forall i :: 0 <= i < |a.possibleDeltas| ==> RangeIn(a.possibleDeltas[i].deltas, |a.deltaValues|))
  }

  /** `0 <= x <= y <= z <= n`. */
  predicate RangeIn(r: Int3, n: int)
  {
    0 <= r.x <= r.y <= r.z <= n
  }
}
