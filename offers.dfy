/** Offer generation: `GenerateOffers` (MarketSystem.cs). */
module Offers {
  import opened LogicTypes
  import opened Goods
  import opened MultiMaps
  import opened Mathf

  /** An ask or a bid: the agent that made it, the units and the unit price. */
  datatype Offer = Offer(source: nat, units: int, cost: real)

  /** An agent's `Inventory` component: capacity and space in use. */
  datatype InventorySize = InventorySize(maxSize: int, occupied: int)

  /** What offer generation does with one good. */
  datatype Decision = AskFor(units: int, cost: real) | BidFor(bidUnits: int) | NoSpace

  /** Surplus is offered at the recorded price plus two percent. */
  const Markup: real := 1.02

  function AskPrice(recordedPrice: real): real
  {
    recordedPrice * Markup
  }

  /** Where the good's mean sits in its [minimum, maximum] band, as a fraction in [0, 1].
      An empty band divides by zero in the source: the infinity that results clamps to 1 above
      the band and to 0 below it; at 0/0 the NaN ends as a one-unit bid, as a fraction of 1 does. */
  function BandPosition(g: Good): (r: real)
    ensures 0.0 <= r <= 1.0
  {
    if g.maximum == g.minimum then (if g.mean < g.minimum then 0.0 else 1.0)
    else Clamp01((g.mean - g.minimum) / (g.maximum - g.minimum))
  }

  /** The buying preference, higher when the mean price is close to the minimum. */
  function Preference(g: Good): (r: real)
    ensures 0.0 <= r <= 1.0
  {
    1.0 - BandPosition(g)
  }

  /** Over the same band, a lower mean never lowers the preference; the preference is 1 at
      or below the minimum and 0 at or above the maximum. */
  lemma {:induction false} PreferenceFallsWithMean(g: Good, h: Good)
    requires g.minimum == h.minimum && g.maximum == h.maximum && g.minimum < g.maximum
    requires g.mean <= h.mean
    ensures Preference(h) <= Preference(g)
    ensures g.mean <= g.minimum ==> Preference(g) == 1.0
    ensures g.mean >= g.maximum ==> Preference(g) == 0.0
  {
    var w := g.maximum - g.minimum;
    var p, q := (g.mean - g.minimum) / w, (h.mean - g.minimum) / w;
    assert BandPosition(g) == Clamp01(p) && BandPosition(h) == Clamp01(q);
    DivMonotone(g.mean - g.minimum, h.mean - g.minimum, w);
    DivUnits(w);
    if g.mean <= g.minimum {
      DivMonotone(g.mean - g.minimum, 0.0, w);
    }
    if g.mean >= g.maximum {
      DivMonotone(w, g.mean - g.minimum, w);
    }
    ClampMonotone(p, q);
  }

  /** Dividing by a positive number keeps the order. */
  lemma {:induction false} DivMonotone(a: real, b: real, w: real)
    requires 0.0 < w && a <= b
    ensures a / w <= b / w
  {
    var x, y := a / w, b / w;
    assert x * w == a && y * w == b;
    if x > y {
      MulMonotoneReal(w, y, x);
    }
  }

  lemma {:induction false} DivUnits(w: real)
    requires 0.0 < w
    ensures 0.0 / w == 0.0 && w / w == 1.0
  {
  }

  /** The most units a bid may ask for: the shortage, or as many as fit in the free space. */
  function BidLimit(shortage: int, goodSize: int, spaceLeft: int): int
    requires goodSize <= spaceLeft
  {
    if shortage * goodSize <= spaceLeft then shortage
    else (spaceLeft as real / goodSize as real).Floor
  }

  /** The per-good decision of offer generation. */
  function Decide(c: InvContent, ideal: int, g: Good, size: InventorySize): Decision
  {
    if c.quantity > ideal then AskFor(c.quantity, AskPrice(c.recordedPrice))
    else
      var spaceLeft := size.maxSize - size.occupied;
      var goodSize := g.spaceOccupied;
      if goodSize > spaceLeft then NoSpace
      else
        BidFor(BidUnits(Preference(g), ideal - c.quantity, goodSize, spaceLeft))
  }

  /** The units a bid asks for: the preference's share of the shortage, rounded, at least one
      and at most the limit. */
  function BidUnits(preference: real, shortage: int, goodSize: int, spaceLeft: int): int
    requires goodSize <= spaceLeft
  {
    ClampInt(RoundToInt(preference * shortage as real), 1, BidLimit(shortage, goodSize, spaceLeft))
  }

  /** A surplus is offered whole: one ask for the entire quantity at the marked-up price. */
  lemma {:induction false} SurplusAsksWholeStock(c: InvContent, ideal: int, g: Good, size: InventorySize)
    requires c.quantity > ideal
    ensures Decide(c, ideal, g, size) == AskFor(c.quantity, c.recordedPrice * 1.02)
  {
  }

  /** Without a surplus, the good gets a bid exactly when one unit of it fits in the free space. */
  lemma {:induction false} ShortageBidsWhenSpace(c: InvContent, ideal: int, g: Good, size: InventorySize)
    requires c.quantity <= ideal
    ensures Decide(c, ideal, g, size).BidFor? <==> g.spaceOccupied <= size.maxSize - size.occupied
    ensures Decide(c, ideal, g, size).NoSpace? <==> g.spaceOccupied > size.maxSize - size.occupied
  {
  }

  /** The facts about `space / size` (as reals) that the limit relies on. */
  lemma {:induction false} QuotientFacts(space: int, size: int, shortage: int)
    requires 0 < size <= space < shortage * size
    ensures 1.0 <= space as real / size as real < shortage as real
    ensures (space as real / size as real) * size as real == space as real
  {
    var x := space as real / size as real;
    var g := size as real;
    assert x * g == space as real;
    assert (shortage * size) as real == shortage as real * g;
    if x >= shortage as real {
      MulMonotoneReal(g, shortage as real, x);
    }
    if x < 1.0 {
      MulMonotoneReal(g, x, 1.0);
    }
  }

  lemma {:induction false} MulMonotoneReal(a: real, b: real, c: real)
    requires 0.0 <= a && b <= c
    ensures b * a <= c * a
  {
  }

  /** When the shortage does not fit, the limit is the largest count that does, and it is
      below the shortage. */
  lemma {:induction false} BidLimitFits(shortage: int, goodSize: int, spaceLeft: int)
    requires goodSize <= spaceLeft && shortage >= 1
    ensures 1 <= BidLimit(shortage, goodSize, spaceLeft) <= shortage
    ensures goodSize > 0 ==> BidLimit(shortage, goodSize, spaceLeft) * goodSize <= spaceLeft
  {
    if shortage * goodSize > spaceLeft {
      assert goodSize > 0;
      var x := spaceLeft as real / goodSize as real;
      QuotientFacts(spaceLeft, goodSize, shortage);
      var l := x.Floor;
      assert 1 <= l < shortage;
      MulMonotoneReal(goodSize as real, l as real, x);
      assert (l * goodSize) as real == l as real * goodSize as real;
    }
  }

  /** A bid asks for at least one unit; when the shortage is at least one it asks for no more
      than the shortage, and (for a good that takes space) no more than fits. */
  lemma {:induction false} BidBounds(c: InvContent, ideal: int, g: Good, size: InventorySize)
    requires Decide(c, ideal, g, size).BidFor?
    ensures Decide(c, ideal, g, size).bidUnits >= 1
    ensures ideal - c.quantity >= 1 ==> Decide(c, ideal, g, size).bidUnits <= ideal - c.quantity
    ensures ideal - c.quantity >= 1 && g.spaceOccupied > 0 ==>
      Decide(c, ideal, g, size).bidUnits * g.spaceOccupied <= size.maxSize - size.occupied
  {
    assert c.quantity <= ideal && g.spaceOccupied <= size.maxSize - size.occupied;
    BidUnitsBounds(Preference(g), ideal - c.quantity, g.spaceOccupied, size.maxSize - size.occupied);
  }

  lemma {:induction false} BidUnitsBounds(preference: real, shortage: int, goodSize: int, spaceLeft: int)
    requires goodSize <= spaceLeft && shortage >= 0 && 0.0 <= preference <= 1.0
    ensures BidUnits(preference, shortage, goodSize, spaceLeft) >= 1
    ensures shortage >= 1 ==> BidUnits(preference, shortage, goodSize, spaceLeft) <= shortage
    ensures shortage >= 1 && goodSize > 0 ==>
      BidUnits(preference, shortage, goodSize, spaceLeft) * goodSize <= spaceLeft
  {
    var units := BidUnits(preference, shortage, goodSize, spaceLeft);
    var limit := BidLimit(shortage, goodSize, spaceLeft);
    if shortage >= 1 {
      BidLimitFits(shortage, goodSize, spaceLeft);
      assert 1 <= units <= limit;
      if goodSize > 0 {
        MulMonotoneInt(units, limit, goodSize);
      }
    } else {
      assert preference * shortage as real == 0.0;
      assert RoundToInt(0.0) == 0;
    }
  }

  lemma {:induction false} MulMonotoneInt(a: int, b: int, c: int)
    requires a <= b && 0 <= c
    ensures a * c <= b * c
  {
  }


  /** The ask this decision adds to the good's list of asks. */
  function AskOffers(entity: nat, d: Decision): seq<Offer>
  {
    if d.AskFor? then [Offer(entity, d.units, d.cost)] else []
  }

  /** The bid this decision adds to the good's list of bids; bids are priced 0. */
  function BidOffers(entity: nat, d: Decision): seq<Offer>
  {
    if d.BidFor? then [Offer(entity, d.bidUnits, 0.0)] else []
  }

  /** The decisions for every good of an inventory, in good order. */
  function Decisions(s: seq<InvContent>, ideals: seq<IdealQuantity>, size: InventorySize, goods: seq<Good>)
    : (ds: seq<Decision>)
    requires |ideals| >= |s| && |goods| >= |s|
    ensures |ds| == |s|
  {
    if s == [] then []
    else Decisions(s[..|s| - 1], ideals, size, goods) +
         [Decide(s[|s| - 1], ideals[|s| - 1].quantity, goods[|s| - 1], size)]
  }

  /** Good `g`'s decision is taken on its own cell, ideal and record. */
  lemma {:induction false} DecisionAt(s: seq<InvContent>, ideals: seq<IdealQuantity>, size: InventorySize,
                                      goods: seq<Good>, g: nat)
    requires |ideals| >= |s| && |goods| >= |s| && g < |s|
    ensures Decisions(s, ideals, size, goods)[g] == Decide(s[g], ideals[g].quantity, goods[g], size)
    decreases |s|
  {
    if g < |s| - 1 {
      DecisionAt(s[..|s| - 1], ideals, size, goods, g);
    }
  }

  /** The body of the offer loop for one good: add the ask or the bid the decision calls for. */
  method PlaceOffer(entity: nat, good: int, d: Decision,
                    tradeAsks: MultiMap<int, Offer>, tradeBids: MultiMap<int, Offer>)
    requires tradeAsks != tradeBids
    modifies tradeAsks, tradeBids
    ensures ValuesOf(tradeAsks.entries, good) == ValuesOf(old(tradeAsks.entries), good) + AskOffers(entity, d)
    ensures ValuesOf(tradeBids.entries, good) == ValuesOf(old(tradeBids.entries), good) + BidOffers(entity, d)
    ensures forall g :: g != good ==>
      ValuesOf(tradeAsks.entries, g) == ValuesOf(old(tradeAsks.entries), g) &&
      ValuesOf(tradeBids.entries, g) == ValuesOf(old(tradeBids.entries), g)
  {
    match d
    case AskFor(units, cost) =>
      tradeAsks.Add(good, Offer(entity, units, cost));
    case BidFor(units) =>
      tradeBids.Add(good, Offer(entity, units, 0.0));
    case NoSpace =>
  }

  /** After the offer loop has visited goods `0 .. n - 1`: each of them holds its old offers
      followed by its decision's ask or bid, and every other key is untouched. */
  ghost predicate Placed(asks: map<int, seq<Offer>>, bids: map<int, seq<Offer>>,
                         asks0: map<int, seq<Offer>>, bids0: map<int, seq<Offer>>,
                         entity: nat, ds: seq<Decision>, n: int)
    requires 0 <= n <= |ds|
  {
    (forall g :: 0 <= g < n ==> ValuesOf(asks, g) == ValuesOf(asks0, g) + AskOffers(entity, ds[g])) &&
    (forall g :: 0 <= g < n ==> ValuesOf(bids, g) == ValuesOf(bids0, g) + BidOffers(entity, ds[g])) &&
    (forall g :: (g < 0 || g >= n) ==> ValuesOf(asks, g) == ValuesOf(asks0, g) && ValuesOf(bids, g) == ValuesOf(bids0, g))
  }

  /** Placing good `n`'s decision extends `Placed` by one good. */
  lemma {:induction false} PlacedStep(asks1: map<int, seq<Offer>>, bids1: map<int, seq<Offer>>,
                   asks2: map<int, seq<Offer>>, bids2: map<int, seq<Offer>>,
                   asks0: map<int, seq<Offer>>, bids0: map<int, seq<Offer>>,
                   entity: nat, ds: seq<Decision>, n: int)
    requires 0 <= n < |ds| && Placed(asks1, bids1, asks0, bids0, entity, ds, n)
    requires ValuesOf(asks2, n) == ValuesOf(asks1, n) + AskOffers(entity, ds[n])
    requires ValuesOf(bids2, n) == ValuesOf(bids1, n) + BidOffers(entity, ds[n])
    requires forall g :: g != n ==> ValuesOf(asks2, g) == ValuesOf(asks1, g) && ValuesOf(bids2, g) == ValuesOf(bids1, g)
    ensures Placed(asks2, bids2, asks0, bids0, entity, ds, n + 1)
  {
    forall g | 0 <= g < n + 1
      ensures ValuesOf(asks2, g) == ValuesOf(asks0, g) + AskOffers(entity, ds[g])
      ensures ValuesOf(bids2, g) == ValuesOf(bids0, g) + BidOffers(entity, ds[g])
    {
      if g < n {
        assert ValuesOf(asks2, g) == ValuesOf(asks1, g) && ValuesOf(bids2, g) == ValuesOf(bids1, g);
      }
    }
  }

  /** `GenerateOffers` for one agent: one decision per good, appended to the good's asks or bids. */
  method GenerateOffers(entity: nat, inv: array<InvContent>, ideals: seq<IdealQuantity>,
                        size: InventorySize, goods: seq<Good>,
                        tradeAsks: MultiMap<int, Offer>, tradeBids: MultiMap<int, Offer>)
    requires |ideals| >= inv.Length && |goods| >= inv.Length && tradeAsks != tradeBids
    modifies tradeAsks, tradeBids
    ensures forall g :: 0 <= g < inv.Length ==>
      ValuesOf(tradeAsks.entries, g) == ValuesOf(old(tradeAsks.entries), g) +
        AskOffers(entity, Decisions(inv[..], ideals, size, goods)[g])
    ensures forall g :: 0 <= g < inv.Length ==>
      ValuesOf(tradeBids.entries, g) == ValuesOf(old(tradeBids.entries), g) +
        BidOffers(entity, Decisions(inv[..], ideals, size, goods)[g])
    ensures forall g :: (g < 0 || g >= inv.Length) ==>
      ValuesOf(tradeAsks.entries, g) == ValuesOf(old(tradeAsks.entries), g) &&
      ValuesOf(tradeBids.entries, g) == ValuesOf(old(tradeBids.entries), g)
  {
    ghost var asks0, bids0 := tradeAsks.entries, tradeBids.entries;
    var ds := Decisions(inv[..], ideals, size, goods);
    for good := 0 to inv.Length
      invariant Placed(tradeAsks.entries, tradeBids.entries, asks0, bids0, entity, ds, good)
    {
      ghost var asks1, bids1 := tradeAsks.entries, tradeBids.entries;
      PlaceOffer(entity, good, ds[good], tradeAsks, tradeBids);
      PlacedStep(asks1, bids1, tradeAsks.entries, tradeBids.entries, asks0, bids0, entity, ds, good);
    }
  }
}
