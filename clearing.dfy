/** Clearing one good: `ResolveOffers` (MarketSystem.cs). */
module Clearing {
  import opened LogicTypes
  import opened Offers
  import opened MultiMaps
  import opened Mathf

  // ---------------------------------------------------------------------------------------
  // Sorting the asks

  /** Costs never increase along the sequence: the order the source's comparer produces. */
  predicate SortedByCostDescending(s: seq<Offer>)
  {
    forall i, j :: 0 <= i < j < |s| ==> s[i].cost >= s[j].cost
  }

  /** Place `o` before the first offer that is strictly cheaper. */
  function Insert(o: Offer, s: seq<Offer>): (r: seq<Offer>)
    ensures |r| == |s| + 1
  {
    if s == [] || o.cost >= s[0].cost then [o] + s else [s[0]] + Insert(o, s[1..])
  }

  /** Inserting adds exactly `o`. */
  lemma {:induction false} InsertPermutes(o: Offer, s: seq<Offer>)
    ensures multiset(Insert(o, s)) == multiset(s) + multiset{o}
  {
    if s != [] && o.cost < s[0].cost {
      InsertPermutes(o, s[1..]);
      assert s == [s[0]] + s[1..];
    }
  }

  /** Inserting into an ordered sequence keeps it ordered. */
  lemma {:induction false} InsertKeepsOrder(o: Offer, s: seq<Offer>)
    requires SortedByCostDescending(s)
    ensures SortedByCostDescending(Insert(o, s))
  {
    if s != [] && o.cost < s[0].cost {
      InsertKeepsOrder(o, s[1..]);
      InsertPermutes(o, s[1..]);
      assert s == [s[0]] + s[1..];
      var r := Insert(o, s[1..]);
      forall i | 0 <= i < |r| ensures r[i].cost <= s[0].cost {
        assert r[i] in multiset(r);
        if r[i] != o {
          assert r[i] in multiset(s[1..]);
        }
      }
    }
  }

  /** The sort of `ResolveOffers`: asks ordered by cost, most expensive first. */
  function SortByCostDescending(s: seq<Offer>): seq<Offer>
  {
    if s == [] then [] else Insert(s[0], SortByCostDescending(s[1..]))
  }

  /** The sorted asks are ordered by descending cost and are a permutation of the input. */
  lemma {:induction false} SortIsPermutation(s: seq<Offer>)
    ensures SortedByCostDescending(SortByCostDescending(s))
    ensures multiset(SortByCostDescending(s)) == multiset(s)
  {
    if s != [] {
      SortIsPermutation(s[1..]);
      InsertKeepsOrder(s[0], SortByCostDescending(s[1..]));
      InsertPermutes(s[0], SortByCostDescending(s[1..]));
      assert s == [s[0]] + s[1..];
    }
  }

  // ---------------------------------------------------------------------------------------
  // Matching

  /** One entry of the money-delta map: an amount for an agent. */
  datatype MoneyDelta = MoneyDelta(agent: nat, amount: real)

  /** The state of the clearing loop: remaining asks and bids, the good's column across all
      agents' inventories, and the money deltas recorded so far. */
  datatype Matching = Matching(asks: seq<Offer>, bids: seq<Offer>, column: seq<InvContent>,
                               deltas: seq<MoneyDelta>)

  predicate SourcesIn(offers: seq<Offer>, n: int)
  {
    forall i :: 0 <= i < |offers| ==> offers[i].source < n
  }

  predicate ColumnNonNegative(col: seq<InvContent>)
  {
    forall k :: 0 <= k < |col| ==> col[k].quantity >= 0
  }

  /** Every recorded money change names an agent below `n`. */
  predicate DeltasIn(ds: seq<MoneyDelta>, n: int)
  {
    forall i :: 0 <= i < |ds| ==> ds[i].agent < n
  }

  predicate Ready(m: Matching)
  {
    SourcesIn(m.asks, |m.column|) && SourcesIn(m.bids, |m.column|) && ColumnNonNegative(m.column) &&
    DeltasIn(m.deltas, |m.column|)
  }

  function Min(a: int, b: int): int
  {
    if a < b then a else b
  }

  /** The buyer's cell after receiving `t` units at `price`: the recorded price becomes the
      quantity-weighted average of the old price and the clearing price. */
  function Receive(c: InvContent, t: int, price: real): InvContent
    requires c.quantity >= 0 && t > 0
  {
    InvContent(c.quantity + t,
               (c.quantity as real * c.recordedPrice + t as real * price) / (c.quantity + t) as real)
  }

  /** The seller's cell after giving up `t` units, clamped to [0, quantity]. */
  function Give(c: InvContent, t: int): InvContent
  {
    c.(quantity := ClampInt(c.quantity - t, 0, c.quantity))
  }

  /** What an offer with `units` left becomes in the queue: dropped once exhausted. */
  function Remaining(o: Offer, rest: seq<Offer>): seq<Offer>
  {
    if o.units <= 0 then rest else [o] + rest
  }

  /** The two money deltas of a trade of `t` units at `price`: +price*t for the seller and
      -price*t for the buyer. */
  function TradeDeltas(seller: nat, buyer: nat, price: real, t: int): seq<MoneyDelta>
  {
    [MoneyDelta(seller, price * t as real), MoneyDelta(buyer, -price * t as real)]
  }

  /** The two deltas of a trade cancel. */
  lemma {:induction false} TradeDeltasCancel(seller: nat, buyer: nat, price: real, t: int)
    ensures Total(TradeDeltas(seller, buyer, price, t)) == 0.0
  {
    var d := TradeDeltas(seller, buyer, price, t);
    assert d[..1] == [d[0]];
    assert [d[0]][..0] == [];
    assert Total(d[..1]) == price * t as real;
    assert Total(d) == Total(d[..1]) + d[1].amount;
  }

  /** One pass of the clearing loop, with the head offers written back and exhausted offers
      removed. */
  function Trade(m: Matching): (r: Matching)
    requires Ready(m) && m.asks != [] && m.bids != []
    ensures Ready(r) && |r.column| == |m.column|
    ensures |r.asks| + |r.bids| < |m.asks| + |m.bids|
  {
    var buyer := m.bids[0];
    var seller := m.asks[0];
    var t := Min(buyer.units, seller.units);
    var price := seller.cost;
    if t > 0 then
      var col1 := m.column[seller.source := Give(m.column[seller.source], t)];
      var col2 := col1[buyer.source := Receive(col1[buyer.source], t, price)];
      Matching(Remaining(seller.(units := seller.units - t), m.asks[1..]),
               Remaining(buyer.(units := buyer.units - t), m.bids[1..]),
               col2,
               m.deltas + TradeDeltas(seller.source, buyer.source, price, t))
    else
      Matching(Remaining(seller, m.asks[1..]), Remaining(buyer, m.bids[1..]), m.column, m.deltas)
  }

  /** The clearing loop run to the end: until the asks or the bids run out. */
  function Clear(m: Matching): (r: Matching)
    requires Ready(m)
    ensures Ready(r) && |r.column| == |m.column| && (r.asks == [] || r.bids == [])
    decreases |m.asks| + |m.bids|
  {
    if m.asks == [] || m.bids == [] then m else Clear(Trade(m))
  }

  /** The total of a list of money deltas. */
  function Total(ds: seq<MoneyDelta>): real
  {
    if ds == [] then 0.0 else Total(ds[..|ds| - 1]) + ds[|ds| - 1].amount
  }

  lemma {:induction false} TotalAppend(a: seq<MoneyDelta>, b: seq<MoneyDelta>)
    ensures Total(a + b) == Total(a) + Total(b)
    decreases |b|
  {
    if b == [] {
      assert a + b == a;
    } else {
      TotalAppend(a, b[..|b| - 1]);
      assert (a + b)[..|a + b| - 1] == a + b[..|b| - 1];
      assert (a + b)[|a + b| - 1] == b[|b| - 1];
    }
  }

  /** One trade records the two deltas of `TradeDeltas` (+price*t for the seller, -price*t for
      the buyer), `t` being the smaller unit count and the price the ask's cost; the two cancel. With no units to trade,
      nothing is recorded and no cell changes. */
  lemma {:induction false} TradeMoney(m: Matching)
    requires Ready(m) && m.asks != [] && m.bids != []
    ensures Min(m.bids[0].units, m.asks[0].units) > 0 ==>
      Trade(m).deltas == m.deltas + TradeDeltas(m.asks[0].source, m.bids[0].source, m.asks[0].cost,
                                                Min(m.bids[0].units, m.asks[0].units))
    ensures Min(m.bids[0].units, m.asks[0].units) <= 0 ==>
      Trade(m).deltas == m.deltas && Trade(m).column == m.column
    ensures Total(Trade(m).deltas) == Total(m.deltas)
  {
    var t := Min(m.bids[0].units, m.asks[0].units);
    if t > 0 {
      var d := TradeDeltas(m.asks[0].source, m.bids[0].source, m.asks[0].cost, t);
      assert Trade(m).deltas == m.deltas + d;
      TotalAppend(m.deltas, d);
      TradeDeltasCancel(m.asks[0].source, m.bids[0].source, m.asks[0].cost, t);
    } else {
      assert Trade(m).deltas == m.deltas;
    }
  }

  /** In a trade of `t > 0` units between two different agents, the seller keeps between 0 and
      what it had (q - t, or 0 when it held less), its recorded price stays, the buyer gains
      exactly `t`, and the buyer's new recorded price lies between its old one and the
      clearing price. */
  lemma {:induction false} TradeCells(m: Matching)
    requires Ready(m) && m.asks != [] && m.bids != []
    requires Min(m.bids[0].units, m.asks[0].units) > 0 && m.asks[0].source != m.bids[0].source
    ensures var seller, buyer := m.asks[0].source, m.bids[0].source;
      var t := Min(m.bids[0].units, m.asks[0].units);
      var c := Trade(m).column;
      0 <= c[seller].quantity <= m.column[seller].quantity &&
      c[seller].quantity == (if m.column[seller].quantity >= t then m.column[seller].quantity - t else 0) &&
      c[seller].recordedPrice == m.column[seller].recordedPrice &&
      c[buyer].quantity == m.column[buyer].quantity + t &&
      Between(c[buyer].recordedPrice, m.column[buyer].recordedPrice, m.asks[0].cost)
  {
    var t := Min(m.bids[0].units, m.asks[0].units);
    ReceiveBetween(m.column[m.bids[0].source], t, m.asks[0].cost);
  }

  /** A trade touches only the cells of the two agents at the heads of the queues. */
  lemma {:induction false} TradeFrame(m: Matching)
    requires Ready(m) && m.asks != [] && m.bids != []
    ensures forall k :: 0 <= k < |m.column| && k != m.asks[0].source && k != m.bids[0].source ==>
      Trade(m).column[k] == m.column[k]
  {
  }

  /** `v` lies between `a` and `b`, whichever is larger. */
  predicate Between(v: real, a: real, b: real)
  {
    (a <= v <= b) || (b <= v <= a)
  }

  lemma {:induction false} ReceiveBetween(c: InvContent, t: int, price: real)
    requires c.quantity >= 0 && t > 0
    ensures Receive(c, t, price).quantity == c.quantity + t
    ensures Between(Receive(c, t, price).recordedPrice, c.recordedPrice, price)
  {
    var q := c.quantity as real;
    var w := t as real;
    var p0 := c.recordedPrice;
    var v := (q * p0 + w * price) / (q + w);
    assert v * (q + w) == q * p0 + w * price;
    assert v - p0 == w * (price - p0) / (q + w);
    assert price - v == q * (price - p0) / (q + w);
    if p0 <= price {
      assert w * (price - p0) >= 0.0;
      assert q * (price - p0) >= 0.0;
    } else {
      assert w * (price - p0) <= 0.0;
      assert q * (price - p0) <= 0.0;
    }
  }

  /** Money conservation: clearing records deltas that sum to zero. */
  lemma {:induction false} ClearConservesMoney(m: Matching)
    requires Ready(m)
    ensures Total(Clear(m).deltas) == Total(m.deltas)
    decreases |m.asks| + |m.bids|
  {
    if m.asks != [] && m.bids != [] {
      TradeMoney(m);
      ClearConservesMoney(Trade(m));
    }
  }

  /** Clearing keeps every quantity of the column at least zero (it is part of `Ready`) and
      touches only agents that made an offer. */
  lemma {:induction false} ClearTouchesOnlyTraders(m: Matching, k: nat)
    requires Ready(m) && k < |m.column|
    requires forall i :: 0 <= i < |m.asks| ==> m.asks[i].source != k
    requires forall i :: 0 <= i < |m.bids| ==> m.bids[i].source != k
    ensures Clear(m).column[k] == m.column[k]
    ensures Clear(m).column[k].quantity >= 0
    decreases |m.asks| + |m.bids|
  {
    if m.asks != [] && m.bids != [] {
      TradeFrame(m);
      var r := Trade(m);
      assert forall i :: 0 <= i < |r.asks| ==> r.asks[i].source != k by {
        forall i | 0 <= i < |r.asks| ensures r.asks[i].source != k {
          if |r.asks| == |m.asks| {
            assert r.asks[i].source == m.asks[i].source;
          } else {
            assert r.asks[i] == m.asks[i + 1];
          }
        }
      }
      assert forall i :: 0 <= i < |r.bids| ==> r.bids[i].source != k by {
        forall i | 0 <= i < |r.bids| ensures r.bids[i].source != k {
          if |r.bids| == |m.bids| {
            assert r.bids[i].source == m.bids[i].source;
          } else {
            assert r.bids[i] == m.bids[i + 1];
          }
        }
      }
      ClearTouchesOnlyTraders(r, k);
    }
  }

  /** The agents an offer list names. */
  ghost function Sources(s: seq<Offer>): set<nat>
  {
    set o | o in s :: o.source
  }

  /** Every pass of the loop from `m` on trades between two different agents: the head ask
      and the head bid never come from the same agent. */
  ghost predicate DistinctTraders(m: Matching)
    requires Ready(m)
    decreases |m.asks| + |m.bids|
  {
    m.asks == [] || m.bids == [] || (m.asks[0].source != m.bids[0].source && DistinctTraders(Trade(m)))
  }

  /** A pass only shrinks or drops the head offers, so every agent left on a side was on it. */
  lemma {:induction false} TradeKeepsSources(m: Matching)
    requires Ready(m) && m.asks != [] && m.bids != []
    ensures Sources(Trade(m).asks) <= Sources(m.asks) && Sources(Trade(m).bids) <= Sources(m.bids)
  {
    RemainingSources(m.asks[0], m.asks[1..], m.asks);
    RemainingSources(m.bids[0], m.bids[1..], m.bids);
    var t := Min(m.bids[0].units, m.asks[0].units);
    RemainingSources(m.asks[0].(units := m.asks[0].units - t), m.asks[1..], m.asks);
    RemainingSources(m.bids[0].(units := m.bids[0].units - t), m.bids[1..], m.bids);
  }

  lemma {:induction false} RemainingSources(o: Offer, rest: seq<Offer>, s: seq<Offer>)
    requires s != [] && o.source == s[0].source && rest == s[1..]
    ensures Sources(Remaining(o, rest)) <= Sources(s)
  {
    forall x | x in Sources(Remaining(o, rest)) ensures x in Sources(s) {
      var y :| y in Remaining(o, rest) && y.source == x;
      if y != o {
        assert y in rest;
        var i :| 0 <= i < |rest| && rest[i] == y;
        assert s[i + 1] == y;
      } else {
        assert s[0] in s;
      }
    }
  }

  /** When no agent is on both sides, no pass of the loop trades an agent with itself, so the
      distinct-agent premise of `TradeCells` holds at every pass. */
  lemma {:induction false} ClearTradesApart(m: Matching)
    requires Ready(m) && Sources(m.asks) !! Sources(m.bids)
    ensures DistinctTraders(m)
    decreases |m.asks| + |m.bids|
  {
    if m.asks != [] && m.bids != [] {
      assert m.asks[0] in m.asks && m.bids[0] in m.bids;
      assert m.asks[0].source in Sources(m.asks) && m.bids[0].source in Sources(m.bids);
      TradeKeepsSources(m);
      ClearTradesApart(Trade(m));
    }
  }

  /** Clearing one good whose asks and bids come from different agents trades only between
      different agents: sorting keeps the agents of the asks. */
  lemma {:induction false} ResolveTradesApart(asks: seq<Offer>, bids: seq<Offer>, col: seq<InvContent>)
    requires SourcesIn(asks, |col|) && SourcesIn(bids, |col|) && ColumnNonNegative(col)
    requires forall i, j :: 0 <= i < |asks| && 0 <= j < |bids| ==> asks[i].source != bids[j].source
    ensures SourcesIn(SortByCostDescending(asks), |col|)
    ensures DistinctTraders(Matching(SortByCostDescending(asks), bids, col, []))
  {
    SortKeepsSources(asks, |col|);
    SortIsPermutation(asks);
    var sorted := SortByCostDescending(asks);
    forall x | x in Sources(sorted) ensures x !in Sources(bids) {
      var a :| a in sorted && a.source == x;
      assert a in multiset(asks);
      var i :| 0 <= i < |asks| && asks[i] == a;
      forall b | b in bids ensures b.source != x {
        var j :| 0 <= j < |bids| && bids[j] == b;
      }
    }
    ClearTradesApart(Matching(sorted, bids, col, []));
  }

  // ---------------------------------------------------------------------------------------
  // The loop as written

  /** One pass of the clearing loop exactly as the source writes it: `buyer` and `seller`
      are copies of the head offers, so decrementing their units changes neither queue; the
      seller's cell is written back and the buyer's is computed but never stored; the two
      money deltas are recorded whenever something is traded. */
  function TradeAsWritten(m: Matching): (r: Matching)
    requires Ready(m) && m.asks != [] && m.bids != []
    ensures Ready(r) && r.asks == m.asks && r.bids == m.bids && |r.column| == |m.column|
    ensures forall k :: 0 <= k < |m.column| && k != m.asks[0].source ==> r.column[k] == m.column[k]
  {
    var buyer := m.bids[0];
    var seller := m.asks[0];
    var t := Min(buyer.units, seller.units);
    var price := seller.cost;
    if t > 0 then
      Matching(m.asks, m.bids, m.column[seller.source := Give(m.column[seller.source], t)],
               m.deltas + TradeDeltas(seller.source, buyer.source, price, t))
    else m
  }

  /** `k` passes of the loop as written: the queues are those it started with, so the loop
      condition still holds and the loop never ends. */
  function PassesAsWritten(m: Matching, k: nat): (r: Matching)
    requires Ready(m) && m.asks != [] && m.bids != []
    ensures Ready(r) && r.asks == m.asks && r.bids == m.bids && r.asks != [] && r.bids != []
    ensures |r.column| == |m.column|
    ensures m.bids[0].source != m.asks[0].source ==> r.column[m.bids[0].source] == m.column[m.bids[0].source]
    decreases k
  {
    if k == 0 then m else PassesAsWritten(TradeAsWritten(m), k - 1)
  }

  /** A seller with one unit and a buyer wanting one: after two passes of the loop as written
      the seller has been paid twice for its single unit and the buyer has received nothing,
      while the corrected loop trades the unit once, delivers it to the buyer and stops. */
  lemma {:induction false} AsWrittenPaysTwiceForOneUnit()
    ensures var m := Matching([Offer(0, 1, 2.0)], [Offer(1, 1, 3.0)], [InvContent(1, 1.0), InvContent(0, 1.0)], []);
      PassesAsWritten(m, 2).deltas ==
        [MoneyDelta(0, 2.0), MoneyDelta(1, -2.0), MoneyDelta(0, 2.0), MoneyDelta(1, -2.0)] &&
      PassesAsWritten(m, 2).column[1] == InvContent(0, 1.0) &&
      Clear(m).deltas == [MoneyDelta(0, 2.0), MoneyDelta(1, -2.0)] &&
      Clear(m).column == [InvContent(0, 1.0), InvContent(1, 2.0)]
  {
    var m := Matching([Offer(0, 1, 2.0)], [Offer(1, 1, 3.0)], [InvContent(1, 1.0), InvContent(0, 1.0)], []);
    var once := TradeAsWritten(m);
    assert once.deltas == [MoneyDelta(0, 2.0), MoneyDelta(1, -2.0)];
    assert once.column == [InvContent(0, 1.0), InvContent(0, 1.0)];
    var twice := TradeAsWritten(once);
    assert PassesAsWritten(m, 2) == PassesAsWritten(once, 1) == PassesAsWritten(twice, 0);
    var r := Trade(m);
    assert r.asks == [] && r.bids == [];
    assert r.column == [InvContent(0, 1.0), InvContent(1, 2.0)];
  }

  /** Sorting keeps the offers, so it keeps their sources in range. */
  lemma {:induction false} SortKeepsSources(s: seq<Offer>, n: int)
    requires SourcesIn(s, n)
    ensures SourcesIn(SortByCostDescending(s), n)
  {
    var t := SortByCostDescending(s);
    SortIsPermutation(s);
    forall i | 0 <= i < |t| ensures t[i].source < n {
      assert t[i] in multiset(t);
      assert t[i] in s;
    }
  }

  // ---------------------------------------------------------------------------------------
  // The clearing method

  /** The delta map after adding `ds` in order. */
  function Record(m: map<nat, seq<real>>, ds: seq<MoneyDelta>): map<nat, seq<real>>
    decreases |ds|
  {
    if ds == [] then m
    else
      var before := Record(m, ds[..|ds| - 1]);
      var d := ds[|ds| - 1];
      before[d.agent := ValuesOf(before, d.agent) + [d.amount]]
  }

  /** Every agent's inventory holds slot `good`, and no two agents share a buffer. */
  predicate InventoriesHold(invs: seq<array<InvContent>>, good: nat)
  {
    (forall k :: 0 <= k < |invs| ==> good < invs[k].Length) &&
    (forall i, j :: 0 <= i < |invs| && 0 <= j < |invs| && i != j ==> invs[i] != invs[j])
  }

  /** The column of `good`: every agent's slot for it, indexed by agent. */
  function Column(invs: seq<array<InvContent>>, good: nat): (col: seq<InvContent>)
    requires InventoriesHold(invs, good)
    reads set k | 0 <= k < |invs| :: invs[k]
    ensures |col| == |invs| && forall k :: 0 <= k < |invs| ==> col[k] == invs[k][good]
  {
    seq(|invs|, k requires 0 <= k < |invs| && good < invs[k].Length reads invs => invs[k][good])
  }

  /** What clearing one good yields: the asks sorted by descending cost, then matched against
      the bids in arrival order over the good's column. */
  function Resolve(asks: seq<Offer>, bids: seq<Offer>, col: seq<InvContent>): (r: Matching)
    requires SourcesIn(asks, |col|) && SourcesIn(bids, |col|) && ColumnNonNegative(col)
    ensures |r.column| == |col| && ColumnNonNegative(r.column) && (r.asks == [] || r.bids == [])
    ensures DeltasIn(r.deltas, |col|)
  {
    SortKeepsSources(asks, |col|);
    Clear(Matching(SortByCostDescending(asks), bids, col, []))
  }

  /** Store `c` as agent `who`'s cell of good `index`. */
  method StoreCell(index: nat, invs: seq<array<InvContent>>, who: nat, c: InvContent, ghost col: seq<InvContent>)
    returns (ghost col': seq<InvContent>)
    requires InventoriesHold(invs, index) && who < |invs|
    requires |col| == |invs| && forall k :: 0 <= k < |invs| ==> invs[k][index] == col[k]
    modifies invs[who]
    ensures col' == col[who := c]
    ensures forall k :: 0 <= k < |invs| ==> invs[k][index] == col'[k]
    ensures forall k, h :: 0 <= k < |invs| && 0 <= h < invs[k].Length && h != index ==> invs[k][h] == old(invs[k][h])
  {
    invs[who][index] := c;
    col' := col[who := c];
  }

  /** Record the two money changes of a trade in `deltaMoney`. */
  method RecordTrade(deltaMoney: MultiMap<nat, real>, seller: nat, buyer: nat, price: real, t: int,
                     ghost m0: map<nat, seq<real>>, ghost ds: seq<MoneyDelta>)
    returns (ghost ds': seq<MoneyDelta>)
    requires deltaMoney.entries == Record(m0, ds)
    modifies deltaMoney
    ensures ds' == ds + TradeDeltas(seller, buyer, price, t)
    ensures deltaMoney.entries == Record(m0, ds')
  {
    deltaMoney.Add(seller, price * t as real);
    deltaMoney.Add(buyer, -price * t as real);
    ghost var d := TradeDeltas(seller, buyer, price, t);
    assert (ds + d)[..|ds| + 1] == ds + [d[0]] && (ds + [d[0]])[..|ds|] == ds;
    ds' := ds + d;
  }

  /** One pass of the clearing loop on the heap: the head offers are matched, both inventory
      cells of the good are stored and the two money changes are recorded. */
  method TradeStep(index: nat, invs: seq<array<InvContent>>, asks: seq<Offer>, bids: seq<Offer>,
                   ghost col: seq<InvContent>, ghost ds: seq<MoneyDelta>, ghost m0: map<nat, seq<real>>,
                   deltaMoney: MultiMap<nat, real>)
    returns (asks': seq<Offer>, bids': seq<Offer>, ghost col': seq<InvContent>, ghost ds': seq<MoneyDelta>)
    requires InventoriesHold(invs, index)
    requires Ready(Matching(asks, bids, col, ds)) && asks != [] && bids != []
    requires |col| == |invs| && forall k :: 0 <= k < |invs| ==> invs[k][index] == col[k]
    requires deltaMoney.entries == Record(m0, ds)
    modifies set k | 0 <= k < |invs| :: invs[k]
    modifies deltaMoney
    ensures Matching(asks', bids', col', ds') == Trade(Matching(asks, bids, col, ds))
    ensures forall k :: 0 <= k < |invs| ==> invs[k][index] == col'[k]
    ensures forall k, h :: 0 <= k < |invs| && 0 <= h < invs[k].Length && h != index ==>
      invs[k][h] == old(invs[k][h])
    ensures deltaMoney.entries == Record(m0, ds')
  {
    ghost var r := Trade(Matching(asks, bids, col, ds));
    var buyer := bids[0];
    var seller := asks[0];
    var quantityTraded := Min(buyer.units, seller.units);
    var clearingPrice := seller.cost;
    col', ds' := col, ds;
    if quantityTraded > 0 {
      seller := seller.(units := seller.units - quantityTraded);
      buyer := buyer.(units := buyer.units - quantityTraded);

      var placeholder := invs[seller.source][index];
      col' := StoreCell(index, invs, seller.source, Give(placeholder, quantityTraded), col');
      placeholder := invs[buyer.source][index];
      col' := StoreCell(index, invs, buyer.source, Receive(placeholder, quantityTraded, clearingPrice), col');
      ds' := RecordTrade(deltaMoney, seller.source, buyer.source, clearingPrice, quantityTraded, m0, ds);
    }
    assert col' == r.column && ds' == r.deltas;
    bids' := if buyer.units <= 0 then bids[1..] else [buyer] + bids[1..];
    asks' := if seller.units <= 0 then asks[1..] else [seller] + asks[1..];
    assert asks' == r.asks && bids' == r.bids;
  }

  /** `ResolveOffers(index)`: clear the asks and bids of one good. The asks are sorted by
      descending cost, as the comparer is written; each pass writes back the head offers, drops
      the exhausted ones and stores both inventory cells. */
  method ResolveOffers(index: nat, invs: seq<array<InvContent>>, tradeAsks: MultiMap<int, Offer>,
                       tradeBids: MultiMap<int, Offer>, deltaMoney: MultiMap<nat, real>)
    requires InventoriesHold(invs, index)
    requires SourcesIn(ValuesOf(tradeAsks.entries, index), |invs|)
    requires SourcesIn(ValuesOf(tradeBids.entries, index), |invs|)
    requires ColumnNonNegative(Column(invs, index))
    modifies set k | 0 <= k < |invs| :: invs[k]
    modifies deltaMoney
    ensures var r := Resolve(old(ValuesOf(tradeAsks.entries, index)), old(ValuesOf(tradeBids.entries, index)),
                             old(Column(invs, index)));
      Column(invs, index) == r.column && deltaMoney.entries == Record(old(deltaMoney.entries), r.deltas)
    ensures forall k, h :: 0 <= k < |invs| && 0 <= h < invs[k].Length && h != index ==>
      invs[k][h] == old(invs[k][h])
  {
    ghost var col := Column(invs, index);
    ghost var ds: seq<MoneyDelta> := [];
    ghost var m0 := deltaMoney.entries;
    var currentAsks := ValuesOf(tradeAsks.entries, index);
    var currentBids := ValuesOf(tradeBids.entries, index);
    SortKeepsSources(currentAsks, |invs|);
    ghost var start := Matching(SortByCostDescending(currentAsks), currentBids, col, []);
    if currentAsks == [] {
      return;
    }
    if currentBids == [] {
      return;
    }
    currentAsks := SortByCostDescending(currentAsks);

    while currentBids != [] && currentAsks != []
      invariant Ready(Matching(currentAsks, currentBids, col, ds))
      invariant Clear(Matching(currentAsks, currentBids, col, ds)) == Clear(start)
      invariant |col| == |invs| && forall k :: 0 <= k < |invs| ==> invs[k][index] == col[k]
      invariant forall k, h :: 0 <= k < |invs| && 0 <= h < invs[k].Length && h != index ==>
        invs[k][h] == old(invs[k][h])
      invariant deltaMoney.entries == Record(m0, ds)
      decreases |currentAsks| + |currentBids|
    {
      currentAsks, currentBids, col, ds := TradeStep(index, invs, currentAsks, currentBids, col, ds, m0, deltaMoney);
    }
  }
}
