/** The price charts (History.cs): per good, the series of prices, asks, bids, trades and
    profits shown by the user interface. The static class is one object here. */
module Charts {

  /** A `List<float>`. */
  class FloatList {
    var items: seq<real>

    constructor ()
      ensures items == []
    {
      items := [];
    }

    method Add(v: real)
      modifies this
      ensures items == old(items) + [v]
    {
      items := items + [v];
    }
  }

  /** Every slot of `a` holds a list (the array starts out full of nulls). */
  predicate Filled(a: array<FloatList?>)
    reads a
  {
    forall i :: 0 <= i < a.Length ==> a[i] != null
  }

  /** No two slots of `a` hold the same list. */
  predicate Unshared(a: array<FloatList?>)
    reads a
  {
    forall i, j :: 0 <= i < a.Length && 0 <= j < a.Length && i != j ==> a[i] != a[j]
  }

  /** No slot of `a` holds a list that a slot of `b` holds. */
  predicate Disjoint(a: array<FloatList?>, b: array<FloatList?>)
    reads a, b
  {
    forall i, j :: 0 <= i < a.Length && 0 <= j < b.Length ==> a[i] != b[j]
  }

  /** An array of `n` fresh, empty price lists, filled one slot at a time. */
  method NewLists(n: nat) returns (a: array<FloatList?>)
    ensures fresh(a) && a.Length == n && Filled(a) && Unshared(a)
    ensures forall i :: 0 <= i < n ==> fresh(a[i]) && a[i].items == []
  {
    a := new FloatList?[n](_ => null);
    var i := 0;
    while i < n
      invariant 0 <= i <= n
      invariant forall j :: 0 <= j < i ==> a[j] != null && fresh(a[j]) && a[j].items == []
      invariant forall j, k :: 0 <= j < i && 0 <= k < i && j != k ==> a[j] != a[k]
    {
      a[i] := new FloatList();
      i := i + 1;
    }
  }

  /** Five fresh series of `n` fresh empty lists, no list shared between two slots. */
  method FiveSeries(n: nat) returns (p: array<FloatList?>, a: array<FloatList?>, b: array<FloatList?>,
                                     t: array<FloatList?>, r: array<FloatList?>)
    ensures fresh(p) && fresh(a) && fresh(b) && fresh(t) && fresh(r)
    ensures p.Length == n && a.Length == n && b.Length == n && t.Length == n && r.Length == n
    ensures Filled(p) && Filled(a) && Filled(b) && Filled(t) && Filled(r)
    ensures Unshared(p) && Unshared(a) && Unshared(b) && Unshared(t) && Unshared(r)
    ensures Disjoint(p, a) && Disjoint(p, b) && Disjoint(p, t) && Disjoint(p, r)
    ensures Disjoint(a, b) && Disjoint(a, t) && Disjoint(a, r)
    ensures Disjoint(b, t) && Disjoint(b, r) && Disjoint(t, r)
    ensures forall i :: 0 <= i < n ==>
      fresh(p[i]) && fresh(a[i]) && fresh(b[i]) && fresh(t[i]) && fresh(r[i])
    ensures forall i :: 0 <= i < n ==>
      p[i].items == [] && a[i].items == [] && b[i].items == [] && t[i].items == [] && r[i].items == []
  {
    p := NewLists(n);
    a := NewLists(n);
    assert Disjoint(p, a);
    b := NewLists(n);
    assert Disjoint(p, b) && Disjoint(a, b);
    t := NewLists(n);
    assert Disjoint(p, t) && Disjoint(a, t) && Disjoint(b, t);
    r := NewLists(n);
    assert Disjoint(p, r) && Disjoint(a, r) && Disjoint(b, r) && Disjoint(t, r);
  }

  /** The chart store: one series per good for each of prices, asks, bids, trades and profits.
      The arrays are null until `AssignLogs` runs, as static fields are. */
  class History {
    var prices: array?<FloatList?>
    var asks: array?<FloatList?>
    var bids: array?<FloatList?>
    var trades: array?<FloatList?>
    var profits: array?<FloatList?>
    var goodsCount: int

    constructor ()
      ensures prices == null && asks == null && bids == null && trades == null && profits == null
      ensures goodsCount == 0
    {
      prices, asks, bids, trades, profits := null, null, null, null, null;
      goodsCount := 0;
    }

    /** Every series has one list per good, and no list is shared by two slots. */
    predicate Logs(n: int)
      reads this, prices, asks, bids, trades, profits
    {
      prices != null && asks != null && bids != null && trades != null && profits != null &&
      prices.Length == n && asks.Length == n && bids.Length == n && trades.Length == n && profits.Length == n &&
      Filled(prices) && Filled(asks) && Filled(bids) && Filled(trades) && Filled(profits) &&
      Unshared(prices) && Unshared(asks) && Unshared(bids) &&
      Unshared(trades) && Unshared(profits) &&
      Disjoint(prices, asks) && Disjoint(prices, bids) && Disjoint(prices, trades) && Disjoint(prices, profits) &&
      Disjoint(asks, bids) && Disjoint(asks, trades) && Disjoint(asks, profits) &&
      Disjoint(bids, trades) && Disjoint(bids, profits) && Disjoint(trades, profits)
    }

    /** `AssignLogs(goodsNum)`: every series is replaced by `goodsNum` fresh empty lists, so
        whatever the charts held before is gone. */
    method AssignLogs(goodsNum: nat)
      modifies this
      ensures goodsCount == goodsNum && Logs(goodsNum)
      ensures fresh(prices) && fresh(asks) && fresh(bids) && fresh(trades) && fresh(profits)
      ensures forall i :: 0 <= i < goodsNum ==>
        fresh(prices[i]) && fresh(asks[i]) && fresh(bids[i]) && fresh(trades[i]) && fresh(profits[i])
      ensures forall i :: 0 <= i < goodsNum ==>
        prices[i].items == [] && asks[i].items == [] && bids[i].items == [] &&
        trades[i].items == [] && profits[i].items == []
    {
      goodsCount := goodsNum;
      var p, a, b, t, r := FiveSeries(goodsNum);
      prices, asks, bids, trades, profits := p, a, b, t, r;
    }
  }
}
