/** Settlement (`ProcessMoneyChanges`): every wallet takes in the money changes recorded for
    its agent during clearing. */
module Settlement {
  import opened Agents
  import opened MultiMaps
  import opened LogicTypes
  import opened Offers
  import opened Clearing

  /** The sum of a list of money changes. */
  function Sum(xs: seq<real>): real
  {
    if xs == [] then 0.0 else Sum(xs[..|xs| - 1]) + xs[|xs| - 1]
  }

  /** The loop over one agent's transactions: the wallet's money grows by their sum and its
      other fields stay. */
  method Settle(wallet: Wallet, transactions: seq<real>) returns (w: Wallet)
    ensures w == wallet.(money := wallet.money + Sum(transactions))
  {
    w := wallet;
    if transactions == [] {
      return;
    }
    var i := 0;
    while i < |transactions|
      invariant 0 <= i <= |transactions|
      invariant w == wallet.(money := wallet.money + Sum(transactions[..i]))
    {
      assert transactions[..i + 1][..i] == transactions[..i];
      w := w.(money := w.money + transactions[i]);
      i := i + 1;
    }
    assert transactions[..i] == transactions;
  }

  /** `ProcessMoneyChanges`: wallet `i` belongs to agent `i`; its money ends at the old money
      plus the sum of that agent's deltas, and a wallet without deltas is left as it was. */
  method ProcessMoneyChanges(wallets: array<Wallet>, deltaMoney: MultiMap<nat, real>)
    modifies wallets
    ensures forall i :: 0 <= i < wallets.Length ==>
      wallets[i] == old(wallets[i]).(money := old(wallets[i]).money + Sum(ValuesOf(deltaMoney.entries, i)))
    ensures forall i :: 0 <= i < wallets.Length && ValuesOf(deltaMoney.entries, i) == [] ==>
      wallets[i] == old(wallets[i])
  {
    var i := 0;
    while i < wallets.Length
      invariant 0 <= i <= wallets.Length
      invariant forall j :: 0 <= j < i ==>
        wallets[j] == old(wallets[j]).(money := old(wallets[j]).money + Sum(ValuesOf(deltaMoney.entries, j)))
      invariant forall j :: i <= j < wallets.Length ==> wallets[j] == old(wallets[j])
    {
      var transactions := deltaMoney.Values(i);
      if transactions != [] {
        wallets[i] := Settle(wallets[i], transactions);
      }
      i := i + 1;
    }
  }

  // ---------------------------------------------------------------------------------------
  // Conservation of money

  /** The sum of every delta recorded for agents `0 .. n-1`. */
  function SumAll(m: map<nat, seq<real>>, n: nat): real
  {
    if n == 0 then 0.0 else SumAll(m, n - 1) + Sum(ValuesOf(m, n - 1))
  }

  /** The money of wallets `0 .. n-1`. */
  function MoneyOf(ws: seq<Wallet>, n: nat): real
    requires n <= |ws|
  {
    if n == 0 then 0.0 else MoneyOf(ws, n - 1) + ws[n - 1].money
  }

  /** Adding one value under agent `k` adds it to the grand total when `k` is counted. */
  lemma {:induction false} SumAllAdd(m: map<nat, seq<real>>, k: nat, x: real, n: nat)
    ensures SumAll(m[k := ValuesOf(m, k) + [x]], n) == SumAll(m, n) + (if k < n then x else 0.0)
  {
    var m' := m[k := ValuesOf(m, k) + [x]];
    if n > 0 {
      SumAllAdd(m, k, x, n - 1);
      if n - 1 == k {
        var v := ValuesOf(m, k) + [x];
        assert ValuesOf(m', k) == v;
        assert v[..|v| - 1] == ValuesOf(m, k);
      } else {
        assert ValuesOf(m', n - 1) == ValuesOf(m, n - 1);
      }
    }
  }

  /** Recording a list of deltas for agents below `n` adds exactly their total to the
      grand total. */
  lemma {:induction false} RecordAddsTotal(m: map<nat, seq<real>>, ds: seq<MoneyDelta>, n: nat)
    requires DeltasIn(ds, n)
    ensures SumAll(Record(m, ds), n) == SumAll(m, n) + Total(ds)
    decreases |ds|
  {
    if ds != [] {
      var init := ds[..|ds| - 1];
      var d := ds[|ds| - 1];
      assert DeltasIn(init, n);
      RecordAddsTotal(m, init, n);
      SumAllAdd(Record(m, init), d.agent, d.amount, n);
    }
  }

  /** Clearing one good from an empty delta map creates no money: the recorded changes of all
      agents sum to zero. */
  lemma {:induction false} ResolveConservesMoney(asks: seq<Offer>, bids: seq<Offer>, col: seq<InvContent>)
    requires SourcesIn(asks, |col|) && SourcesIn(bids, |col|) && ColumnNonNegative(col)
    ensures SumAll(Record(map[], Resolve(asks, bids, col).deltas), |col|) == 0.0
  {
    var r := Resolve(asks, bids, col);
    SortKeepsSources(asks, |col|);
    ClearConservesMoney(Matching(SortByCostDescending(asks), bids, col, []));
    RecordAddsTotal(map[], r.deltas, |col|);
    ZeroSum(|col|);
  }

  lemma {:induction false} ZeroSum(n: nat)
    ensures SumAll(map[], n) == 0.0
  {
    if n > 0 {
      ZeroSum(n - 1);
    }
  }

  /** Settlement moves exactly the recorded deltas into the wallets: the wallets' total money
      grows by the grand total of the deltas. */
  lemma {:induction false} SettlementTotal(before: seq<Wallet>, after: seq<Wallet>, m: map<nat, seq<real>>, n: nat)
    requires n <= |before| == |after|
    requires forall i :: 0 <= i < |before| ==> after[i].money == before[i].money + Sum(ValuesOf(m, i))
    ensures MoneyOf(after, n) == MoneyOf(before, n) + SumAll(m, n)
  {
    if n > 0 {
      SettlementTotal(before, after, m, n - 1);
    }
  }
}
