/** One market tick, `MarketSystem.OnUpdate`: the jobs of the tick run one after another in an
    order their dependencies allow. The history statistics are computed and copied into the
    goods first, because offer generation reads them; upkeep and production run for every
    agent, then offer generation for every agent, clearing for every good, settlement, and
    finally the history is written back and the per-tick maps are emptied. */
module Market {
  import opened Goods
  import opened Agents
  import opened LogicTypes
  import opened MultiMaps
  import opened Production
  import opened Offers
  import opened Clearing
  import opened Settlement
  import opened Memories

  /** Every agent holds one slot per good, and no two agents share an inventory buffer. */
  predicate Buffers(invs: seq<array<InvContent>>, goods: nat)
  {
    (forall k :: 0 <= k < |invs| ==> invs[k].Length == goods) &&
    (forall i, j :: 0 <= i < |invs| && 0 <= j < |invs| && i != j ==> invs[i] != invs[j])
  }

  /** Every agent's inventory, as a value. */
  function Contents(invs: seq<array<InvContent>>): (r: seq<seq<InvContent>>)
    reads set k | 0 <= k < |invs| :: invs[k]
    ensures |r| == |invs| && forall k :: 0 <= k < |invs| ==> r[k] == invs[k][..]
  {
    seq(|invs|, k requires 0 <= k < |invs| reads invs => invs[k][..])
  }

  /** Every good's column (each agent's slot for it), as a value. */
  function Columns(invs: seq<array<InvContent>>, goods: nat): (r: seq<seq<InvContent>>)
    requires Buffers(invs, goods)
    reads set k | 0 <= k < |invs| :: invs[k]
    ensures |r| == goods && forall g :: 0 <= g < goods ==> r[g] == Column(invs, g)
  {
    seq(goods, g requires 0 <= g < goods && Buffers(invs, goods) reads set k | 0 <= k < |invs| :: invs[k] =>
      Column(invs, g))
  }

  // ---------------------------------------------------------------------------------------
  // Upkeep and production for every agent

  /** Agent `k`'s archetype is a logic entry shaped for an inventory of `goods` slots, with a
      value drawn for every consume entry. */
  ghost predicate Runnable(agents: seq<Agent>, logics: seq<Archetype>, rolls: seq<seq<real>>, goods: nat)
  {
    |rolls| == |agents| &&
    forall k :: 0 <= k < |agents| ==>
      agents[k].logic < |logics| && WellFormed(logics[agents[k].logic], goods) &&
      RollsCover(logics[agents[k].logic], rolls[k])
  }

  /** `ProcessAgentLogic` scheduled over every agent: agent `k` works on its own buffer with the
      archetype it names and its own draws `rolls[k]`. */
  method ProduceAll(invs: seq<array<InvContent>>, goods: nat, agents: array<Agent>, logics: seq<Archetype>,
                    rolls: seq<seq<real>>)
    requires Buffers(invs, goods) && agents.Length == |invs|
    requires Runnable(agents[..], logics, rolls, goods)
    modifies agents, set k | 0 <= k < |invs| :: invs[k]
    ensures forall k :: 0 <= k < |invs| ==>
      invs[k][..] == AgentLogic(old(invs[k][..]), old(agents[k]), logics[old(agents[k]).logic], rolls[k]).inventory &&
      agents[k] == AgentLogic(old(invs[k][..]), old(agents[k]), logics[old(agents[k]).logic], rolls[k]).agent
  {
    var k := 0;
    while k < |invs|
      invariant 0 <= k <= |invs|
      invariant forall j :: 0 <= j < k ==>
        invs[j][..] == AgentLogic(old(invs[j][..]), old(agents[j]), logics[old(agents[j]).logic], rolls[j]).inventory &&
        agents[j] == AgentLogic(old(invs[j][..]), old(agents[j]), logics[old(agents[j]).logic], rolls[j]).agent
      invariant forall j :: k <= j < |invs| ==> invs[j][..] == old(invs[j][..]) && agents[j] == old(agents[j])
    {
      var agent := agents[k];
      assert agent == agents[..][k];
      var agent' := ProcessAgentLogic(invs[k], agent, logics[agent.logic], rolls[k]);
      agents[k] := agent';
      k := k + 1;
    }
  }

  // ---------------------------------------------------------------------------------------
  // Offer generation for every agent

  /** Agent `k` has an inventory size, its archetype exists and has an ideal quantity for
      every slot, and every slot has a good record. */
  predicate Offerable(s: seq<seq<InvContent>>, agents: seq<Agent>, logics: seq<Archetype>,
                      sizes: seq<InventorySize>, goods: seq<Good>)
  {
    |agents| == |s| && |sizes| == |s| &&
    forall k :: 0 <= k < |s| ==>
      agents[k].logic < |logics| && |logics[agents[k].logic].idealQuantity| >= |s[k]| && |goods| >= |s[k]|
  }

  /** The offer decisions of every agent: agent `k` decides on its own inventory, with the ideal
      quantities of its archetype and its own inventory size. */
  function AllDecisions(s: seq<seq<InvContent>>, agents: seq<Agent>, logics: seq<Archetype>,
                        sizes: seq<InventorySize>, goods: seq<Good>): (ds: seq<seq<Decision>>)
    requires Offerable(s, agents, logics, sizes, goods)
    ensures |ds| == |s|
    ensures forall k :: 0 <= k < |s| ==>
      ds[k] == Decisions(s[k], logics[agents[k].logic].idealQuantity, sizes[k], goods)
  {
    seq(|s|, k requires 0 <= k < |s| && Offerable(s, agents, logics, sizes, goods) =>
      Decisions(s[k], logics[agents[k].logic].idealQuantity, sizes[k], goods))
  }

  /** The asks of good `g` once agents `0 .. n-1` have placed theirs after `init`, in agent order. */
  function AsksOf(init: seq<Offer>, ds: seq<seq<Decision>>, n: nat, g: int): seq<Offer>
    requires n <= |ds|
  {
    if n == 0 then init
    else AsksOf(init, ds, n - 1, g) + (if 0 <= g < |ds[n - 1]| then AskOffers(n - 1, ds[n - 1][g]) else [])
  }

  /** The bids of good `g` once agents `0 .. n-1` have placed theirs after `init`, in agent order. */
  function BidsOf(init: seq<Offer>, ds: seq<seq<Decision>>, n: nat, g: int): seq<Offer>
    requires n <= |ds|
  {
    if n == 0 then init
    else BidsOf(init, ds, n - 1, g) + (if 0 <= g < |ds[n - 1]| then BidOffers(n - 1, ds[n - 1][g]) else [])
  }

  /** Every offer comes from one of the agents that placed offers. */
  lemma {:induction false} OffersComeFromAgents(ds: seq<seq<Decision>>, n: nat, g: int)
    requires n <= |ds|
    ensures SourcesIn(AsksOf([], ds, n, g), n) && SourcesIn(BidsOf([], ds, n, g), n)
  {
    if n > 0 {
      OffersComeFromAgents(ds, n - 1, g);
      var a0, b0 := AsksOf([], ds, n - 1, g), BidsOf([], ds, n - 1, g);
      var a1: seq<Offer> := if 0 <= g < |ds[n - 1]| then AskOffers(n - 1, ds[n - 1][g]) else [];
      var b1: seq<Offer> := if 0 <= g < |ds[n - 1]| then BidOffers(n - 1, ds[n - 1][g]) else [];
      assert AsksOf([], ds, n, g) == a0 + a1 && BidsOf([], ds, n, g) == b0 + b1;
      forall i | 0 <= i < |a0 + a1| ensures (a0 + a1)[i].source < n {
        if i >= |a0| {
          assert (a0 + a1)[i] == a1[i - |a0|];
        }
      }
      forall i | 0 <= i < |b0 + b1| ensures (b0 + b1)[i].source < n {
        if i >= |b0| {
          assert (b0 + b1)[i] == b1[i - |b0|];
        }
      }
    }
  }

  /** No agent both asks and bids for the same good: a trade never has the same agent on both
      sides. */
  lemma {:induction false} OffersComeFromDistinctSides(ds: seq<seq<Decision>>, n: nat, g: int)
    requires n <= |ds|
    ensures forall i, j :: 0 <= i < |AsksOf([], ds, n, g)| && 0 <= j < |BidsOf([], ds, n, g)| ==>
      AsksOf([], ds, n, g)[i].source != BidsOf([], ds, n, g)[j].source
  {
    if n > 0 {
      OffersComeFromDistinctSides(ds, n - 1, g);
      OffersComeFromAgents(ds, n - 1, g);
      var a0, b0 := AsksOf([], ds, n - 1, g), BidsOf([], ds, n - 1, g);
      var a1: seq<Offer> := if 0 <= g < |ds[n - 1]| then AskOffers(n - 1, ds[n - 1][g]) else [];
      var b1: seq<Offer> := if 0 <= g < |ds[n - 1]| then BidOffers(n - 1, ds[n - 1][g]) else [];
      assert AsksOf([], ds, n, g) == a0 + a1 && BidsOf([], ds, n, g) == b0 + b1;
      assert a1 == [] || b1 == [];
      forall i, j | 0 <= i < |a0 + a1| && 0 <= j < |b0 + b1|
        ensures (a0 + a1)[i].source != (b0 + b1)[j].source
      {
        if i >= |a0| {
          assert (a0 + a1)[i].source == n - 1 && j < |b0|;
        } else if j >= |b0| {
          assert (b0 + b1)[j].source == n - 1;
        }
      }
    }
  }

  /** After agents `0 .. n-1` have placed their offers: every good's asks and bids are what they
      were, followed by those agents' offers in agent order. */
  ghost predicate OfferedUpTo(asks: map<int, seq<Offer>>, bids: map<int, seq<Offer>>,
                              asks0: map<int, seq<Offer>>, bids0: map<int, seq<Offer>>,
                              ds: seq<seq<Decision>>, n: nat)
    requires n <= |ds|
  {
    forall g {:trigger ValuesOf(asks, g)} {:trigger ValuesOf(bids, g)} ::
      ValuesOf(asks, g) == AsksOf(ValuesOf(asks0, g), ds, n, g) && ValuesOf(bids, g) == BidsOf(ValuesOf(bids0, g), ds, n, g)
  }

  /** Agent `k`'s archetype has an ideal quantity for every slot of its inventory, every slot
      has a good record, and `ds[k]` are the decisions of agent `k`. */
  ghost predicate DecidedBy(invs: seq<array<InvContent>>, agents: seq<Agent>, logics: seq<Archetype>,
                            sizes: seq<InventorySize>, goods: seq<Good>, ds: seq<seq<Decision>>, k: int)
    requires 0 <= k < |invs| == |agents| == |sizes| == |ds|
    reads invs[k]
  {
    agents[k].logic < |logics| && |logics[agents[k].logic].idealQuantity| >= invs[k].Length &&
    |goods| >= invs[k].Length &&
    ds[k] == Decisions(invs[k][..], logics[agents[k].logic].idealQuantity, sizes[k], goods)
  }

  /** `ds` holds every agent's decisions. */
  ghost predicate Decided(invs: seq<array<InvContent>>, agents: seq<Agent>, logics: seq<Archetype>,
                          sizes: seq<InventorySize>, goods: seq<Good>, ds: seq<seq<Decision>>)
    reads set k | 0 <= k < |invs| :: invs[k]
  {
    |ds| == |invs| == |agents| == |sizes| &&
    forall k :: 0 <= k < |invs| ==> DecidedBy(invs, agents, logics, sizes, goods, ds, k)
  }

  /** `GenerateOffers` scheduled over every agent: each agent's decisions `ds[k]` are appended,
      agent by agent, to the asks and bids of their goods. */
  method OfferAll(invs: seq<array<InvContent>>, agents: seq<Agent>, logics: seq<Archetype>,
                  sizes: seq<InventorySize>, goods: seq<Good>,
                  tradeAsks: MultiMap<int, Offer>, tradeBids: MultiMap<int, Offer>, ghost ds: seq<seq<Decision>>)
    requires tradeAsks != tradeBids
    requires Decided(invs, agents, logics, sizes, goods, ds)
    modifies tradeAsks, tradeBids
    ensures OfferedUpTo(tradeAsks.entries, tradeBids.entries, old(tradeAsks.entries), old(tradeBids.entries), ds, |invs|)
  {
    ghost var asks0, bids0 := tradeAsks.entries, tradeBids.entries;
    OfferedNone(asks0, bids0, ds);
    var entity := 0;
    while entity < |invs|
      invariant 0 <= entity <= |invs|
      invariant OfferedUpTo(tradeAsks.entries, tradeBids.entries, asks0, bids0, ds, entity)
    {
      assert old(DecidedBy(invs, agents, logics, sizes, goods, ds, entity));
      assert invs[entity][..] == old(invs[entity][..]);
      var ideals := logics[agents[entity].logic].idealQuantity;
      OfferAgent(entity, invs[entity], ideals, sizes[entity], goods, tradeAsks, tradeBids, ds, asks0, bids0);
      entity := entity + 1;
    }
    assert entity == |invs|;
    assert OfferedUpTo(tradeAsks.entries, tradeBids.entries, asks0, bids0, ds, |invs|);
  }

  /** Before any agent has placed offers, the lists are as they were. */
  lemma {:induction false} OfferedNone(asks0: map<int, seq<Offer>>, bids0: map<int, seq<Offer>>, ds: seq<seq<Decision>>)
    ensures OfferedUpTo(asks0, bids0, asks0, bids0, ds, 0)
  {
  }

  /** The body of the scheduled offer loop: agent `entity` places its offers. */
  method OfferAgent(entity: nat, inv: array<InvContent>, ideals: seq<IdealQuantity>, size: InventorySize,
                    goods: seq<Good>, tradeAsks: MultiMap<int, Offer>, tradeBids: MultiMap<int, Offer>,
                    ghost ds: seq<seq<Decision>>, ghost asks0: map<int, seq<Offer>>, ghost bids0: map<int, seq<Offer>>)
    requires |ideals| >= inv.Length && |goods| >= inv.Length && tradeAsks != tradeBids
    requires entity < |ds| && ds[entity] == Decisions(inv[..], ideals, size, goods)
    requires OfferedUpTo(tradeAsks.entries, tradeBids.entries, asks0, bids0, ds, entity)
    modifies tradeAsks, tradeBids
    ensures OfferedUpTo(tradeAsks.entries, tradeBids.entries, asks0, bids0, ds, entity + 1)
  {
    ghost var asks, bids := tradeAsks.entries, tradeBids.entries;
    GenerateOffers(entity, inv, ideals, size, goods, tradeAsks, tradeBids);
    OfferStep(ds, entity, asks, bids, tradeAsks.entries, tradeBids.entries, asks0, bids0);
  }

  /** One agent's offers extend the lists of every good by its ask or bid for that good. */
  lemma {:induction false} OfferStep(ds: seq<seq<Decision>>, n: nat,
                                     asks: map<int, seq<Offer>>, bids: map<int, seq<Offer>>,
                                     asks': map<int, seq<Offer>>, bids': map<int, seq<Offer>>,
                                     asks0: map<int, seq<Offer>>, bids0: map<int, seq<Offer>>)
    requires n < |ds| && OfferedUpTo(asks, bids, asks0, bids0, ds, n)
    requires forall g :: 0 <= g < |ds[n]| ==>
      ValuesOf(asks', g) == ValuesOf(asks, g) + AskOffers(n, ds[n][g]) &&
      ValuesOf(bids', g) == ValuesOf(bids, g) + BidOffers(n, ds[n][g])
    requires forall g :: (g < 0 || g >= |ds[n]|) ==>
      ValuesOf(asks', g) == ValuesOf(asks, g) && ValuesOf(bids', g) == ValuesOf(bids, g)
    ensures OfferedUpTo(asks', bids', asks0, bids0, ds, n + 1)
  {
    forall g ensures ValuesOf(asks', g) == AsksOf(ValuesOf(asks0, g), ds, n + 1, g) {
      if !(0 <= g < |ds[n]|) {
        assert AsksOf(ValuesOf(asks0, g), ds, n, g) + [] == AsksOf(ValuesOf(asks0, g), ds, n, g);
      }
    }
    forall g ensures ValuesOf(bids', g) == BidsOf(ValuesOf(bids0, g), ds, n + 1, g) {
      if !(0 <= g < |ds[n]|) {
        assert BidsOf(ValuesOf(bids0, g), ds, n, g) + [] == BidsOf(ValuesOf(bids0, g), ds, n, g);
      }
    }
  }

  // ---------------------------------------------------------------------------------------
  // Clearing for every good

  /** Every offer of good `g` comes from an agent of the good's column, and every cell of the
      column holds a non-negative quantity. */
  predicate Clearable(asks: map<int, seq<Offer>>, bids: map<int, seq<Offer>>, cols: seq<seq<InvContent>>)
  {
    forall g :: 0 <= g < |cols| ==>
      SourcesIn(ValuesOf(asks, g), |cols[g]|) && SourcesIn(ValuesOf(bids, g), |cols[g]|) &&
      ColumnNonNegative(cols[g])
  }

  /** The money changes that clearing goods `0 .. n-1` records, in good order. */
  function ClearingDeltas(asks: map<int, seq<Offer>>, bids: map<int, seq<Offer>>, cols: seq<seq<InvContent>>,
                          n: nat): seq<MoneyDelta>
    requires n <= |cols| && Clearable(asks, bids, cols)
  {
    if n == 0 then []
    else ClearingDeltas(asks, bids, cols, n - 1) + Resolve(ValuesOf(asks, n - 1), ValuesOf(bids, n - 1), cols[n - 1]).deltas
  }

  /** Clearing every good creates no money: the recorded changes sum to zero, and each names
      one of the agents. */
  lemma {:induction false} ClearingConservesMoney(asks: map<int, seq<Offer>>, bids: map<int, seq<Offer>>,
                                                  cols: seq<seq<InvContent>>, n: nat, agents: nat)
    requires n <= |cols| && Clearable(asks, bids, cols)
    requires forall g :: 0 <= g < |cols| ==> |cols[g]| == agents
    ensures Total(ClearingDeltas(asks, bids, cols, n)) == 0.0
    ensures Clearing.DeltasIn(ClearingDeltas(asks, bids, cols, n), agents)
  {
    if n > 0 {
      var g := n - 1;
      var earlier := ClearingDeltas(asks, bids, cols, g);
      var a, b := ValuesOf(asks, g), ValuesOf(bids, g);
      var r := Resolve(a, b, cols[g]);
      assert ClearingDeltas(asks, bids, cols, n) == earlier + r.deltas;
      ClearingConservesMoney(asks, bids, cols, g, agents);
      SortKeepsSources(a, |cols[g]|);
      ClearConservesMoney(Matching(SortByCostDescending(a), b, cols[g], []));
      assert Total(r.deltas) == 0.0;
      TotalAppend(earlier, r.deltas);
      forall i | 0 <= i < |earlier + r.deltas| ensures (earlier + r.deltas)[i].agent < agents {
        if i >= |earlier| {
          assert (earlier + r.deltas)[i] == r.deltas[i - |earlier|];
        }
      }
    }
  }

  /** Recording `a` and then `b` is recording `a + b`. */
  lemma {:induction false} RecordConcat(m: map<nat, seq<real>>, a: seq<MoneyDelta>, b: seq<MoneyDelta>)
    ensures Record(Record(m, a), b) == Record(m, a + b)
    decreases |b|
  {
    if b != [] {
      RecordConcat(m, a, b[..|b| - 1]);
      assert (a + b)[..|a + b| - 1] == a + b[..|b| - 1];
    } else {
      assert a + b == a;
    }
  }

  /** After goods `0 .. n-1` are cleared: their columns `cur` are what clearing gives, the
      columns of the others are as they were, and the money changes of the cleared goods are
      recorded. */
  ghost predicate ClearedUpTo(asks: map<int, seq<Offer>>, bids: map<int, seq<Offer>>, cols: seq<seq<InvContent>>,
                              n: nat, cur: seq<seq<InvContent>>, m0: map<nat, seq<real>>, m: map<nat, seq<real>>)
  {
    n <= |cols| && Clearable(asks, bids, cols) && |cur| == |cols| && m == Record(m0, ClearingDeltas(asks, bids, cols, n)) &&
    forall g :: 0 <= g < |cols| ==>
      cur[g] == if g < n then Resolve(ValuesOf(asks, g), ValuesOf(bids, g), cols[g]).column else cols[g]
  }

  /** Clearing good `n` extends what is cleared by that good's column and money changes. */
  lemma {:induction false} ClearedStep(asks: map<int, seq<Offer>>, bids: map<int, seq<Offer>>,
                                       cols: seq<seq<InvContent>>, n: nat, cur: seq<seq<InvContent>>,
                                       m0: map<nat, seq<real>>, m: map<nat, seq<real>>)
    requires n < |cols| && Clearable(asks, bids, cols) && ClearedUpTo(asks, bids, cols, n, cur, m0, m)
    ensures var r := Resolve(ValuesOf(asks, n), ValuesOf(bids, n), cols[n]);
      ClearedUpTo(asks, bids, cols, n + 1, cur[n := r.column], m0, Record(m, r.deltas))
  {
    var r := Resolve(ValuesOf(asks, n), ValuesOf(bids, n), cols[n]);
    RecordConcat(m0, ClearingDeltas(asks, bids, cols, n), r.deltas);
  }

  /** The inventory buffers hold the columns `cur`: agent `k`'s slot for good `g` is `cur[g][k]`. */
  ghost predicate Holds(invs: seq<array<InvContent>>, cur: seq<seq<InvContent>>)
    reads set k | 0 <= k < |invs| :: invs[k]
  {
    (forall k :: 0 <= k < |invs| ==> invs[k].Length == |cur|) &&
    (forall g :: 0 <= g < |cur| ==> |cur[g]| == |invs|) &&
    forall k, g :: 0 <= k < |invs| && 0 <= g < |cur| ==> invs[k][g] == cur[g][k]
  }

  /** `ResolveOffers` scheduled over every good: each good's column is cleared on its own, and
      the money changes are recorded good after good. */
  method ResolveAll(goods: nat, invs: seq<array<InvContent>>, tradeAsks: MultiMap<int, Offer>,
                    tradeBids: MultiMap<int, Offer>, deltaMoney: MultiMap<nat, real>)
    requires Buffers(invs, goods)
    requires Clearable(tradeAsks.entries, tradeBids.entries, Columns(invs, goods))
    modifies set k | 0 <= k < |invs| :: invs[k]
    modifies deltaMoney
    ensures forall g :: 0 <= g < goods ==>
      Column(invs, g) == old(Resolve(ValuesOf(tradeAsks.entries, g), ValuesOf(tradeBids.entries, g), Columns(invs, goods)[g])).column
    ensures deltaMoney.entries ==
      old(Record(deltaMoney.entries, ClearingDeltas(tradeAsks.entries, tradeBids.entries, Columns(invs, goods), goods)))
  {
    ghost var cols := Columns(invs, goods);
    ghost var m0 := deltaMoney.entries;
    ghost var asks, bids := tradeAsks.entries, tradeBids.entries;
    ghost var cur := cols;
    HoldsColumns(invs, goods);
    var index := 0;
    while index < goods
      invariant 0 <= index <= goods
      invariant tradeAsks.entries == asks && tradeBids.entries == bids
      invariant Holds(invs, cur)
      invariant ClearedUpTo(asks, bids, cols, index, cur, m0, deltaMoney.entries)
    {
      cur := ResolveGood(index, goods, invs, tradeAsks, tradeBids, deltaMoney, asks, bids, cols, m0, cur);
      index := index + 1;
    }
    assert index == goods;
    assert ClearedUpTo(asks, bids, cols, goods, cur, m0, deltaMoney.entries);
    forall g | 0 <= g < goods ensures Column(invs, g) == cur[g] {
      HeldColumn(invs, cur, g);
    }
  }

  /** The buffers hold their own columns. */
  lemma {:induction false} HoldsColumns(invs: seq<array<InvContent>>, goods: nat)
    requires Buffers(invs, goods)
    ensures Holds(invs, Columns(invs, goods))
  {
    assert forall k, g :: 0 <= k < |invs| && 0 <= g < goods ==> invs[k][g] == Column(invs, g)[k];
  }

  /** The body of the scheduled clearing loop: good `index` is cleared. */
  method ResolveGood(index: nat, goods: nat, invs: seq<array<InvContent>>, tradeAsks: MultiMap<int, Offer>,
                     tradeBids: MultiMap<int, Offer>, deltaMoney: MultiMap<nat, real>,
                     ghost asks: map<int, seq<Offer>>, ghost bids: map<int, seq<Offer>>,
                     ghost cols: seq<seq<InvContent>>, ghost m0: map<nat, seq<real>>, ghost cur: seq<seq<InvContent>>)
    returns (ghost cur': seq<seq<InvContent>>)
    requires Buffers(invs, goods) && |cols| == goods && index < goods
    requires tradeAsks.entries == asks && tradeBids.entries == bids
    requires ClearedUpTo(asks, bids, cols, index, cur, m0, deltaMoney.entries)
    requires Holds(invs, cur)
    modifies set k | 0 <= k < |invs| :: invs[k]
    modifies deltaMoney
    ensures tradeAsks.entries == asks && tradeBids.entries == bids
    ensures ClearedUpTo(asks, bids, cols, index + 1, cur', m0, deltaMoney.entries)
    ensures Holds(invs, cur')
  {
    ghost var r := Resolve(ValuesOf(asks, index), ValuesOf(bids, index), cols[index]);
    ClearedStep(asks, bids, cols, index, cur, m0, deltaMoney.entries);
    HeldColumn(invs, cur, index);
    ghost var m := deltaMoney.entries;
    assert forall k :: 0 <= k < |invs| ==> invs[k] as object != tradeAsks && invs[k] as object != tradeBids;
    ResolveOffers(index, invs, tradeAsks, tradeBids, deltaMoney);
    assert deltaMoney.entries == Record(m, r.deltas);
    cur' := cur[index := r.column];
    HoldsUpdated(invs, cur, index, r.column);
  }

  /** Buffers that hold the columns `cur` hold column `g` of `cur` as their column `g`. */
  lemma {:induction false} HeldColumn(invs: seq<array<InvContent>>, cur: seq<seq<InvContent>>, g: nat)
    requires Holds(invs, cur) && g < |cur|
    ensures InventoriesHold(invs, g) ==> Column(invs, g) == cur[g]
  {
    if InventoriesHold(invs, g) {
      assert forall k :: 0 <= k < |invs| ==> Column(invs, g)[k] == cur[g][k];
    }
  }

  /** Buffers whose column `g` is `col` and whose other slots are those of `cur` hold
      `cur[g := col]`. */
  lemma {:induction false} HoldsUpdated(invs: seq<array<InvContent>>, cur: seq<seq<InvContent>>, g: nat,
                                        col: seq<InvContent>)
    requires g < |cur| && InventoriesHold(invs, g) && Column(invs, g) == col
    requires forall k :: 0 <= k < |invs| ==> invs[k].Length == |cur|
    requires forall h :: 0 <= h < |cur| ==> |cur[h]| == |invs|
    requires forall k, h :: 0 <= k < |invs| && 0 <= h < |cur| && h != g ==> invs[k][h] == cur[h][k]
    ensures Holds(invs, cur[g := col])
  {
    forall k, h | 0 <= k < |invs| && 0 <= h < |cur| ensures invs[k][h] == cur[g := col][h][k] {
      if h == g {
        assert invs[k][h] == Column(invs, g)[k];
      }
    }
  }

  // ---------------------------------------------------------------------------------------
  // The tick

  /** Offers placed into empty lists by agents that each hold one slot per good can be cleared
      against those agents' non-negative columns, and no agent is on both sides of a good. */
  lemma {:induction false} OffersReady(asks: map<int, seq<Offer>>, bids: map<int, seq<Offer>>,
                                       ds: seq<seq<Decision>>, cols: seq<seq<InvContent>>)
    requires OfferedUpTo(asks, bids, map[], map[], ds, |ds|)
    requires forall g :: 0 <= g < |cols| ==> |cols[g]| == |ds| && ColumnNonNegative(cols[g])
    ensures Clearable(asks, bids, cols)
    ensures forall g :: OfferedGood(ValuesOf(asks, g), ValuesOf(bids, g), |ds|)
  {
    forall g ensures OfferedGood(ValuesOf(asks, g), ValuesOf(bids, g), |ds|) {
      var m: map<int, seq<Offer>> := map[];
      assert ValuesOf(m, g) == [];
      assert ValuesOf(asks, g) == AsksOf([], ds, |ds|, g) && ValuesOf(bids, g) == BidsOf([], ds, |ds|, g);
      OffersComeFromAgents(ds, |ds|, g);
      OffersComeFromDistinctSides(ds, |ds|, g);
    }
  }

  /** Every ask and bid of a good comes from one of `n` agents, and no agent both asks and bids. */
  ghost predicate OfferedGood(asks: seq<Offer>, bids: seq<Offer>, n: nat) {
    SourcesIn(asks, n) && SourcesIn(bids, n) &&
    forall i, j :: 0 <= i < |asks| && 0 <= j < |bids| ==> asks[i].source != bids[j].source
  }

  /** The offers placed for a good are cleared only between different agents: in every pass
      of the clearing loop the seller is not the buyer. */
  lemma {:induction false} OfferedTradesApart(asks: map<int, seq<Offer>>, bids: map<int, seq<Offer>>,
                                              cols: seq<seq<InvContent>>, n: nat, g: int)
    requires Clearable(asks, bids, cols) && 0 <= g < |cols|
    requires OfferedGood(ValuesOf(asks, g), ValuesOf(bids, g), n)
    ensures SourcesIn(SortByCostDescending(ValuesOf(asks, g)), |cols[g]|)
    ensures DistinctTraders(Matching(SortByCostDescending(ValuesOf(asks, g)), ValuesOf(bids, g), cols[g], []))
  {
    ResolveTradesApart(ValuesOf(asks, g), ValuesOf(bids, g), cols[g]);
  }

  /** Non-negative inventories have non-negative columns. */
  lemma {:induction false} ColumnsNonNegative(invs: seq<array<InvContent>>, goods: nat)
    requires Buffers(invs, goods)
    requires forall k :: 0 <= k < |invs| ==> NonNegative(invs[k][..])
    ensures forall g :: 0 <= g < goods ==> |Columns(invs, goods)[g]| == |invs| && ColumnNonNegative(Columns(invs, goods)[g])
  {
    forall g | 0 <= g < goods ensures ColumnNonNegative(Columns(invs, goods)[g]) {
      assert forall k :: 0 <= k < |invs| ==> Columns(invs, goods)[g][k] == invs[k][..][g];
    }
  }

  /** Cleared columns in the buffers make non-negative inventories. */
  lemma {:induction false} RowsNonNegative(invs: seq<array<InvContent>>, goods: nat)
    requires Buffers(invs, goods)
    requires forall g :: 0 <= g < goods ==> ColumnNonNegative(Column(invs, g))
    ensures forall k :: 0 <= k < |invs| ==> NonNegative(invs[k][..])
  {
    forall k | 0 <= k < |invs| ensures NonNegative(invs[k][..]) {
      forall g | 0 <= g < goods ensures invs[k][g].quantity >= 0 {
        assert invs[k][g] == Column(invs, g)[k];
      }
    }
  }

  // ---------------------------------------------------------------------------------------
  // The trading part of the tick, on values

  /** The state the trading jobs change: every agent's inventory, the agents, and the wallets. */
  datatype Books = Books(inventories: seq<seq<InvContent>>, agents: seq<Agent>, wallets: seq<Wallet>)

  /** The rows `m`, each `w` wide, read as `w` columns: cell `i` of column `j` is cell `j` of
      row `i`. */
  function Transpose(m: seq<seq<InvContent>>, w: nat): (r: seq<seq<InvContent>>)
    requires forall i :: 0 <= i < |m| ==> |m[i]| == w
    ensures |r| == w
    ensures forall j :: 0 <= j < w ==> |r[j]| == |m| && forall i :: 0 <= i < |m| ==> r[j][i] == m[i][j]
  {
    seq(w, j requires 0 <= j < w => seq(|m|, i requires 0 <= i < |m| && j < |m[i]| => m[i][j]))
  }

  /** The buffers' columns are their contents read column by column. */
  lemma {:induction false} ColumnsTransposeContents(invs: seq<array<InvContent>>, goods: nat)
    requires Buffers(invs, goods)
    ensures Columns(invs, goods) == Transpose(Contents(invs), goods)
  {
    var c, t := Columns(invs, goods), Transpose(Contents(invs), goods);
    forall g | 0 <= g < goods ensures c[g] == t[g] {
      assert forall k :: 0 <= k < |invs| ==> c[g][k] == invs[k][g] == Contents(invs)[k][g];
    }
  }

  /** Every agent has an inventory of one slot per good, a wallet, an inventory size and a
      runnable archetype whose recipes consume distinct goods, and every quantity is at least
      zero. */
  ghost predicate Tradable(b: Books, logics: seq<Archetype>, rolls: seq<seq<real>>, sizes: seq<InventorySize>,
                           goods: nat)
  {
    |b.agents| == |b.inventories| == |sizes| == |b.wallets| &&
    (forall k :: 0 <= k < |b.inventories| ==> |b.inventories[k]| == goods) &&
    Runnable(b.agents, logics, rolls, goods) &&
    forall k :: 0 <= k < |b.agents| ==> DistinctConsumes(logics[b.agents[k].logic]) && NonNegative(b.inventories[k])
  }

  /** Upkeep and production: every agent runs its own archetype on its own inventory with its
      own draws; the wallets are not touched. */
  ghost function AfterProduction(b: Books, logics: seq<Archetype>, rolls: seq<seq<real>>, sizes: seq<InventorySize>,
                                 goods: nat): (r: Books)
    requires Tradable(b, logics, rolls, sizes, goods)
    ensures |r.inventories| == |r.agents| == |b.inventories| && r.wallets == b.wallets
    ensures forall k :: 0 <= k < |b.inventories| ==>
      r.inventories[k] == AgentLogic(b.inventories[k], b.agents[k], logics[b.agents[k].logic], rolls[k]).inventory &&
      r.agents[k] == AgentLogic(b.inventories[k], b.agents[k], logics[b.agents[k].logic], rolls[k]).agent &&
      |r.inventories[k]| == goods && r.agents[k].logic == b.agents[k].logic && NonNegative(r.inventories[k])
  {
    OutcomesNonNegative(b, logics, rolls, sizes, goods);
    var o := seq(|b.inventories|, k requires 0 <= k < |b.inventories| && Tradable(b, logics, rolls, sizes, goods) =>
      AgentLogic(b.inventories[k], b.agents[k], logics[b.agents[k].logic], rolls[k]));
    Books(seq(|o|, k requires 0 <= k < |o| => o[k].inventory), seq(|o|, k requires 0 <= k < |o| => o[k].agent), b.wallets)
  }

  /** Agents whose recipes consume distinct goods keep non-negative inventories non-negative. */
  lemma {:induction false} OutcomesNonNegative(b: Books, logics: seq<Archetype>, rolls: seq<seq<real>>,
                                               sizes: seq<InventorySize>, goods: nat)
    requires Tradable(b, logics, rolls, sizes, goods)
    ensures forall k :: 0 <= k < |b.inventories| ==>
      NonNegative(AgentLogic(b.inventories[k], b.agents[k], logics[b.agents[k].logic], rolls[k]).inventory)
  {
    forall k | 0 <= k < |b.inventories|
      ensures NonNegative(AgentLogic(b.inventories[k], b.agents[k], logics[b.agents[k].logic], rolls[k]).inventory)
    {
      AgentLogicNonNegative(b.inventories[k], b.agents[k], logics[b.agents[k].logic], rolls[k]);
    }
  }

  /** The decisions every agent takes on its inventory after production. */
  ghost function TickDecisions(b: Books, logics: seq<Archetype>, rolls: seq<seq<real>>, sizes: seq<InventorySize>,
                               goods: seq<Good>): (ds: seq<seq<Decision>>)
    requires Tradable(b, logics, rolls, sizes, |goods|)
    ensures |ds| == |b.inventories|
  {
    var p := AfterProduction(b, logics, rolls, sizes, |goods|);
    AllDecisions(p.inventories, p.agents, logics, sizes, goods)
  }

  /** Every good's asks once all agents have placed theirs, keyed by good. */
  ghost function PlacedAsks(ds: seq<seq<Decision>>, goods: nat): map<int, seq<Offer>>
  {
    map g | 0 <= g < goods :: AsksOf([], ds, |ds|, g)
  }

  /** Every good's bids once all agents have placed theirs, keyed by good. */
  ghost function PlacedBids(ds: seq<seq<Decision>>, goods: nat): map<int, seq<Offer>>
  {
    map g | 0 <= g < goods :: BidsOf([], ds, |ds|, g)
  }

  /** Offers that agents place on non-negative inventories of one slot per good can be
      cleared against those inventories' columns. */
  lemma {:induction false} PlacedClearable(ps: seq<seq<InvContent>>, ds: seq<seq<Decision>>, goods: nat)
    requires |ds| == |ps| && forall k :: 0 <= k < |ps| ==> |ps[k]| == goods && NonNegative(ps[k])
    ensures Clearable(PlacedAsks(ds, goods), PlacedBids(ds, goods), Transpose(ps, goods))
  {
    var cols := Transpose(ps, goods);
    forall g | 0 <= g < goods
      ensures SourcesIn(ValuesOf(PlacedAsks(ds, goods), g), |cols[g]|)
      ensures SourcesIn(ValuesOf(PlacedBids(ds, goods), g), |cols[g]|)
      ensures ColumnNonNegative(cols[g])
    {
      OffersComeFromAgents(ds, |ds|, g);
      assert forall k :: 0 <= k < |ps| ==> cols[g][k] == ps[k][g];
    }
  }

  /** Every good's column after clearing. */
  ghost function ClearedColumns(asks: map<int, seq<Offer>>, bids: map<int, seq<Offer>>, cols: seq<seq<InvContent>>)
    : (r: seq<seq<InvContent>>)
    requires Clearable(asks, bids, cols)
    ensures |r| == |cols|
    ensures forall g :: 0 <= g < |cols| ==> r[g] == Resolve(ValuesOf(asks, g), ValuesOf(bids, g), cols[g]).column
  {
    seq(|cols|, g requires 0 <= g < |cols| && Clearable(asks, bids, cols) =>
      Resolve(ValuesOf(asks, g), ValuesOf(bids, g), cols[g]).column)
  }

  /** The money changes clearing records after production, keyed by agent. */
  ghost function TickDeltas(b: Books, logics: seq<Archetype>, rolls: seq<seq<real>>, sizes: seq<InventorySize>,
                            goods: seq<Good>): map<nat, seq<real>>
    requires Tradable(b, logics, rolls, sizes, |goods|)
  {
    var p := AfterProduction(b, logics, rolls, sizes, |goods|);
    var ds := TickDecisions(b, logics, rolls, sizes, goods);
    PlacedClearable(p.inventories, ds, |goods|);
    Record(map[], ClearingDeltas(PlacedAsks(ds, |goods|), PlacedBids(ds, |goods|), Transpose(p.inventories, |goods|), |goods|))
  }

  /** Every wallet takes in the money changes recorded for its agent. */
  function Settled(ws: seq<Wallet>, m: map<nat, seq<real>>): (r: seq<Wallet>)
    ensures |r| == |ws|
    ensures forall i :: 0 <= i < |ws| ==> r[i] == ws[i].(money := ws[i].money + Sum(ValuesOf(m, i)))
  {
    seq(|ws|, i requires 0 <= i < |ws| => ws[i].(money := ws[i].money + Sum(ValuesOf(m, i))))
  }

  /** The trading part of the tick: upkeep and production; every agent's offers on what it then
      holds, placed agent by agent; every good's column of the produced inventories cleared
      against its offers; and every wallet settled with the money changes of its agent. */
  ghost function Traded(b: Books, logics: seq<Archetype>, rolls: seq<seq<real>>, sizes: seq<InventorySize>,
                        goods: seq<Good>): (r: Books)
    requires Tradable(b, logics, rolls, sizes, |goods|)
  {
    var p := AfterProduction(b, logics, rolls, sizes, |goods|);
    var ds := TickDecisions(b, logics, rolls, sizes, goods);
    PlacedClearable(p.inventories, ds, |goods|);
    var cleared := ClearedColumns(PlacedAsks(ds, |goods|), PlacedBids(ds, |goods|), Transpose(p.inventories, |goods|));
    Books(Transpose(cleared, |b.inventories|), p.agents, Settled(b.wallets, TickDeltas(b, logics, rolls, sizes, goods)))
  }

  /** Settling the money changes of clearing every good leaves the wallets' total as it was. */
  lemma {:induction false} SettledConservesMoney(asks: map<int, seq<Offer>>, bids: map<int, seq<Offer>>,
                                                 cols: seq<seq<InvContent>>, ws: seq<Wallet>)
    requires Clearable(asks, bids, cols) && forall g :: 0 <= g < |cols| ==> |cols[g]| == |ws|
    ensures MoneyOf(Settled(ws, Record(map[], ClearingDeltas(asks, bids, cols, |cols|))), |ws|) == MoneyOf(ws, |ws|)
  {
    var m := Record(map[], ClearingDeltas(asks, bids, cols, |cols|));
    ClearingConservesMoney(asks, bids, cols, |cols|, |ws|);
    RecordAddsTotal(map[], ClearingDeltas(asks, bids, cols, |cols|), |ws|);
    ZeroSum(|ws|);
    SettlementTotal(ws, Settled(ws, m), m, |ws|);
  }

  /** Trading creates no money: the wallets' total is what it was, because every good's
      clearing moves money only between its agents. */
  lemma {:induction false} TradedConservesMoney(b: Books, logics: seq<Archetype>, rolls: seq<seq<real>>,
                                                sizes: seq<InventorySize>, goods: seq<Good>)
    requires Tradable(b, logics, rolls, sizes, |goods|)
    ensures |Traded(b, logics, rolls, sizes, goods).wallets| == |b.wallets|
    ensures MoneyOf(Traded(b, logics, rolls, sizes, goods).wallets, |b.wallets|) == MoneyOf(b.wallets, |b.wallets|)
  {
    var p := AfterProduction(b, logics, rolls, sizes, |goods|);
    var ds := TickDecisions(b, logics, rolls, sizes, goods);
    PlacedClearable(p.inventories, ds, |goods|);
    SettledConservesMoney(PlacedAsks(ds, |goods|), PlacedBids(ds, |goods|), Transpose(p.inventories, |goods|), b.wallets);
  }

  /** Trading keeps every quantity at least zero, keeps every agent's archetype and touches no
      other wallet field than the money. */
  lemma {:induction false} TradedKeepsShape(b: Books, logics: seq<Archetype>, rolls: seq<seq<real>>,
                                            sizes: seq<InventorySize>, goods: seq<Good>)
    requires Tradable(b, logics, rolls, sizes, |goods|)
    ensures var r := Traded(b, logics, rolls, sizes, goods);
      |r.inventories| == |r.agents| == |r.wallets| == |b.inventories| &&
      forall k :: 0 <= k < |b.inventories| ==>
        |r.inventories[k]| == |goods| && NonNegative(r.inventories[k]) && r.agents[k].logic == b.agents[k].logic &&
        r.wallets[k] == b.wallets[k].(money := r.wallets[k].money)
  {
    var p := AfterProduction(b, logics, rolls, sizes, |goods|);
    var ds := TickDecisions(b, logics, rolls, sizes, goods);
    PlacedClearable(p.inventories, ds, |goods|);
    var cleared := ClearedColumns(PlacedAsks(ds, |goods|), PlacedBids(ds, |goods|), Transpose(p.inventories, |goods|));
    var r := Traded(b, logics, rolls, sizes, goods);
    forall k | 0 <= k < |b.inventories| ensures NonNegative(r.inventories[k]) {
      forall g | 0 <= g < |goods| ensures r.inventories[k][g].quantity >= 0 {
        assert r.inventories[k][g] == cleared[g][k];
      }
    }
  }

  /** Clearing's money changes depend only on each good's offer lists. */
  lemma {:induction false} ClearingDeltasAgree(asks: map<int, seq<Offer>>, bids: map<int, seq<Offer>>,
                                               asks': map<int, seq<Offer>>, bids': map<int, seq<Offer>>,
                                               cols: seq<seq<InvContent>>, n: nat)
    requires n <= |cols| && Clearable(asks, bids, cols)
    requires forall g :: 0 <= g < |cols| ==> ValuesOf(asks', g) == ValuesOf(asks, g) && ValuesOf(bids', g) == ValuesOf(bids, g)
    ensures Clearable(asks', bids', cols)
    ensures ClearingDeltas(asks', bids', cols, n) == ClearingDeltas(asks, bids, cols, n)
  {
    if n > 0 {
      ClearingDeltasAgree(asks, bids, asks', bids', cols, n - 1);
    }
  }

  /** Upkeep and production for every agent: each inventory and agent become what its own
      archetype makes of them, every quantity stays at least zero and every agent keeps its
      archetype. */
  method UpkeepAll(invs: seq<array<InvContent>>, goods: nat, agents: array<Agent>, logics: seq<Archetype>,
                rolls: seq<seq<real>>)
    requires Buffers(invs, goods) && agents.Length == |invs|
    requires Runnable(agents[..], logics, rolls, goods)
    requires forall k :: 0 <= k < |invs| ==> DistinctConsumes(logics[agents[k].logic]) && NonNegative(invs[k][..])
    modifies agents, set k | 0 <= k < |invs| :: invs[k]
    ensures forall k :: 0 <= k < |invs| ==>
      invs[k][..] == AgentLogic(old(invs[k][..]), old(agents[k]), logics[old(agents[k]).logic], rolls[k]).inventory &&
      agents[k] == AgentLogic(old(invs[k][..]), old(agents[k]), logics[old(agents[k]).logic], rolls[k]).agent
    ensures forall k :: 0 <= k < |invs| ==> NonNegative(invs[k][..]) && agents[k].logic == old(agents[k].logic)
  {
    ProduceAll(invs, goods, agents, logics, rolls);
    forall k | 0 <= k < |invs| ensures NonNegative(invs[k][..]) {
      AgentLogicNonNegative(old(invs[k][..]), old(agents[k]), logics[old(agents[k]).logic], rolls[k]);
    }
  }

  /** Offer generation for every agent: every good's lists hold each agent's offers for it, in
      agent order; clearing accepts them, since every offer names one of the agents and every
      column is non-negative; and no agent both asks and bids for a good. */
  method PlaceOffers(invs: seq<array<InvContent>>, goods: seq<Good>, agents: seq<Agent>, logics: seq<Archetype>,
                     sizes: seq<InventorySize>, tradeAsks: MultiMap<int, Offer>, tradeBids: MultiMap<int, Offer>)
    requires Buffers(invs, |goods|) && |agents| == |invs| == |sizes|
    requires forall k :: 0 <= k < |invs| ==>
      agents[k].logic < |logics| && |logics[agents[k].logic].idealQuantity| == |goods| && NonNegative(invs[k][..])
    requires tradeAsks != tradeBids
    requires tradeAsks.entries == map[] && tradeBids.entries == map[]
    modifies tradeAsks, tradeBids
    ensures OfferedUpTo(tradeAsks.entries, tradeBids.entries, map[], map[],
                        AllDecisions(Contents(invs), agents, logics, sizes, goods), |invs|)
    ensures Clearable(tradeAsks.entries, tradeBids.entries, Columns(invs, |goods|))
    ensures forall g :: OfferedGood(ValuesOf(tradeAsks.entries, g), ValuesOf(tradeBids.entries, g), |invs|)
  {
    ghost var ds := AllDecisions(Contents(invs), agents, logics, sizes, goods);
    OfferAll(invs, agents, logics, sizes, goods, tradeAsks, tradeBids, ds);
    ColumnsNonNegative(invs, |goods|);
    OffersReady(tradeAsks.entries, tradeBids.entries, ds, Columns(invs, |goods|));
  }

  /** Clearing every good: every column becomes its cleared column and the money map holds
      every good's money changes, good after good; they sum to zero over the agents, and every
      quantity stays at least zero. */
  method ClearAll(invs: seq<array<InvContent>>, goods: nat, tradeAsks: MultiMap<int, Offer>,
                  tradeBids: MultiMap<int, Offer>, deltaMoney: MultiMap<nat, real>)
    requires Buffers(invs, goods)
    requires Clearable(tradeAsks.entries, tradeBids.entries, Columns(invs, goods))
    requires deltaMoney.entries == map[]
    modifies deltaMoney
    modifies set k | 0 <= k < |invs| :: invs[k]
    ensures forall g :: 0 <= g < goods ==>
      Column(invs, g) == old(Resolve(ValuesOf(tradeAsks.entries, g), ValuesOf(tradeBids.entries, g), Columns(invs, goods)[g])).column
    ensures deltaMoney.entries == old(Record(map[], ClearingDeltas(tradeAsks.entries, tradeBids.entries, Columns(invs, goods), goods)))
    ensures SumAll(deltaMoney.entries, |invs|) == 0.0
    ensures forall k :: 0 <= k < |invs| ==> NonNegative(invs[k][..])
  {
    ghost var cols := Columns(invs, goods);
    ghost var asks, bids := tradeAsks.entries, tradeBids.entries;
    assert forall k :: 0 <= k < |invs| ==> invs[k] as object != tradeAsks && invs[k] as object != tradeBids;
    ResolveAll(goods, invs, tradeAsks, tradeBids, deltaMoney);
    assert tradeAsks.entries == asks && tradeBids.entries == bids;
    ghost var deltas := ClearingDeltas(asks, bids, cols, goods);
    ClearingConservesMoney(asks, bids, cols, goods, |invs|);
    RecordAddsTotal(map[], deltas, |invs|);
    ZeroSum(|invs|);
    RowsNonNegative(invs, goods);
  }

  /** The trading part of the tick: upkeep and production, offers, clearing and settlement.
      The inventories, agents and wallets become what `Traded` makes of them, the offer lists
      hold every agent's offers and the money map the changes clearing recorded. So the
      agents' total money is what it was, and every inventory quantity stays at least zero. */
  method Trade(invs: seq<array<InvContent>>, goods: seq<Good>, agents: array<Agent>, logics: seq<Archetype>,
               rolls: seq<seq<real>>, sizes: seq<InventorySize>, wallets: array<Wallet>,
               tradeAsks: MultiMap<int, Offer>, tradeBids: MultiMap<int, Offer>, deltaMoney: MultiMap<nat, real>)
    requires Buffers(invs, |goods|) && agents.Length == |invs| == wallets.Length
    requires Tradable(Books(Contents(invs), agents[..], wallets[..]), logics, rolls, sizes, |goods|)
    requires tradeAsks != tradeBids
    requires tradeAsks.entries == map[] && tradeBids.entries == map[] && deltaMoney.entries == map[]
    modifies agents, wallets, tradeAsks, tradeBids, deltaMoney
    modifies set k | 0 <= k < |invs| :: invs[k]
    ensures Books(Contents(invs), agents[..], wallets[..]) ==
      old(Traded(Books(Contents(invs), agents[..], wallets[..]), logics, rolls, sizes, goods))
    ensures OfferedUpTo(tradeAsks.entries, tradeBids.entries, map[], map[],
                        old(TickDecisions(Books(Contents(invs), agents[..], wallets[..]), logics, rolls, sizes, goods)), |invs|)
    ensures deltaMoney.entries == old(TickDeltas(Books(Contents(invs), agents[..], wallets[..]), logics, rolls, sizes, goods))
    ensures MoneyOf(wallets[..], wallets.Length) == old(MoneyOf(wallets[..], wallets.Length))
    ensures forall k :: 0 <= k < |invs| ==> NonNegative(invs[k][..])
    ensures forall k :: 0 <= k < |invs| ==> agents[k].logic == old(agents[k].logic)
  {
    ghost var b := Books(Contents(invs), agents[..], wallets[..]);
    ProduceStep(invs, |goods|, agents, logics, rolls, sizes, b);
    assert wallets[..] == b.wallets;
    OfferClearSettleAll(invs, goods, agents, logics, rolls, sizes, wallets, tradeAsks, tradeBids, deltaMoney, b);
    TradedFacts(b, logics, rolls, sizes, goods, Contents(invs), agents[..], wallets[..]);
  }

  /** What trading keeps, read off books that are `Traded` of `b`. */
  lemma TradedFacts(b: Books, logics: seq<Archetype>, rolls: seq<seq<real>>, sizes: seq<InventorySize>,
                    goods: seq<Good>, invs: seq<seq<InvContent>>, agents: seq<Agent>, wallets: seq<Wallet>)
    requires Tradable(b, logics, rolls, sizes, |goods|)
    requires Books(invs, agents, wallets) == Traded(b, logics, rolls, sizes, goods)
    ensures |wallets| == |b.wallets| && MoneyOf(wallets, |wallets|) == MoneyOf(b.wallets, |b.wallets|)
    ensures forall k :: 0 <= k < |b.inventories| ==> NonNegative(invs[k]) && agents[k].logic == b.agents[k].logic
  {
    TradedConservesMoney(b, logics, rolls, sizes, goods);
    TradedKeepsShape(b, logics, rolls, sizes, goods);
  }

  /** The tick after upkeep and production: with the buffers and agents already
      `AfterProduction` of `b`, offers, clearing and settlement bring the books to `Traded` of
      `b`. */
  method OfferClearSettleAll(invs: seq<array<InvContent>>, goods: seq<Good>, agents: array<Agent>, logics: seq<Archetype>,
                             rolls: seq<seq<real>>, sizes: seq<InventorySize>, wallets: array<Wallet>,
                             tradeAsks: MultiMap<int, Offer>, tradeBids: MultiMap<int, Offer>, deltaMoney: MultiMap<nat, real>,
                             ghost b: Books)
    requires Buffers(invs, |goods|) && agents.Length == |invs| == wallets.Length
    requires Tradable(b, logics, rolls, sizes, |goods|) && |b.inventories| == |invs|
    requires Contents(invs) == AfterProduction(b, logics, rolls, sizes, |goods|).inventories
    requires agents[..] == AfterProduction(b, logics, rolls, sizes, |goods|).agents && wallets[..] == b.wallets
    requires tradeAsks != tradeBids
    requires tradeAsks.entries == map[] && tradeBids.entries == map[] && deltaMoney.entries == map[]
    requires forall k :: 0 <= k < |invs| ==>
      invs[k] as object != wallets && invs[k] as object != tradeAsks && invs[k] as object != tradeBids &&
      invs[k] as object != deltaMoney
    modifies wallets, tradeAsks, tradeBids, deltaMoney
    modifies set k | 0 <= k < |invs| :: invs[k]
    ensures Books(Contents(invs), agents[..], wallets[..]) == Traded(b, logics, rolls, sizes, goods)
    ensures OfferedUpTo(tradeAsks.entries, tradeBids.entries, map[], map[], TickDecisions(b, logics, rolls, sizes, goods), |invs|)
    ensures deltaMoney.entries == TickDeltas(b, logics, rolls, sizes, goods)
  {
    ghost var p := AfterProduction(b, logics, rolls, sizes, |goods|);
    ghost var ds := TickDecisions(b, logics, rolls, sizes, goods);
    ProducedOfferable(b, logics, rolls, sizes, goods);
    OfferClearSettle(invs, goods, agents[..], logics, sizes, tradeAsks, tradeBids, deltaMoney, wallets,
                     p.inventories, ds, Transpose(p.inventories, |goods|));
    TradedIs(b, logics, rolls, sizes, goods, Contents(invs), agents[..], wallets[..]);
  }

  /** The inventories cleared after production, the produced agents and the settled wallets
      are what `Traded` gives. */
  lemma {:induction false} TradedIs(b: Books, logics: seq<Archetype>, rolls: seq<seq<real>>, sizes: seq<InventorySize>,
                                    goods: seq<Good>, invs: seq<seq<InvContent>>, agents: seq<Agent>, wallets: seq<Wallet>)
    requires Tradable(b, logics, rolls, sizes, |goods|)
    requires var p := AfterProduction(b, logics, rolls, sizes, |goods|);
      var ds := TickDecisions(b, logics, rolls, sizes, goods);
      Clearable(PlacedAsks(ds, |goods|), PlacedBids(ds, |goods|), Transpose(p.inventories, |goods|)) &&
      invs == Transpose(ClearedColumns(PlacedAsks(ds, |goods|), PlacedBids(ds, |goods|), Transpose(p.inventories, |goods|)),
                        |b.inventories|) &&
      agents == p.agents && wallets == Settled(b.wallets, TickDeltas(b, logics, rolls, sizes, goods))
    ensures Books(invs, agents, wallets) == Traded(b, logics, rolls, sizes, goods)
  {
  }

  /** After production every agent can place offers, and the offers it places can be cleared. */
  lemma {:induction false} ProducedOfferable(b: Books, logics: seq<Archetype>, rolls: seq<seq<real>>,
                                             sizes: seq<InventorySize>, goods: seq<Good>)
    requires Tradable(b, logics, rolls, sizes, |goods|)
    ensures var p := AfterProduction(b, logics, rolls, sizes, |goods|);
      var ds := TickDecisions(b, logics, rolls, sizes, goods);
      (forall k :: 0 <= k < |p.inventories| ==>
        p.agents[k].logic < |logics| && |logics[p.agents[k].logic].idealQuantity| == |goods| && NonNegative(p.inventories[k])) &&
      |p.agents| == |sizes| && Offerable(p.inventories, p.agents, logics, sizes, goods) &&
      ds == AllDecisions(p.inventories, p.agents, logics, sizes, goods) &&
      Clearable(PlacedAsks(ds, |goods|), PlacedBids(ds, |goods|), Transpose(p.inventories, |goods|))
  {
    var p := AfterProduction(b, logics, rolls, sizes, |goods|);
    PlacedClearable(p.inventories, TickDecisions(b, logics, rolls, sizes, goods), |goods|);
  }

  /** Upkeep and production within the tick: the buffers and agents become `AfterProduction`
      of what they were. */
  method ProduceStep(invs: seq<array<InvContent>>, goods: nat, agents: array<Agent>, logics: seq<Archetype>,
                     rolls: seq<seq<real>>, sizes: seq<InventorySize>, ghost b: Books)
    requires Buffers(invs, goods) && agents.Length == |invs|
    requires Tradable(b, logics, rolls, sizes, goods) && b.inventories == Contents(invs) && b.agents == agents[..]
    modifies agents, set k | 0 <= k < |invs| :: invs[k]
    ensures Contents(invs) == AfterProduction(b, logics, rolls, sizes, goods).inventories
    ensures agents[..] == AfterProduction(b, logics, rolls, sizes, goods).agents
  {
    assert forall k :: 0 <= k < |invs| ==> DistinctConsumes(logics[agents[k].logic]) && NonNegative(invs[k][..]);
    UpkeepAll(invs, goods, agents, logics, rolls);
    ProducedContents(invs, agents[..], b, AfterProduction(b, logics, rolls, sizes, goods), logics, rolls, sizes, goods);
  }

  /** Offers, clearing and settlement within the tick: with `ds` the agents' decisions on the
      buffers and `cols` their columns, the lists hold every agent's offers, the columns are
      cleared against them, the money map holds the changes clearing recorded, and every
      wallet takes in its agent's changes. */
  method OfferClearSettle(invs: seq<array<InvContent>>, goods: seq<Good>, agents: seq<Agent>, logics: seq<Archetype>,
                       sizes: seq<InventorySize>, tradeAsks: MultiMap<int, Offer>, tradeBids: MultiMap<int, Offer>,
                       deltaMoney: MultiMap<nat, real>, wallets: array<Wallet>, ghost s: seq<seq<InvContent>>,
                       ghost ds: seq<seq<Decision>>, ghost cols: seq<seq<InvContent>>)
    requires Buffers(invs, |goods|) && |agents| == |invs| == |sizes| && s == Contents(invs)
    requires forall k :: 0 <= k < |s| ==>
      agents[k].logic < |logics| && |logics[agents[k].logic].idealQuantity| == |goods| && NonNegative(s[k])
    requires ds == AllDecisions(s, agents, logics, sizes, goods) && cols == Transpose(s, |goods|)
    requires Clearable(PlacedAsks(ds, |goods|), PlacedBids(ds, |goods|), cols)
    requires tradeAsks != tradeBids
    requires tradeAsks.entries == map[] && tradeBids.entries == map[] && deltaMoney.entries == map[]
    requires forall k :: 0 <= k < |invs| ==>
      invs[k] as object != tradeAsks && invs[k] as object != tradeBids && invs[k] as object != deltaMoney &&
      invs[k] as object != wallets
    modifies tradeAsks, tradeBids, deltaMoney, wallets
    modifies set k | 0 <= k < |invs| :: invs[k]
    ensures OfferedUpTo(tradeAsks.entries, tradeBids.entries, map[], map[], ds, |invs|)
    ensures Contents(invs) == Transpose(ClearedColumns(PlacedAsks(ds, |goods|), PlacedBids(ds, |goods|), cols), |invs|)
    ensures deltaMoney.entries == Record(map[], ClearingDeltas(PlacedAsks(ds, |goods|), PlacedBids(ds, |goods|), cols, |goods|))
    ensures wallets[..] == Settled(old(wallets[..]), deltaMoney.entries)
  {
    PlaceStep(invs, goods, agents, logics, sizes, tradeAsks, tradeBids, s, ds);
    ColumnsTransposeContents(invs, |goods|);
    ClearSettle(invs, |goods|, tradeAsks, tradeBids, deltaMoney, wallets, PlacedAsks(ds, |goods|), PlacedBids(ds, |goods|), cols);
  }

  /** Clearing and settlement within the tick: the columns are cleared against the lists, the
      money map holds the changes clearing recorded, and every wallet takes them in. */
  method ClearSettle(invs: seq<array<InvContent>>, goods: nat, tradeAsks: MultiMap<int, Offer>, tradeBids: MultiMap<int, Offer>,
                     deltaMoney: MultiMap<nat, real>, wallets: array<Wallet>, ghost pa: map<int, seq<Offer>>,
                     ghost pb: map<int, seq<Offer>>, ghost cols: seq<seq<InvContent>>)
    requires Buffers(invs, goods) && Columns(invs, goods) == cols && Clearable(pa, pb, cols)
    requires forall g :: 0 <= g < goods ==>
      ValuesOf(pa, g) == ValuesOf(tradeAsks.entries, g) && ValuesOf(pb, g) == ValuesOf(tradeBids.entries, g)
    requires deltaMoney.entries == map[]
    requires forall k :: 0 <= k < |invs| ==>
      invs[k] as object != tradeAsks && invs[k] as object != tradeBids && invs[k] as object != deltaMoney &&
      invs[k] as object != wallets
    modifies deltaMoney, wallets
    modifies set k | 0 <= k < |invs| :: invs[k]
    ensures tradeAsks.entries == old(tradeAsks.entries) && tradeBids.entries == old(tradeBids.entries)
    ensures Contents(invs) == Transpose(ClearedColumns(pa, pb, cols), |invs|)
    ensures deltaMoney.entries == Record(map[], ClearingDeltas(pa, pb, cols, goods))
    ensures wallets[..] == Settled(old(wallets[..]), deltaMoney.entries)
  {
    ghost var w0 := wallets[..];
    ClearStep(invs, goods, tradeAsks, tradeBids, deltaMoney, pa, pb, cols);
    assert wallets[..] == w0;
    SettleStep(invs, wallets, deltaMoney, Contents(invs));
  }

  /** Offers within the tick: the lists hold every agent's offers on the buffers, agent by
      agent, and for every good they hold what `PlacedAsks` and `PlacedBids` place. */
  method PlaceStep(invs: seq<array<InvContent>>, goods: seq<Good>, agents: seq<Agent>, logics: seq<Archetype>,
                   sizes: seq<InventorySize>, tradeAsks: MultiMap<int, Offer>, tradeBids: MultiMap<int, Offer>,
                   ghost s: seq<seq<InvContent>>, ghost ds: seq<seq<Decision>>)
    requires Buffers(invs, |goods|) && |agents| == |invs| == |sizes| && s == Contents(invs)
    requires forall k :: 0 <= k < |s| ==>
      agents[k].logic < |logics| && |logics[agents[k].logic].idealQuantity| == |goods| && NonNegative(s[k])
    requires ds == AllDecisions(s, agents, logics, sizes, goods)
    requires tradeAsks != tradeBids
    requires tradeAsks.entries == map[] && tradeBids.entries == map[]
    modifies tradeAsks, tradeBids
    ensures Contents(invs) == s
    ensures OfferedUpTo(tradeAsks.entries, tradeBids.entries, map[], map[], ds, |invs|)
    ensures forall g :: 0 <= g < |goods| ==>
      ValuesOf(PlacedAsks(ds, |goods|), g) == ValuesOf(tradeAsks.entries, g) &&
      ValuesOf(PlacedBids(ds, |goods|), g) == ValuesOf(tradeBids.entries, g)
  {
    PlaceOffers(invs, goods, agents, logics, sizes, tradeAsks, tradeBids);
    PlacedAgree(tradeAsks.entries, tradeBids.entries, ds, |goods|);
  }

  /** Settlement within the tick: every wallet takes in its agent's money changes, and the
      inventory buffers stay as they were. */
  method SettleStep(invs: seq<array<InvContent>>, wallets: array<Wallet>, deltaMoney: MultiMap<nat, real>,
                    ghost c: seq<seq<InvContent>>)
    requires forall k :: 0 <= k < |invs| ==> invs[k] as object != wallets
    requires c == Contents(invs)
    modifies wallets
    ensures Contents(invs) == c
    ensures wallets[..] == Settled(old(wallets[..]), deltaMoney.entries)
  {
    ghost var w0 := wallets[..];
    ProcessMoneyChanges(wallets, deltaMoney);
    ghost var w1 := Settled(w0, deltaMoney.entries);
    assert forall i :: 0 <= i < wallets.Length ==> wallets[i] == w1[i];
  }

  /** Clearing within the tick: with offer lists that agree, good by good, with `pa` and `pb`,
      the columns `cols` are cleared against them and the money map holds the changes. */
  method ClearStep(invs: seq<array<InvContent>>, goods: nat, tradeAsks: MultiMap<int, Offer>, tradeBids: MultiMap<int, Offer>,
                   deltaMoney: MultiMap<nat, real>, ghost pa: map<int, seq<Offer>>, ghost pb: map<int, seq<Offer>>,
                   ghost cols: seq<seq<InvContent>>)
    requires Buffers(invs, goods) && Columns(invs, goods) == cols && Clearable(pa, pb, cols)
    requires forall g :: 0 <= g < goods ==>
      ValuesOf(pa, g) == ValuesOf(tradeAsks.entries, g) && ValuesOf(pb, g) == ValuesOf(tradeBids.entries, g)
    requires deltaMoney.entries == map[]
    requires forall k :: 0 <= k < |invs| ==>
      invs[k] as object != tradeAsks && invs[k] as object != tradeBids && invs[k] as object != deltaMoney
    modifies deltaMoney
    modifies set k | 0 <= k < |invs| :: invs[k]
    ensures tradeAsks.entries == old(tradeAsks.entries) && tradeBids.entries == old(tradeBids.entries)
    ensures Contents(invs) == Transpose(ClearedColumns(pa, pb, cols), |invs|)
    ensures deltaMoney.entries == Record(map[], ClearingDeltas(pa, pb, cols, goods))
  {
    ghost var asks, bids := tradeAsks.entries, tradeBids.entries;
    ClearingDeltasAgree(pa, pb, asks, bids, cols, goods);
    ghost var cleared := ClearedColumns(pa, pb, cols);
    ClearAll(invs, goods, tradeAsks, tradeBids, deltaMoney);
    assert forall g :: 0 <= g < goods ==> Column(invs, g) == Resolve(ValuesOf(asks, g), ValuesOf(bids, g), cols[g]).column;
    ClearedContents(invs, goods, cleared);
  }

  /** Buffers and agents that hold what `ProduceAll` gives hold `AfterProduction`. */
  lemma {:induction false} ProducedContents(invs: seq<array<InvContent>>, agents: seq<Agent>, b: Books, p: Books,
                                            logics: seq<Archetype>, rolls: seq<seq<real>>, sizes: seq<InventorySize>,
                                            goods: nat)
    requires Tradable(b, logics, rolls, sizes, goods) && p == AfterProduction(b, logics, rolls, sizes, goods)
    requires |invs| == |agents| == |b.inventories|
    requires forall k :: 0 <= k < |invs| ==>
      invs[k][..] == AgentLogic(b.inventories[k], b.agents[k], logics[b.agents[k].logic], rolls[k]).inventory &&
      agents[k] == AgentLogic(b.inventories[k], b.agents[k], logics[b.agents[k].logic], rolls[k]).agent
    ensures Contents(invs) == p.inventories && agents == p.agents
  {
  }

  /** The lists of offers all agents placed into empty maps agree, good by good, with
      `PlacedAsks` and `PlacedBids`. */
  lemma {:induction false} PlacedAgree(asks: map<int, seq<Offer>>, bids: map<int, seq<Offer>>, ds: seq<seq<Decision>>,
                                       goods: nat)
    requires OfferedUpTo(asks, bids, map[], map[], ds, |ds|)
    ensures forall g :: 0 <= g < goods ==>
      ValuesOf(PlacedAsks(ds, goods), g) == ValuesOf(asks, g) && ValuesOf(PlacedBids(ds, goods), g) == ValuesOf(bids, g)
  {
    var e: map<int, seq<Offer>> := map[];
    forall g | 0 <= g < goods
      ensures ValuesOf(PlacedAsks(ds, goods), g) == ValuesOf(asks, g) && ValuesOf(PlacedBids(ds, goods), g) == ValuesOf(bids, g)
    {
      assert ValuesOf(e, g) == [];
      assert ValuesOf(asks, g) == AsksOf(ValuesOf(e, g), ds, |ds|, g);
      assert ValuesOf(bids, g) == BidsOf(ValuesOf(e, g), ds, |ds|, g);
    }
  }

  /** Buffers whose every column is the matching cleared column hold those columns read row
      by row. */
  lemma {:induction false} ClearedContents(invs: seq<array<InvContent>>, goods: nat, cleared: seq<seq<InvContent>>)
    requires Buffers(invs, goods) && |cleared| == goods
    requires forall g :: 0 <= g < goods ==> Column(invs, g) == cleared[g]
    ensures forall g :: 0 <= g < goods ==> |cleared[g]| == |invs|
    ensures Contents(invs) == Transpose(cleared, |invs|)
  {
    var c, t := Contents(invs), Transpose(cleared, |invs|);
    forall k | 0 <= k < |invs| ensures c[k] == t[k] {
      assert forall g :: 0 <= g < goods ==> c[k][g] == invs[k][g] == Column(invs, g)[k] == cleared[g][k];
    }
  }
}
