/** One `MarketSystem.OnUpdate`: the jobs of a tick, run one after another in the order their
    dependencies impose. */
module Tick {
  import opened Goods
  import opened Agents
  import opened LogicTypes
  import opened MultiMaps
  import opened Production
  import opened Offers
  import opened Settlement
  import opened Memories
  import opened Market

  /** The tick. The history statistics are computed and copied into the goods first, because
      offer generation reads them; then come upkeep and production, offers, clearing and
      settlement; last the history is written back and the per-tick maps are emptied.
      `asWritten` selects the source's behaviour in two places: the statistics are stored under
      good 0 (see `Slot`), and `ResetMultiHashMaps`, which depends on `RewriteHistory`, runs
      last and clears the history just rebuilt. Otherwise each agent's statistics go to the
      good of its last memory, a repair of the index only (the statistic still blends all of
      the agent's goods), and the history is emptied before it is rewritten. */
  method OnUpdate(frame: int, asWritten: bool, goods: array<Good>, goodsData: array<GoodData>,
                  history: MultiMap<nat, Memory>, revisionism: MultiMap<nat, Memory>, forgotten: Queue<Memory>,
                  invs: seq<array<InvContent>>, agents: array<Agent>, logics: seq<Archetype>,
                  rolls: seq<seq<real>>, sizes: seq<InventorySize>, wallets: array<Wallet>,
                  tradeAsks: MultiMap<int, Offer>, tradeBids: MultiMap<int, Offer>, deltaMoney: MultiMap<nat, real>)
    requires history != revisionism && tradeAsks != tradeBids && goods.Length == goodsData.Length
    requires HistoryIn(history.entries, agents.Length, goodsData.Length)
    requires Buffers(invs, goods.Length) && agents.Length == |invs| == |sizes| == wallets.Length
    requires Tradable(Books(Contents(invs), agents[..], wallets[..]), logics, rolls, sizes, goods.Length)
    requires tradeAsks.entries == map[] && tradeBids.entries == map[] && deltaMoney.entries == map[]
    modifies goods, goodsData, history, revisionism, forgotten, agents, wallets, tradeAsks, tradeBids, deltaMoney
    modifies set k | 0 <= k < |invs| :: invs[k]
    ensures goodsData[..] == SummarizeAll(old(goodsData[..]), frame, old(history.entries), agents.Length, asWritten)
    ensures forall i :: 0 <= i < goods.Length ==>
      goods[i] == old(goods[i]).(mean := goodsData[i].mean, minimum := goodsData[i].minimum,
                                 maximum := goodsData[i].maximum)
    ensures forgotten.items == ForgottenAll(frame, old(history.entries), agents.Length)
    ensures forall a: nat :: a < agents.Length ==>
      ValuesOf(revisionism.entries, a) == Retained(frame, ValuesOf(old(history.entries), a))
    ensures forall k: nat :: k >= agents.Length ==> ValuesOf(revisionism.entries, k) == []
    ensures Books(Contents(invs), agents[..], wallets[..]) ==
      Traded(old(Books(Contents(invs), agents[..], wallets[..])), logics, rolls, sizes, goods[..])
    ensures asWritten ==> history.entries == map[]
    ensures !asWritten ==> forall a: nat :: a < agents.Length ==>
      ValuesOf(history.entries, a) == Retained(frame, ValuesOf(old(history.entries), a))
    ensures !asWritten ==> forall k: nat :: k >= agents.Length ==> ValuesOf(history.entries, k) == []
    ensures tradeAsks.entries == map[] && tradeBids.entries == map[] && deltaMoney.entries == map[]
    ensures MoneyOf(wallets[..], wallets.Length) == old(MoneyOf(wallets[..], wallets.Length))
    ensures forall k :: 0 <= k < |invs| ==> NonNegative(invs[k][..]) && agents[k].logic == old(agents[k].logic)
  {
    assert forall k :: 0 <= k < |invs| ==>
      invs[k] as object != goods && invs[k] as object != goodsData && invs[k] as object != history &&
      invs[k] as object != revisionism && invs[k] as object != forgotten;
    Recall(frame, asWritten, agents.Length, goods, goodsData, history, revisionism, forgotten);
    TradeAndRewrite(asWritten, goods[..], revisionism, history, invs, agents, logics, rolls, sizes, wallets,
                    tradeAsks, tradeBids, deltaMoney);
  }

  /** The middle and the end of the tick: trading brings the books to `Traded` of what they
      were, and then the history is rewritten from the revisionist map and the per-tick maps
      are emptied. */
  method TradeAndRewrite(asWritten: bool, goods: seq<Good>, revisionism: MultiMap<nat, Memory>,
                         history: MultiMap<nat, Memory>, invs: seq<array<InvContent>>, agents: array<Agent>,
                         logics: seq<Archetype>, rolls: seq<seq<real>>, sizes: seq<InventorySize>, wallets: array<Wallet>,
                         tradeAsks: MultiMap<int, Offer>, tradeBids: MultiMap<int, Offer>, deltaMoney: MultiMap<nat, real>)
    requires revisionism != history && tradeAsks != tradeBids
    requires Buffers(invs, |goods|) && agents.Length == |invs| == wallets.Length
    requires Tradable(Books(Contents(invs), agents[..], wallets[..]), logics, rolls, sizes, |goods|)
    requires tradeAsks.entries == map[] && tradeBids.entries == map[] && deltaMoney.entries == map[]
    modifies history, agents, wallets, tradeAsks, tradeBids, deltaMoney
    modifies set k | 0 <= k < |invs| :: invs[k]
    ensures Books(Contents(invs), agents[..], wallets[..]) ==
      old(Traded(Books(Contents(invs), agents[..], wallets[..]), logics, rolls, sizes, goods))
    ensures asWritten ==> history.entries == map[]
    ensures !asWritten ==> forall a: nat :: a < agents.Length ==>
      ValuesOf(history.entries, a) == ValuesOf(revisionism.entries, a)
    ensures !asWritten ==> forall k: nat :: k >= agents.Length ==> ValuesOf(history.entries, k) == []
    ensures tradeAsks.entries == map[] && tradeBids.entries == map[] && deltaMoney.entries == map[]
    ensures MoneyOf(wallets[..], wallets.Length) == old(MoneyOf(wallets[..], wallets.Length))
    ensures forall k :: 0 <= k < |invs| ==> NonNegative(invs[k][..]) && agents[k].logic == old(agents[k].logic)
  {
    Trade(invs, goods, agents, logics, rolls, sizes, wallets, tradeAsks, tradeBids, deltaMoney);
    RewriteStep(asWritten, agents.Length, revisionism, history, tradeAsks, tradeBids, deltaMoney, invs, Contents(invs));
  }

  /** `Rewrite` within the tick, which leaves the inventory buffers as they were. */
  method RewriteStep(asWritten: bool, n: nat, revisionism: MultiMap<nat, Memory>, history: MultiMap<nat, Memory>,
                     tradeAsks: MultiMap<int, Offer>, tradeBids: MultiMap<int, Offer>, deltaMoney: MultiMap<nat, real>,
                     invs: seq<array<InvContent>>, ghost c: seq<seq<InvContent>>)
    requires revisionism != history && c == Contents(invs)
    modifies history, tradeAsks, tradeBids, deltaMoney
    ensures Contents(invs) == c
    ensures tradeAsks.entries == map[] && tradeBids.entries == map[] && deltaMoney.entries == map[]
    ensures asWritten ==> history.entries == map[]
    ensures !asWritten ==> forall a: nat :: a < n ==> ValuesOf(history.entries, a) == ValuesOf(revisionism.entries, a)
    ensures !asWritten ==> forall k: nat :: k >= n ==> ValuesOf(history.entries, k) == []
  {
    Rewrite(asWritten, n, revisionism, history, tradeAsks, tradeBids, deltaMoney);
  }

  /** The start of the tick: `CleanStarting`, `CalculateHistories`, `AssignGoodData`. The
      revisionist map ends holding exactly every agent's retained memories. */
  method Recall(frame: int, asWritten: bool, n: nat, goods: array<Good>, goodsData: array<GoodData>,
                history: MultiMap<nat, Memory>, revisionism: MultiMap<nat, Memory>, forgotten: Queue<Memory>)
    requires history != revisionism && goods.Length == goodsData.Length
    requires HistoryIn(history.entries, n, goodsData.Length)
    modifies goods, goodsData, revisionism, forgotten
    ensures history.entries == old(history.entries)
    ensures goodsData[..] == SummarizeAll(old(goodsData[..]), frame, history.entries, n, asWritten)
    ensures forall i :: 0 <= i < goods.Length ==>
      goods[i] == old(goods[i]).(mean := goodsData[i].mean, minimum := goodsData[i].minimum,
                                 maximum := goodsData[i].maximum)
    ensures forgotten.items == ForgottenAll(frame, history.entries, n)
    ensures forall a: nat :: a < n ==> ValuesOf(revisionism.entries, a) == Retained(frame, ValuesOf(history.entries, a))
    ensures forall k: nat :: k >= n ==> ValuesOf(revisionism.entries, k) == []
  {
    CleanStarting(revisionism, forgotten);
    CalculateHistories(frame, n, history, forgotten, revisionism, goodsData, asWritten);
    AssignGoodData(goods, goodsData);
  }

  /** The end of the tick: `RewriteHistory` and `ResetMultiHashMaps`, in the order as written
      (reset last) or in the corrected order (reset first). */
  method Rewrite(asWritten: bool, n: nat, revisionism: MultiMap<nat, Memory>, history: MultiMap<nat, Memory>,
                 tradeAsks: MultiMap<int, Offer>, tradeBids: MultiMap<int, Offer>, deltaMoney: MultiMap<nat, real>)
    requires revisionism != history
    modifies history, tradeAsks, tradeBids, deltaMoney
    ensures tradeAsks.entries == map[] && tradeBids.entries == map[] && deltaMoney.entries == map[]
    ensures asWritten ==> history.entries == map[]
    ensures !asWritten ==> forall a: nat :: a < n ==> ValuesOf(history.entries, a) == ValuesOf(revisionism.entries, a)
    ensures !asWritten ==> forall k: nat :: k >= n ==> ValuesOf(history.entries, k) == []
  {
    if asWritten {
      RewriteHistory(n, revisionism, history);
      ResetMultiHashMaps(tradeAsks, tradeBids, deltaMoney, history);
    } else {
      ResetMultiHashMaps(tradeAsks, tradeBids, deltaMoney, history);
      RewriteHistory(n, revisionism, history);
    }
  }

  /** With the history empty, `CalculateHistories` computes nothing: every good's statistics
      stay what they were, and nothing is forgotten. This is every tick after the first
      under the order as written. */
  lemma {:induction false} EmptyHistoryKeepsStatistics(gd: seq<GoodData>, frame: int, agents: nat, asWritten: bool)
    ensures HistoryIn(map[], agents, |gd|)
    ensures SummarizeAll(gd, frame, map[], agents, asWritten) == gd
    ensures ForgottenAll(frame, map[], agents) == []
  {
    assert HistoryIn(map[], agents, |gd|);
    forall g | 0 <= g < |gd| ensures SummarizeAll(gd, frame, map[], agents, asWritten)[g] == gd[g] {
      SummarizeAllFrame(gd, frame, map[], agents, asWritten, g);
    }
    ForgottenEmpty(frame, agents);
  }

  lemma {:induction false} ForgottenEmpty(frame: int, agents: nat)
    ensures ForgottenAll(frame, map[], agents) == []
  {
    if agents > 0 {
      ForgottenEmpty(frame, agents - 1);
    }
  }
}
