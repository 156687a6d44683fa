# A Simulation Dream: the market engine, in Dafny

The repository is a Unity (ECS) economy simulation. Agents follow an archetype, or "logic" (Farm, Mine, Peasant and so on). Each archetype lists:
- a cost of living;
- limit goods;
- ideal quantities;
- a starting inventory;
- recipes of consumes and produces.

Every frame `MarketSystem` runs one market tick. Its jobs run in this order:

1. **History statistics** (`CleanStarting`, `CalculateHistories`, `AssignGoodData`). The forgotten queue and the revisionist map are emptied. Each agent's remembered prices older than 10 frames are queued as forgotten; the rest go to the revisionist map and are folded into a mean, a minimum and a maximum, which are stored in `goodsData` and copied into the goods. Offer generation reads these statistics.
2. **Upkeep and production** (`ProcessAgentLogic`). The agent pays its cost of living, clamped at zero, and starves if it falls short. It stops if a limit good is at or above its limit. Otherwise it picks the first recipe whose consumes it can cover. It computes one shared scaling factor for the "up to" entries, consumes gated by random rolls, and produces.
3. **Offer generation** (`GenerateOffers`). A good held above its ideal is offered whole, at 1.02 times its recorded price. A good held at or below its ideal gets a price-0 bid, when its unit size fits in the free space. The bid is sized by the shortage, the free space and a preference, which is higher when the good's mean price sits near its minimum.
4. **Clearing, one good at a time** (`ResolveOffers`). The asks are sorted. The head ask and the head bid trade min(units) at the seller's price, until one side runs out. Each trade moves goods between the two inventory cells and records opposite money deltas.
5. **Settlement** (`ProcessMoneyChanges`). Every money delta is added to its agent's wallet.
6. **Write-back and reset** (`RewriteHistory`, `ResetMultiHashMaps`). The retained memories are written back to the history, and the offer, money and history maps are emptied.

`Tick.OnUpdate` runs these phases one after another: `Tick.Recall` is phase 1, `Market.Trade` phases 2 to 5, and `Tick.Rewrite` phase 6. Within a phase the agents, or the goods, are visited in index order. As written, the code stores every agent's statistics under good 0 and empties the history it has just rebuilt; both are under "## Findings". A flag `asWritten` selects between the code's behaviour and a corrected one. The corrected history index is a minimal repair of the index only: the good of the agent's last memory (see `Memories.CalculateHistories` under "## Left out").

`InitializeMarket` builds the read-only tables these phases index: the good catalogue, the per-archetype buffers, the starting inventory template, the seeded price charts and the agents. `Logic.cs`, `Agent.cs` and `Good.cs` are the record types with their constructors, conversions and equality. `History.cs` allocates the per-good chart series.

## How it is modelled

Modules follow the source files:
- `Goods`, `Agents` and `LogicTypes` hold the records;
- `Charts` holds `History.cs`;
- `Initialize` holds `InitializeMarket.cs`;
- `MarketSystem.cs` is split by phase into `Production`, `Offers`, `Clearing`, `Settlement` and `Memories`, which hold one job body each, `Market`, which runs the trading jobs over every agent and every good, and `Tick`, which runs a whole `OnUpdate`;
- `MultiMaps` stands in for Unity's `NativeMultiHashMap` and `NativeQueue`;
- `Mathf` holds the Unity `Mathf` functions the engine calls;
- `Wrappers` holds `Option`.

State the source updates in place keeps that form:
- inventory buffers are `array<InvContent>`, changed in indexed loops;
- the offer, money and history maps are `MultiMap` objects whose `Add` and `Clear` change them;
- the chart series are arrays of `FloatList` objects.

Every method is proved against a specification function on values, for example:
- `Upkeep`, `FirstSatisfiable`, `Factor`, `Consumed` and `Produced` for the production phase;
- `Decisions` for offer generation;
- `Trade`, `Clear` and `Resolve` for clearing;
- `Fold`, `Summarize` and `SummarizeAll` for the history;
- `Ranges` and `Flat` for the recipe tables.

The properties are lemmas about those functions.

Modelling choices:
- Prices are `real` and quantities `int`.
- An agent or a logic entity is its index.
- A `Dictionary` or `NativeMultiHashMap` is enumerated in insertion order. In particular each good's bids are served in agent order (see `Clearing.Clear` under "## Left out").
- The random numbers drawn in the consumption pass are an input sequence `rolls`.

A few facts about the engine that the model keeps:
- clearing sorts the asks by cost, highest first;
- a memory is kept while it is at most 10 frames old;
- an ask is priced at 1.02 times the recorded price, with no clamp to a band;
- ask and bid volumes are not averaged over ticks;
- the minimum and maximum are recomputed every tick from the retained prices alone;
- a bid's size has no random factor;
- an agent whose money runs out stays in the market.

## Model

| member | source | states |
|---|---|---|
| Goods.NewGood | Assets/Scripts/Good.cs:12-16 | a new good has the given index and the file's initial cost; the other fields start at zero |
| Goods.EqualsIsEquivalence | Assets/Scripts/Good.cs:18-21 | goods are equal exactly when their indices are, so equality is reflexive, symmetric and transitive |
| Goods.EqualsIgnoresInitialCost | Assets/Scripts/Good.cs:18-21 | two goods that differ only in initial cost are `Equals`, though they are different values |
| Goods.EqualsObjectAgrees | Assets/Scripts/Good.cs:23-26 | the object overload holds exactly for a boxed good with the same index |
| Goods.HashAgreesWithEquals | Assets/Scripts/Good.cs:28-31 | two goods have the same hash exactly when they are equal |
| Goods.OperatorsAgree | Assets/Scripts/Good.cs:33-41 | `==` holds exactly when the indices agree, and `!=` is its negation |
| Agents.NewAgent | Assets/Scripts/Agent.cs:15-20 | a new agent has the given logic, is not skipping, and has a zero average requirement |
| Agents.NewAgentWithId | Assets/Scripts/InitializeMarket.cs:148 | the two-argument agent the initializer builds has the given id and logic, skips nothing and does not starve |
| Agents.NewWallet | Assets/Scripts/Agent.cs:29-34 | a new wallet holds the money as both current and last-round money, with zero profit |
| Agents.WalletEqualsIsIdentity | Assets/Scripts/Agent.cs:36-39 | wallets are `Equals` exactly when all three fields agree, an equivalence |
| Agents.WalletEqualsObjectAgrees | Assets/Scripts/Agent.cs:41-44 | the object overload holds exactly for a boxed wallet with the same fields |
| Agents.WalletOperatorsAgree | Assets/Scripts/Agent.cs:57-65 | `==` is field-wise equality, and `!=` is its negation |
| LogicTypes.NewLogic | Assets/Scripts/Logic.cs:12-15 | the index is stored unchanged |
| LogicTypes.NewCostOfLiving | Assets/Scripts/Logic.cs:24-28 | good and quantity are stored unchanged |
| LogicTypes.NewLimitGood | Assets/Scripts/Logic.cs:37-41 | good and quantity are stored unchanged |
| LogicTypes.IdealFromInt | Assets/Scripts/Logic.cs:54-57 | converting an int to an ideal quantity and back gives the int |
| LogicTypes.IdealRoundTrip | Assets/Scripts/Logic.cs:54-62 | int to ideal quantity to int, and ideal quantity to int to ideal quantity, are both the identity |
| LogicTypes.PossibleDeltaFromInt3 | Assets/Scripts/Logic.cs:68-78 | the range keeps the int3, read as consume start, produce start and produce end |
| LogicTypes.NewDeltaValue | Assets/Scripts/Logic.cs:88-93 | good, quantity and possibility are stored unchanged |
| LogicTypes.NewInvContent | Assets/Scripts/Inventory.cs:9-13 | quantity and recorded price are stored unchanged |
| MultiMaps.MultiMap.constructor | Assets/Scripts/MarketSystem.cs:128-132 | a new multi-map is empty |
| MultiMaps.MultiMap.Add | Assets/Scripts/MarketSystem.cs:542 | the value is appended to its key's values; every other key is unchanged |
| MultiMaps.MultiMap.Clear | Assets/Scripts/MarketSystem.cs:522-525 | the map is empty and no key has any value |
| MultiMaps.Queue.constructor | Assets/Scripts/MarketSystem.cs:152 | a new queue is empty |
| MultiMaps.Queue.Enqueue | Assets/Scripts/MarketSystem.cs:329 | the value joins the end of the queue |
| MultiMaps.Queue.Clear | Assets/Scripts/MarketSystem.cs:555 | the queue is empty |
| Charts.FloatList.constructor | Assets/Scripts/History.cs:19 | a new list is empty |
| Charts.FloatList.Add | Assets/Scripts/InitializeMarket.cs:28-31 | the value is appended to the list |
| Charts.NewLists | Assets/Scripts/History.cs:17-19 | a fresh array of n slots, each a fresh empty list, no two slots the same list |
| Charts.FiveSeries | Assets/Scripts/History.cs:17-35 | five fresh arrays of n slots, each slot a fresh empty list, and no list shared within or across the arrays |
| Charts.History.constructor | Assets/Scripts/History.cs:5-11 | before allocation there are no series and the count is zero |
| Charts.History.AssignLogs | Assets/Scripts/History.cs:13-36 | the count is n, and the five series are new arrays of n fresh empty lists, so previous contents are discarded |
| Initialize.IndexGoods | Assets/Scripts/InitializeMarket.cs:13-22 | good file i becomes the good numbered i, found under its name; the list of goods is in file order; every key is a file's name; no good occupies space |
| Initialize.IndicesArePositions | Assets/Scripts/InitializeMarket.cs:19 | the goods are numbered 0, 1, 2, … and two catalogue goods are `Equals` only at the same position |
| Initialize.IndexGoodsIsCatalogue | Assets/Scripts/InitializeMarket.cs:13-22 | the indexing loop's result is a catalogue: each name maps to the good at its own index |
| Initialize.SeedGood | Assets/Scripts/InitializeMarket.cs:28-31 | the cost is appended to good k's price, ask, bid and trade series; every other series and every profit series is unchanged |
| Initialize.SeedHistory | Assets/Scripts/InitializeMarket.cs:24-32 | after seeding, each good's price, ask, bid and trade series hold exactly its initial cost, and its profit series is empty |
| Initialize.CostsOfLiving | Assets/Scripts/InitializeMarket.cs:46-51 | one entry per listed value, in order, with the good's index and the listed quantity |
| Initialize.LimitGoods | Assets/Scripts/InitializeMarket.cs:53-58 | one entry per listed value, in order, with the good's index and the listed quantity |
| Initialize.LastForIsLast | Assets/Scripts/InitializeMarket.cs:61-62 | the last position naming a good is -1 exactly when none names it; otherwise it names the good and no later value does |
| Initialize.IdealVector | Assets/Scripts/InitializeMarket.cs:60-64 | one ideal per good, equal to the last listed quantity for it, or 0 |
| Initialize.IdealLastWriteWins | Assets/Scripts/InitializeMarket.cs:61-62 | an unlisted good has ideal 0, and a listed one the quantity of its last listing |
| Initialize.StartInventory | Assets/Scripts/InitializeMarket.cs:66-77 | one cell per good, holding the last listed start quantity at the good's initial cost, or an empty cell; the size counter is the sum of quantity times unit size over the list |
| Initialize.NoSpaceUsed | Assets/Scripts/InitializeMarket.cs:76 | over a catalogue whose goods occupy no space, as `IndexGoods` builds it, the starting inventory's size counter is 0 |
| Initialize.FillPrices | Assets/Scripts/InitializeMarket.cs:80-89 | each cell whose recorded price is at most 0.1 takes its good's initial cost; every other cell is unchanged |
| Initialize.StartingPricesAreInitialCosts | Assets/Scripts/InitializeMarket.cs:66-89 | over a catalogue, every starting cell ends priced at its good's initial cost, holding the last listed quantity or 0 |
| Initialize.RangeAt | Assets/Scripts/InitializeMarket.cs:98-109 | recipe i's range starts after the entries of the recipes before it, its produces start after its consumes, and it ends where recipe i + 1 starts |
| Initialize.RangesTile | Assets/Scripts/InitializeMarket.cs:95-113 | one range per recipe, each inside the delta list and as wide as the recipe's lists; the first starts at 0, each ends where the next starts, and the last ends at the list's length |
| Initialize.RangesInside | Assets/Scripts/InitializeMarket.cs:98-109 | each range has x <= y <= z inside the delta list, [x, y) as long as the consumes and [y, z) as long as the produces |
| Initialize.RangesContiguous | Assets/Scripts/InitializeMarket.cs:98-109 | each recipe's range ends where the next recipe's begins |
| Initialize.ConsumeAt | Assets/Scripts/InitializeMarket.cs:100-102 | consume j of recipe i is the delta entry at x + j, with its good's index, quantity and possibility |
| Initialize.ProduceAt | Assets/Scripts/InitializeMarket.cs:104-106 | produce j of recipe i is the delta entry at y + j, with its good's index, quantity and possibility |
| Initialize.AddDeltas | Assets/Scripts/InitializeMarket.cs:101-102 | the inner loop appends one delta entry per consume (or produce), in order |
| Initialize.AddRecipe | Assets/Scripts/InitializeMarket.cs:98-108 | one pass of the recipe loop extends the ranges and the delta list from the first r recipes to the first r + 1 |
| Initialize.FlattenRecipes | Assets/Scripts/InitializeMarket.cs:95-113 | the ranges and the delta list are those of all the recipes, every recipe's consumes and then produces, recipe after recipe |
| Initialize.FlatGoodsBelow | Assets/Scripts/InitializeMarket.cs:100-106 | every delta entry names a good index below the catalogue's size |
| Initialize.LoadedIsWellFormed | Assets/Scripts/InitializeMarket.cs:42-113 | the buffers built from an archetype file over a catalogue only name goods of the catalogue, and only ranges inside the delta list |
| Initialize.LoadArchetype | Assets/Scripts/InitializeMarket.cs:42-113 | an archetype file gives well-formed buffers for its logic, the filled starting inventory of one cell per good, and its used space |
| Initialize.CreateAgent | Assets/Scripts/InitializeMarket.cs:145-152 | the counter goes up by one and is the agent's id; the agent has the archetype's logic; the wallet holds the wealth with zero profit; the inventory is a fresh copy of the starting template |
| Production.PayCostOfLiving | Assets/Scripts/MarketSystem.cs:200-213 | the inventory becomes the upkeep of the old one, and the result says whether some entry drove its good below zero |
| Production.UpkeepFrame | Assets/Scripts/MarketSystem.cs:200-213 | upkeep leaves goods it does not name unchanged, never changes a recorded price, and leaves named goods at or above zero |
| Production.UpkeepDistinct | Assets/Scripts/MarketSystem.cs:200-213 | with distinct cost goods, each named good ends at max(q − cost, 0) |
| Production.StarvesDistinct | Assets/Scripts/MarketSystem.cs:204-210 | with distinct cost goods, the agent starves exactly when some q − cost is negative |
| Production.ReachedLimit | Assets/Scripts/MarketSystem.cs:219-228 | true exactly when some limit good is held at or above its limit |
| Production.FirstSatisfiableIsFirst | Assets/Scripts/MarketSystem.cs:236-251 | the chosen recipe is satisfiable and no earlier one is; when none is chosen, no recipe is satisfiable |
| Production.CheckRecipe | Assets/Scripts/MarketSystem.cs:239-244 | true exactly when every consume entry's good is held at least at its quantity (1 for an "up to" entry) |
| Production.SelectRecipe | Assets/Scripts/MarketSystem.cs:233-254 | returns the first satisfiable recipe in list order, or none when no recipe is satisfiable |
| Production.FactorIsMinimum | Assets/Scripts/MarketSystem.cs:256-275 | the factor is in [0, 1], at most every "up to" entry's clamped ratio and equal to one of them, and 1 when there is none |
| Production.ScalingFactor | Assets/Scripts/MarketSystem.cs:256-275 | the first pass computes that factor, which lies in [0, 1] |
| Production.Consume | Assets/Scripts/MarketSystem.cs:277-289 | each consume entry whose roll does not exceed its possibility takes floor(abs(q) times factor) of its good; the others take nothing |
| Production.AmountCovered | Assets/Scripts/MarketSystem.cs:287 | the amount a satisfiable entry consumes is between 0 and what is held of its good |
| Production.ConsumeNonNegative | Assets/Scripts/MarketSystem.cs:277-289 | with distinct consume goods of a satisfiable recipe, consumption never makes a quantity negative and leaves other goods unchanged |
| Production.Produce | Assets/Scripts/MarketSystem.cs:291-300 | each produce entry adds q when q is positive and floor(abs(q) times factor) otherwise, without consulting its possibility |
| Production.ProduceNeverDecreases | Assets/Scripts/MarketSystem.cs:291-300 | production never lowers a quantity nor changes a recorded price |
| Production.ProduceExact | Assets/Scripts/MarketSystem.cs:291-300 | with distinct produce goods, each grows by exactly its gain and every other good is unchanged |
| Production.ProcessAgentLogic | Assets/Scripts/MarketSystem.cs:194-301 | the inventory and the starving flag become those of upkeep, the limit check, first-fit selection, scaled consumption and production, in that order |
| Production.SkipMeansUpkeepOnly | Assets/Scripts/MarketSystem.cs:215-228 | a starving agent, or one at a limit, ends with only its upkeep paid; it starves when it starved before or falls short now |
| Production.AgentLogicNonNegative | Assets/Scripts/MarketSystem.cs:194-301 | with distinct consume goods per recipe, a non-negative inventory stays non-negative through the whole phase |
| Offers.SurplusAsksWholeStock | Assets/Scripts/MarketSystem.cs:386-393 | a quantity above the ideal gives one ask for the entire quantity at the recorded price times 1.02 |
| Offers.ShortageBidsWhenSpace | Assets/Scripts/MarketSystem.cs:394-400 | at or below the ideal, there is a bid exactly when the unit size fits the free space, and nothing otherwise |
| Offers.PreferenceFallsWithMean | Assets/Scripts/MarketSystem.cs:409-411 | over the same band, a lower mean never lowers the preference; it is 1 at the minimum and 0 at the maximum |
| Offers.BidLimitFits | Assets/Scripts/MarketSystem.cs:403-405 | for a positive shortage, the limit is between 1 and the shortage, and that many units fit the free space |
| Offers.BidUnitsBounds | Assets/Scripts/MarketSystem.cs:413-414 | the clamped bid size is at least 1, at most the shortage when there is one, and fits the free space |
| Offers.BidBounds | Assets/Scripts/MarketSystem.cs:397-416 | a bid asks for at least one unit, no more than the shortage when there is one, and no more than fits the free space |
| Offers.PlaceOffer | Assets/Scripts/MarketSystem.cs:386-417 | the good's asks, or its bids at price 0, gain exactly the offer of its decision; no other good's offers change |
| Offers.GenerateOffers | Assets/Scripts/MarketSystem.cs:377-419 | every good of the agent gains exactly its decision's ask or bid, in good order; keys outside the inventory are unchanged |
| Clearing.SortIsPermutation | Assets/Scripts/MarketSystem.cs:459-460 | the sorted asks are ordered by cost, highest first, and are a permutation of the asks |
| Clearing.TradeDeltasCancel | Assets/Scripts/MarketSystem.cs:489-490 | a trade's two money deltas sum to zero |
| Clearing.Trade | Assets/Scripts/MarketSystem.cs:464-491 | one pass keeps every offer's agent and every recorded delta in range and the column non-negative, and removes at least one offer |
| Clearing.Clear | Assets/Scripts/MarketSystem.cs:462-492 | the loop ends with the asks or the bids exhausted, the column non-negative and every delta naming an agent |
| Clearing.TradeMoney | Assets/Scripts/MarketSystem.cs:467-490 | a pass that trades t > 0 records +price·t for the seller and −price·t for the buyer at the seller's cost; a pass of zero units changes neither money nor inventory; the total is unchanged |
| Clearing.TradeCells | Assets/Scripts/MarketSystem.cs:473-487 | the seller's quantity drops by t clamped at zero, with its recorded price kept; the buyer's grows by t and its new recorded price lies between its old one and the clearing price |
| Clearing.TradeFrame | Assets/Scripts/MarketSystem.cs:476-487 | a pass changes no cell but the seller's and the buyer's |
| Clearing.ReceiveBetween | Assets/Scripts/MarketSystem.cs:485-487 | the buyer's new recorded price lies between its old recorded price and the clearing price |
| Clearing.ClearConservesMoney | Assets/Scripts/MarketSystem.cs:462-492 | the whole clearing adds money deltas that sum to zero |
| Clearing.ClearTouchesOnlyTraders | Assets/Scripts/MarketSystem.cs:462-492 | an agent with no offer for the good keeps its cell |
| Clearing.TradeKeepsSources | Assets/Scripts/MarketSystem.cs:464-491 | a pass only shrinks or drops the head offers, so every agent left among the asks or the bids was there before |
| Clearing.ClearTradesApart | Assets/Scripts/MarketSystem.cs:462-492 | when no agent is among both the asks and the bids, every pass of the loop has a seller different from its buyer |
| Clearing.ResolveTradesApart | Assets/Scripts/MarketSystem.cs:433-493 | when a good's asks and bids come from different agents, sorting keeps that, and no pass of its clearing trades an agent with itself |
| Clearing.TradeAsWritten | Assets/Scripts/MarketSystem.cs:464-491 | one pass as written leaves both queues unchanged and stores only the seller's cell |
| Clearing.PassesAsWritten | Assets/Scripts/MarketSystem.cs:462-492 | after any number of passes as written, both queues are still non-empty, and a buyer distinct from the seller has its cell unchanged |
| Clearing.AsWrittenPaysTwiceForOneUnit | Assets/Scripts/MarketSystem.cs:462-492 | for one ask and one bid of one unit, two passes as written pay the seller twice and deliver nothing, while the corrected loop trades the unit once and delivers it |
| Clearing.Resolve | Assets/Scripts/MarketSystem.cs:433-493 | clearing a good's sorted asks against its bids ends with one side exhausted, the column non-negative, and every delta naming an agent |
| Clearing.StoreCell | Assets/Scripts/MarketSystem.cs:481 | one agent's cell for the good is written; no other cell changes |
| Clearing.RecordTrade | Assets/Scripts/MarketSystem.cs:489-490 | the money map gains the trade's two deltas, seller then buyer |
| Clearing.TradeStep | Assets/Scripts/MarketSystem.cs:464-491 | one pass over the inventory buffers and the money map does what the value-level pass `Trade` does; other goods' cells are unchanged |
| Clearing.ResolveOffers | Assets/Scripts/MarketSystem.cs:433-493 | the good's column becomes the cleared column, and the money map gains the cleared deltas; every other good's cells are unchanged |
| Settlement.Settle | Assets/Scripts/MarketSystem.cs:501-510 | the wallet's money grows by the sum of the transactions, and nothing else changes |
| Settlement.ProcessMoneyChanges | Assets/Scripts/MarketSystem.cs:497-511 | every wallet gains the sum of its agent's deltas, and a wallet with none is unchanged |
| Settlement.SumAllAdd | Assets/Scripts/MarketSystem.cs:489-490 | one delta added under agent k raises the total over agents below n by that delta exactly when k < n |
| Settlement.RecordAddsTotal | Assets/Scripts/MarketSystem.cs:489-490 | recording a list of deltas for known agents raises the map's total by the list's total |
| Settlement.ResolveConservesMoney | Assets/Scripts/MarketSystem.cs:433-493 | the money deltas clearing records for one good sum to zero over all agents |
| Settlement.SettlementTotal | Assets/Scripts/MarketSystem.cs:501-510 | the agents' total money after settlement is the total before plus the total of the deltas |
| Market.ProduceAll | Assets/Scripts/MarketSystem.cs:183-301 | every agent's inventory and record become what `ProcessAgentLogic` gives for its own inventory, archetype and rolls |
| Market.UpkeepAll | Assets/Scripts/MarketSystem.cs:183-301 | every agent's inventory and record become what `ProcessAgentLogic` makes of its own inventory, archetype and rolls; for archetypes whose recipes name each consume good once and non-negative starting inventories (which the source does not check), every quantity stays at least zero; every agent keeps its archetype |
| Market.OfferAll | Assets/Scripts/MarketSystem.cs:75-83 | after every agent in turn, each good's asks and bids are the old lists followed by every agent's ask or bid for that good, in agent order |
| Market.OfferAgent | Assets/Scripts/MarketSystem.cs:377-419 | one agent's offers extend every good's asks or bids by that agent's decision for the good |
| Market.OfferStep | Assets/Scripts/MarketSystem.cs:377-419 | placing agent n's decisions turns the lists of agents 0 .. n-1 into those of agents 0 .. n |
| Market.OffersComeFromAgents | Assets/Scripts/MarketSystem.cs:386-400 | every ask and every bid names one of the agents that placed offers |
| Market.OffersComeFromDistinctSides | Assets/Scripts/MarketSystem.cs:386-400 | no agent both asks and bids for the same good, so no trade has one agent on both sides |
| Market.OffersReady | Assets/Scripts/MarketSystem.cs:75-93 | offers placed into empty lists are ones clearing accepts: each names an agent, and no agent is on both sides of a good |
| Market.PlaceOffers | Assets/Scripts/MarketSystem.cs:75-83 | every good's asks and bids are exactly every agent's decision on its buffer for that good, in agent order; clearing accepts the lists, and for every good no agent both asks and bids |
| Market.OfferedTradesApart | Assets/Scripts/MarketSystem.cs:433-493 | the offers generation places for a good are cleared only between different agents, so the distinct-agent premise of `Clearing.TradeCells` holds at every pass |
| Market.ClearingConservesMoney | Assets/Scripts/MarketSystem.cs:85-93 | the money changes of clearing every good sum to zero and each names an agent |
| Market.RecordConcat | Assets/Scripts/MarketSystem.cs:489-490 | recording one list of money changes and then another is recording the two in sequence |
| Market.ClearedStep | Assets/Scripts/MarketSystem.cs:433-493 | clearing good n extends what goods 0 .. n-1 cleared by that good's column and money changes |
| Market.ResolveAll | Assets/Scripts/MarketSystem.cs:85-93 | every good's column becomes its cleared column, and the money map gains every good's money changes, good after good |
| Market.ResolveGood | Assets/Scripts/MarketSystem.cs:433-493 | one good is cleared in the buffers; the goods cleared so far and the money map grow by it |
| Market.ClearAll | Assets/Scripts/MarketSystem.cs:85-93 | every good's column becomes that column cleared against the good's asks and bids, and the money map holds every good's money changes, good after good; they sum to zero over the agents and every quantity stays at least zero |
| Market.Trade | Assets/Scripts/MarketSystem.cs:65-98 | for archetypes whose recipes name each consume good once and non-negative starting inventories (`Tradable`, which the source does not check): the buffers, agents and wallets become `Traded` of what they were; the lists hold every agent's offers on the produced buffers and the money map the changes clearing recorded; the agents' total money, every archetype and non-negative quantities are kept |
| Market.ProduceStep | Assets/Scripts/MarketSystem.cs:65-73 | the buffers and agents become `AfterProduction` of the books: each agent's own `ProcessAgentLogic` |
| Market.OfferClearSettleAll | Assets/Scripts/MarketSystem.cs:75-98 | from the produced buffers, offers, clearing and settlement bring the books to `Traded` of the books before production, with the lists and the money map as `TickDecisions` and `TickDeltas` give them |
| Market.OfferClearSettle | Assets/Scripts/MarketSystem.cs:75-98 | the lists hold every agent's decisions in agent order, every column is cleared against them, the money map holds clearing's changes and every wallet takes in its agent's changes |
| Market.PlaceStep | Assets/Scripts/MarketSystem.cs:75-83 | the lists hold every agent's decisions in agent order, and for every good they hold what `PlacedAsks` and `PlacedBids` place; the buffers are unchanged |
| Market.ClearSettle | Assets/Scripts/MarketSystem.cs:85-98 | the buffers become the cleared columns, the money map holds clearing's changes and every wallet takes in its agent's changes; the lists are unchanged |
| Market.ClearStep | Assets/Scripts/MarketSystem.cs:85-93 | the buffers become the columns cleared against lists that agree good by good with the placed ones, and the money map holds those changes |
| Market.SettleStep | Assets/Scripts/MarketSystem.cs:95-98 | every wallet's money grows by the sum of its agent's changes, and the buffers are unchanged |
| Market.AfterProduction | Assets/Scripts/MarketSystem.cs:183-301 | for `Tradable` books (recipes that name each consume good once, non-negative starting rows; the source checks neither): every agent's row and record are those of its own `ProcessAgentLogic`, the wallets are untouched, and every row stays non-negative with the archetype kept |
| Market.PlacedClearable | Assets/Scripts/MarketSystem.cs:75-93 | the offers every agent's decisions place on non-negative rows are lists clearing accepts |
| Market.ProducedOfferable | Assets/Scripts/MarketSystem.cs:65-93 | after production every agent meets offer generation's premises, and the offers it places can be cleared |
| Market.PlacedAgree | Assets/Scripts/MarketSystem.cs:75-83 | lists filled agent by agent from empty ones hold, good by good, what `PlacedAsks` and `PlacedBids` give |
| Market.SettledConservesMoney | Assets/Scripts/MarketSystem.cs:85-98 | settling the changes of clearing every good leaves the agents' total money unchanged |
| Market.TradedConservesMoney | Assets/Scripts/MarketSystem.cs:65-98 | a trading tick keeps the number of wallets and the agents' total money |
| Market.TradedKeepsShape | Assets/Scripts/MarketSystem.cs:65-98 | a trading tick keeps every row's width, keeps quantities non-negative, keeps every agent's archetype and changes no wallet field but the money |
| Market.ColumnsTransposeContents | Assets/Scripts/MarketSystem.cs:433-493 | the per-good columns clearing reads are the transpose of the per-agent buffers |
| Memories.PartitionByAge | Assets/Scripts/MarketSystem.cs:327-338 | every memory goes to exactly one side: forgotten and retained together are the memories |
| Memories.SidesByAge | Assets/Scripts/MarketSystem.cs:327-331 | forgotten memories are more than 10 frames old, and retained ones are not |
| Memories.LowestHighestBound | Assets/Scripts/MarketSystem.cs:335-336 | the lowest and highest retained prices bound every retained price, and each is attained |
| Memories.MeanBetween | Assets/Scripts/MarketSystem.cs:333-336 | the mean of the retained prices lies between their lowest and highest |
| Memories.IncrementalMean | Assets/Scripts/MarketSystem.cs:333 | one incremental-average step turns n copies of the average plus the new price into n + 1 copies of the new average |
| Memories.SummarizeOrdered | Assets/Scripts/MarketSystem.cs:341 | the statistics one agent writes are ordered: minimum <= mean <= maximum |
| Memories.FoldAccumulates | Assets/Scripts/MarketSystem.cs:320-336 | the accumulators after the retained prices hold their count, their mean (as a sum), their minimum and their maximum |
| Memories.FoldMean | Assets/Scripts/MarketSystem.cs:333 | the incremental average, counted once per price, is the sum of the prices |
| Memories.FoldRange | Assets/Scripts/MarketSystem.cs:335-336 | the running minimum and maximum are the lowest and highest price |
| Memories.Accumulate | Assets/Scripts/MarketSystem.cs:333-336 | taking in one retained price moves the accumulators as the fold does |
| Memories.AverageIsMean | Assets/Scripts/MarketSystem.cs:333 | once some price is retained, the average accumulator is their arithmetic mean |
| Memories.VisitMemories | Assets/Scripts/MarketSystem.cs:325-339 | old memories are enqueued as forgotten, in order; the rest go to the revisionist map under the agent; the accumulators hold their count, mean, minimum and maximum |
| Memories.FoldHistory | Assets/Scripts/MarketSystem.cs:315-342 | one agent's memories are split by age: the old ones are queued as forgotten and the rest added under the agent; the retained mean, minimum and maximum are stored under the agent's `Slot` (good 0 as written) |
| Memories.SummarizeWritesItsGood | Assets/Scripts/MarketSystem.cs:315-342 | for an agent whose memories all name good g, some of them recent, the corrected fold replaces exactly g's statistics with the recent prices' mean, minimum and maximum, and the fold as written puts them on good 0 |
| Memories.AsWrittenStoresUnderGoodZero | Assets/Scripts/MarketSystem.cs:341 | one recent memory of good 3 at price 5: as written good 0 gets (5, 5, 5) and good 3 keeps its statistics; corrected, good 3 gets them |
| Memories.FoldMixesGoods | Assets/Scripts/MarketSystem.cs:320-341 | two recent memories of goods 1 and 2 at prices 2 and 10 are folded into the single statistic (6, 2, 10): the corrected index stores it for good 2 and leaves good 1 unchanged, and as written it goes to good 0 |
| Memories.SummarizeAllOrdered | Assets/Scripts/MarketSystem.cs:315-342 | ordered statistics (minimum <= mean <= maximum) stay ordered through every agent's fold |
| Memories.SummarizeAllFrame | Assets/Scripts/MarketSystem.cs:315-342 | a good that is the `Slot` of no agent with a retained memory keeps its statistics through every agent's fold |
| Memories.AsWrittenTouchesOnlyGoodZero | Assets/Scripts/MarketSystem.cs:341 | as written, no good but good 0 ever has its statistics changed by `CalculateHistories` |
| Memories.CalculateHistories | Assets/Scripts/MarketSystem.cs:305-343 | every agent in turn: forgotten memories queued in agent order, retained ones added to the revisionist map under the agent, statistics as every agent's fold in turn leaves them; the history is unchanged |
| Memories.FoldedStep | Assets/Scripts/MarketSystem.cs:315-342 | folding one more agent extends the queue, the revisionist map and the statistics of the agents before it by that agent's share |
| Memories.AssignGoodData | Assets/Scripts/MarketSystem.cs:355-364 | every good takes the mean, minimum and maximum computed for its index, and stays `Equals` to what it was |
| Memories.AddAll | Assets/Scripts/MarketSystem.cs:540-543 | the values are appended under the agent in order; every other key is unchanged |
| Memories.RewriteHistory | Assets/Scripts/MarketSystem.cs:535-544 | every agent's revisionist memories are appended to its history; other keys are unchanged |
| Memories.ResetMultiHashMaps | Assets/Scripts/MarketSystem.cs:520-526 | the asks, the bids, the money deltas and the history are all empty |
| Memories.CleanStarting | Assets/Scripts/MarketSystem.cs:553-557 | the forgotten queue and the revisionist map are empty |
| Tick.OnUpdate | Assets/Scripts/MarketSystem.cs:36-115 | a whole tick, for archetypes whose recipes name each consume good once and non-negative starting inventories (`Tradable`): the statistics are those of every agent's fold over the old history and are copied into the goods; the forgotten memories are queued; the revisionist map holds exactly each agent's retained memories; the buffers, agents and wallets become `Traded` of what they were over the goods so updated; the agents' total money is unchanged; quantities stay non-negative; the offer and money maps end empty; the history ends empty as written, and holds exactly each agent's retained memories when corrected |
| Tick.TradeAndRewrite | Assets/Scripts/MarketSystem.cs:65-112 | the books become `Traded` of what they were, then the history is rewritten from the revisionist map and the offer and money maps are emptied |
| Tick.Recall | Assets/Scripts/MarketSystem.cs:42-63 | the history is read but unchanged; the statistics are computed and copied into the goods; the revisionist map holds exactly every agent's retained memories |
| Tick.Rewrite | Assets/Scripts/MarketSystem.cs:100-112 | the offer and money maps end empty; as written, the reset runs after the write-back and the history ends empty; with the reset first, each agent's history is its revisionist memories |
| Tick.RewriteStep | Assets/Scripts/MarketSystem.cs:100-112 | the history and the per-tick maps end as `Rewrite` leaves them, and the inventory buffers stay as they were |
| Tick.EmptyHistoryKeepsStatistics | Assets/Scripts/MarketSystem.cs:100-112 | with an empty history, the statistics pass changes nothing and forgets nothing |

## Left out

- Job scheduling, Burst, `.ToConcurrent()` and parallel writes: the job graph of `OnUpdate` (MarketSystem.cs:36-115) is concurrency plumbing. The phases are sequential calls in dependency order. `ProcessAgentLogic` depends only on the input handle (MarketSystem.cs:73), so it may run beside the history jobs; the two touch disjoint data, and the model runs the history jobs first. The offers, money changes and revisionist memories that parallel jobs append are taken to arrive in agent (or good) order.
- `Debug.Break()` (MarketSystem.cs:38) is development instrumentation.
- The hard-coded roster of seventeen agents (InitializeMarket.cs:118-138) is debug data. Only `CreateAgent` is modelled.
- File enumeration and JSON parsing (InitializeMarket.cs:15-19, 39-42; Logic.cs:113-116; Good.cs:50-53) are I/O. Their results are the inputs `jsons` and `json`.
- `EntityManager`, `AddBuffer` and the command-buffer write of `AssignGoodData` (MarketSystem.cs:363) are framework calls. Buffers are sequences and arrays; only the array copy is kept.
- `OnCreate` (MarketSystem.cs:117-153) and `OnStopRunning` (MarketSystem.cs:155-166) are allocation, two fake history entries per good and agent, and disposal. They are framework set-up.
- CameraCode.cs is UI and input handling. It is not part of this model.
- Floating point: prices are real numbers, with no rounding, NaN or signed zero. `InvContent.Quantity` is a float in Inventory.cs, but the engine uses it as whole units, so the model makes it an integer.
- Offers.BandPosition: an empty band (maximum == minimum) divides by zero in the source. The model gives the values the source's infinities clamp to, and a fraction of 1 for the 0/0 case, which ends in the same one-unit bid.
- Memories.CalculateHistories: both branches fold all of an agent's memories into one mean, minimum and maximum, as the code does, whatever good each memory names. Every agent's history holds memories of every good: `OnCreate` pushes two per good (MarketSystem.cs:140-146), and the first field is the good index (:30). So the corrected branch only moves that blended statistic from good 0 to the good of the last memory (`Memories.FoldMixesGoods`). Per-good statistics are not modelled: one mean, minimum and maximum per good from that good's memories, as the one-entry-per-good `goodsData` (MarketSystem.cs:311, filled per good by `AssignGoodData` at :355-364) and the good-index field of a memory (:30-31) suggest.
- Memories.CalculateHistories: the ±Infinity start values of the minimum and maximum (MarketSystem.cs:322-323) are replaced by "the first retained price sets both". `goodsData` is written only when some memory is retained; the source also writes (average 0 and ±Infinity) when every memory is forgotten.
- Memories.SummarizeAllFrame: it says which goods keep their statistics. Which agent's statistics an overwritten good ends with (the last agent whose fold writes it) follows from the definition of `SummarizeAll`; no separate lemma states it.
- Clearing.Clear: the order in which a good's bids are served is chosen by the model: agent order. The source appends bids from parallel jobs (MarketSystem.cs:75-83), and `NativeMultiHashMap` walks a key's values from the most recently added (MarketSystem.cs:452-457); so the code fixes no order, and the model picks one.
- Tick.OnUpdate: the tick (and `Market.Trade`) is modelled only for archetypes whose recipes name each consume good once and for non-negative starting inventories (`Tradable`). The source checks neither. A recipe naming one good twice is checked and scaled entry by entry against the same stock, so it can consume past zero (MarketSystem.cs:239-244, 256-275, 287). A buyer holding −t units that buys t units then divides by zero in the price average (MarketSystem.cs:485-486).
- Market.Trade: modelled only for `Tradable` books, for the reason given on the `Tick.OnUpdate` line above; outside them the source can consume past zero and divide by zero (MarketSystem.cs:485-486).
- Market.UpkeepAll: its non-negativity holds only when every recipe names each consume good once and the starting inventories are non-negative, as on the `Tick.OnUpdate` line above; the source checks neither.
- Market.AfterProduction: defined only for `Tradable` books, as on the `Tick.OnUpdate` line above; the source checks neither premise.
- Clearing.SortByCostDescending: the model's sort is a stable insertion sort. `NativeArray.Sort` (MarketSystem.cs:459-460) is an introsort, stable only up to 16 elements, so asks with equal costs may be cleared in a different order. The sorted result agrees on costs, and it holds the same offers.
- Goods.NewGood: `spaceOccupied` is never set, so it is 0 for every good loaded (Good.cs:12-16). Hence `StartInventory`'s size counter is always 0 (`Initialize.NoSpaceUsed`), and a good is refused a bid as `NoSpace` only when the agent's inventory is already over its maximum size.
- Mathf.RoundToInt: rounds half to even; its contract states only the half-unit bound. `Mathf.Clamp` is written out in `ClampInt`.
- Wallet.GetHashCode (Agent.cs:46-55) hashes floats with unchecked overflow, and the `ToString` methods (Logic.cs:95-98, Inventory.cs:15-18) only format text. Neither is modelled.
- `Random.NextFloat` (MarketSystem.cs:284): the rolls are an input sequence.
- `InvStats` (InitializeMarket.cs:36, 67, 82, 151) is a type this model does not include. CreateAgent copies the inventory only.
- `startingUsedSpace` (InitializeMarket.cs:91) is stored but never read; `StartInventory` returns the size counter instead.
- Initialize: looking up an unknown good name throws in the source. The model requires every name to be in the catalogue (`KnownValues`, `KnownLogic`), and `IndexGoods` requires distinct names, because `Dictionary.Add` throws on a repeated one.
- ResolveOffers receives `goodHistory` and `currentFrame`, but never uses them (MarketSystem.cs:426-428). The model has no such parameters.
- Fields that the code reads but the source's records do not declare are plain fields of the model's datatypes: `Agent.Starving`, `Good.Mean`, `Minimum`, `Maximum` and `SpaceOccupied`, and `Inventory.MaxSize` and `Occupied`. The agent's id is a field because InitializeMarket.cs:148 passes one. The model makes `InvContent` two fields, although InitializeMarket.cs:75 calls it with three arguments. `Agent.Starving` is never cleared, as in the source.
- Frames are unbounded integers; `Time.frameCount` is an input.

## Findings

| source | as written | input that shows it | evidently intended | confidence | as-written member | corrected member |
|---|---|---|---|---|---|---|
| Assets/Scripts/MarketSystem.cs:462-492 | `buyer` and `seller` are copies of the head offers; units are taken off the copies, and no offer is ever removed, so the loop condition never becomes false | one ask (agent 0, 1 unit, cost 2) and one bid (agent 1, 1 unit): every pass matches the same two offers again and pays the seller 2 once more | take the traded units off the head offers, drop exhausted ones, stop when one side is empty | high (not executed) | Clearing.PassesAsWritten, Clearing.AsWrittenPaysTwiceForOneUnit | Clearing.Clear, Clearing.ClearConservesMoney |
| Assets/Scripts/MarketSystem.cs:483-487 | the buyer's updated cell is computed but never stored back | the same input: the buyer pays, but its quantity stays 0 | store the buyer's cell, as the seller's is stored at line 481 | high (not executed) | Clearing.TradeAsWritten | Clearing.TradeCells |
| Assets/Scripts/MarketSystem.cs:100-112 | `ResetMultiHashMaps` depends on `RewriteHistory`, so it clears the history just rebuilt | any tick with a retained memory: the history ends the tick empty, and every later tick computes no statistics | clear the history first, then write back the retained memories | medium (not executed) | Tick.Rewrite, Tick.EmptyHistoryKeepsStatistics | Tick.OnUpdate |
| Assets/Scripts/MarketSystem.cs:339-341 | after the loop `meanData` holds what the failing `TryGetNextValue` wrote, the default value, so `goodsData[Mathf.RoundToInt(meanData.x)]` is always `goodsData[0]` | one agent with one memory of good 3 at price 5.0 from frame 100, at frame 100: good 0 gets the statistics (5, 5, 5) and good 3 keeps its own | store the statistics under a good's index; the model's corrected member repairs the index alone, storing under the good of the last memory visited, and still blends all of the agent's goods (see "## Left out") | medium (not executed) | Memories.AsWrittenStoresUnderGoodZero, Memories.AsWrittenTouchesOnlyGoodZero | Memories.SummarizeWritesItsGood |
