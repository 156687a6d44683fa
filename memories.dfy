/** The history fold of the market tick: `CleanStarting`, `CalculateHistories`,
    `AssignGoodData`, `RewriteHistory` and `ResetMultiHashMaps`. Every agent remembers the
    prices it has seen; memories older than ten frames are forgotten and the rest give each
    good its mean, minimum and maximum price. */
module Memories {
  import opened Goods
  import opened MultiMaps
  import opened Offers

  /** One remembered observation (a `float3`): x is the good's index, y the price seen and z
      the frame it was recorded in. The index and the frame are whole numbers stored as floats,
      so both are integers here and rounding the index back is the identity. */
  datatype Memory = Memory(good: int, value: real, frame: int)

  /** The statistics of one good (a `float3`): mean, minimum and maximum. */
  datatype GoodData = GoodData(mean: real, minimum: real, maximum: real)

  /** How many frames back a memory is kept. */
  const LookBack: int := 10

  /** A memory is forgotten once it is more than `LookBack` frames old. */
  predicate Forgets(frame: int, e: Memory)
  {
    frame - e.frame > LookBack
  }

  function Forgotten(frame: int, es: seq<Memory>): seq<Memory>
  {
    if es == [] then []
    else Forgotten(frame, es[..|es| - 1]) + (if Forgets(frame, es[|es| - 1]) then [es[|es| - 1]] else [])
  }

  function Retained(frame: int, es: seq<Memory>): seq<Memory>
  {
    if es == [] then []
    else Retained(frame, es[..|es| - 1]) + (if Forgets(frame, es[|es| - 1]) then [] else [es[|es| - 1]])
  }

  /** Every memory goes to exactly one side: together the forgotten and the retained
      memories are the memories themselves. */
  lemma {:induction false} PartitionByAge(frame: int, es: seq<Memory>)
    ensures multiset(Forgotten(frame, es)) + multiset(Retained(frame, es)) == multiset(es)
    decreases |es|
  {
    if es != [] {
      var init := es[..|es| - 1];
      var e := es[|es| - 1];
      PartitionByAge(frame, init);
      assert es == init + [e];
      assert multiset(es) == multiset(init) + multiset{e};
      var f, r := Forgotten(frame, init), Retained(frame, init);
      if Forgets(frame, e) {
        assert multiset(f + [e]) == multiset(f) + multiset{e};
      } else {
        assert multiset(r + [e]) == multiset(r) + multiset{e};
      }
    }
  }

  /** The forgotten memories are the old ones, and the retained ones the recent ones. */
  lemma {:induction false} SidesByAge(frame: int, es: seq<Memory>)
    ensures forall i :: 0 <= i < |Forgotten(frame, es)| ==> Forgets(frame, Forgotten(frame, es)[i])
    ensures forall i :: 0 <= i < |Retained(frame, es)| ==> !Forgets(frame, Retained(frame, es)[i])
    decreases |es|
  {
    if es != [] {
      SidesByAge(frame, es[..|es| - 1]);
    }
  }

  /** The sum of the prices remembered. */
  function ValueSum(rs: seq<Memory>): real
  {
    if rs == [] then 0.0 else ValueSum(rs[..|rs| - 1]) + rs[|rs| - 1].value
  }

  /** The arithmetic mean of the prices remembered. */
  function Mean(rs: seq<Memory>): real
    requires rs != []
  {
    ValueSum(rs) / |rs| as real
  }

  function Lowest(rs: seq<Memory>): real
    requires rs != []
  {
    if |rs| == 1 then rs[0].value else RealMin(Lowest(rs[..|rs| - 1]), rs[|rs| - 1].value)
  }

  function Highest(rs: seq<Memory>): real
    requires rs != []
  {
    if |rs| == 1 then rs[0].value else RealMax(Highest(rs[..|rs| - 1]), rs[|rs| - 1].value)
  }

  function RealMin(a: real, b: real): real
  {
    if a < b then a else b
  }

  function RealMax(a: real, b: real): real
  {
    if a > b then a else b
  }

  /** The lowest and highest prices are a lower and an upper bound that some memory attains. */
  lemma {:induction false} LowestHighestBound(rs: seq<Memory>)
    requires rs != []
    ensures forall i :: 0 <= i < |rs| ==> Lowest(rs) <= rs[i].value <= Highest(rs)
    ensures exists i :: 0 <= i < |rs| && Lowest(rs) == rs[i].value
    ensures exists i :: 0 <= i < |rs| && Highest(rs) == rs[i].value
    decreases |rs|
  {
    if |rs| == 1 {
      assert Lowest(rs) == rs[0].value && Highest(rs) == rs[0].value;
    } else {
      var init := rs[..|rs| - 1];
      var last := |rs| - 1;
      LowestHighestBound(init);
      assert forall i :: 0 <= i < |init| ==> init[i] == rs[i];
      var lo :| 0 <= lo < |init| && Lowest(init) == init[lo].value;
      var hi :| 0 <= hi < |init| && Highest(init) == init[hi].value;
      if Lowest(init) < rs[last].value {
        assert Lowest(rs) == rs[lo].value;
      } else {
        assert Lowest(rs) == rs[last].value;
      }
      if Highest(init) > rs[last].value {
        assert Highest(rs) == rs[hi].value;
      } else {
        assert Highest(rs) == rs[last].value;
      }
    }
  }

  /** `n` copies of `x` added up. */
  function Times(n: nat, x: real): real
  {
    if n == 0 then 0.0 else Times(n - 1, x) + x
  }

  lemma {:induction false} TimesMonotone(n: nat, a: real, b: real)
    requires a <= b
    ensures Times(n, a) <= Times(n, b)
  {
    if n > 0 {
      TimesMonotone(n - 1, a, b);
    }
  }

  lemma {:induction false} TimesIsProduct(n: nat, x: real)
    ensures Times(n, x) == n as real * x
  {
    if n > 0 {
      TimesIsProduct(n - 1, x);
      assert n as real * x == (n - 1) as real * x + x;
    }
  }

  /** One more memory: its price joins the sum and moves the lowest and highest outward. */
  lemma {:induction false} ExtendOne(rs: seq<Memory>)
    requires |rs| > 1
    ensures ValueSum(rs) == ValueSum(rs[..|rs| - 1]) + rs[|rs| - 1].value
    ensures Lowest(rs) <= Lowest(rs[..|rs| - 1]) && Lowest(rs) <= rs[|rs| - 1].value
    ensures Highest(rs[..|rs| - 1]) <= Highest(rs) && rs[|rs| - 1].value <= Highest(rs)
  {
  }

  /** The sum lies between |rs| copies of the lowest and |rs| copies of the highest price. */
  lemma {:induction false} SumBetween(rs: seq<Memory>)
    requires rs != []
    ensures Times(|rs|, Lowest(rs)) <= ValueSum(rs) <= Times(|rs|, Highest(rs))
    decreases |rs|
  {
    if |rs| > 1 {
      var init := rs[..|rs| - 1];
      SumBetween(init);
      ExtendOne(rs);
      TimesMonotone(|init|, Lowest(rs), Lowest(init));
      TimesMonotone(|init|, Highest(init), Highest(rs));
    } else {
      assert ValueSum(rs) == ValueSum(rs[..0]) + rs[0].value;
    }
  }

  /** A quotient by a positive count keeps the bounds of its numerator. */
  lemma {:induction false} QuotientBetween(n: real, s: real, lo: real, hi: real)
    requires n > 0.0 && n * lo <= s <= n * hi
    ensures lo <= s / n <= hi
  {
    assert s / n - lo == (s - n * lo) / n;
    assert hi - s / n == (n * hi - s) / n;
  }

  /** The mean lies between the lowest and the highest price. */
  lemma {:induction false} MeanBetween(rs: seq<Memory>)
    requires rs != []
    ensures Lowest(rs) <= Mean(rs) <= Highest(rs)
  {
    SumBetween(rs);
    MeanBound(|rs|, ValueSum(rs), Lowest(rs), Highest(rs));
  }

  lemma {:induction false} MeanBound(n: nat, s: real, lo: real, hi: real)
    requires n > 0 && Times(n, lo) <= s <= Times(n, hi)
    ensures lo <= s / n as real <= hi
  {
    TimesIsProduct(n, lo);
    TimesIsProduct(n, hi);
    QuotientBetween(n as real, s, lo, hi);
  }

  /** One step of the incremental average: if `n` copies of `a` add up to some sum, then
      `n + 1` copies of `a + (p - a) / (n + 1)` add up to that sum plus `p`. */
  lemma {:induction false} IncrementalMean(a: real, n: nat, p: real)
    ensures Times(n + 1, a + (p - a) / (n + 1) as real) == Times(n, a) + p
  {
    var m := (n + 1) as real;
    var a' := a + (p - a) / m;
    TimesIsProduct(n + 1, a');
    TimesIsProduct(n, a);
    assert (p - a) / m * m == p - a;
    calc {
      m * a';
      m * a + (p - a) / m * m;
      m * a + (p - a);
      n as real * a + p;
    }
  }


  /** Every memory names a good that `goodsData` holds. */
  predicate GoodsIn(es: seq<Memory>, n: int)
  {
    forall i :: 0 <= i < |es| ==> 0 <= es[i].good < n
  }

  /** The index an agent's statistics are stored under. After the loop, `meanData` holds the
      `out` value of the `TryGetNextValue` call that failed, and a failing call sets it to the
      default `float3`; so as written the index is always 0. The corrected index is a minimal
      repair of the index alone: the good of the last memory visited. Both fold every memory
      of the agent, whatever its good, into one statistic (`FoldMixesGoods`). */
  function Slot(es: seq<Memory>, asWritten: bool): (r: int)
    requires es != []
  {
    if asWritten then 0 else es[|es| - 1].good
  }

  /** What one agent's fold does to the good statistics: when some memory is retained, the
      good at `Slot` gets the mean, minimum and maximum of the retained prices. */
  function Summarize(gd: seq<GoodData>, frame: int, es: seq<Memory>, asWritten: bool): (r: seq<GoodData>)
    requires GoodsIn(es, |gd|)
    ensures |r| == |gd|
  {
    var rs := Retained(frame, es);
    if rs == [] then gd
    else gd[Slot(es, asWritten) := GoodData(Mean(rs), Lowest(rs), Highest(rs))]
  }

  /** When every memory of the agent is of one good `g` and some are recent, the corrected
      fold replaces exactly that good's statistics by the mean, minimum and maximum of the
      recent prices, and as written the same statistics land on good 0 instead. */
  lemma {:induction false} SummarizeWritesItsGood(gd: seq<GoodData>, frame: int, es: seq<Memory>, g: int)
    requires GoodsIn(es, |gd|) && 0 <= g < |gd|
    requires forall i :: 0 <= i < |es| ==> es[i].good == g
    requires Retained(frame, es) != []
    ensures var rs := Retained(frame, es);
      Summarize(gd, frame, es, false) == gd[g := GoodData(Mean(rs), Lowest(rs), Highest(rs))] &&
      Summarize(gd, frame, es, true) == gd[0 := GoodData(Mean(rs), Lowest(rs), Highest(rs))]
  {
    assert Slot(es, false) == g;
  }

  /** One agent, one recent memory of good 3 at price 5: as written the statistics (5, 5, 5)
      are stored for good 0 and good 3 keeps its own; the corrected fold stores them for good 3. */
  lemma {:induction false} AsWrittenStoresUnderGoodZero(z: GoodData)
    ensures HistoryIn(map[0 := [Memory(3, 5.0, 100)]], 1, 4)
    ensures Summarize([z, z, z, z], 100, [Memory(3, 5.0, 100)], true) == [GoodData(5.0, 5.0, 5.0), z, z, z]
    ensures Summarize([z, z, z, z], 100, [Memory(3, 5.0, 100)], false) == [z, z, z, GoodData(5.0, 5.0, 5.0)]
  {
    var es := [Memory(3, 5.0, 100)];
    assert ValuesOf(map[0 := es], 0) == es;
    assert Retained(100, es) == Retained(100, es[..0]) + [es[0]];
    assert Retained(100, es) == es;
    assert ValueSum(es) == ValueSum(es[..0]) + 5.0;
    assert Mean(es) == 5.0 && Lowest(es) == 5.0 && Highest(es) == 5.0;
  }

  /** One agent, two recent memories of different goods, good 1 at price 2 and good 2 at
      price 10: both folds blend the two prices into one statistic (6, 2, 10). The corrected
      index stores it for good 2 and leaves good 1 as it was; as written it goes to good 0. */
  lemma {:induction false} FoldMixesGoods(z: GoodData)
    ensures HistoryIn(map[0 := [Memory(1, 2.0, 100), Memory(2, 10.0, 100)]], 1, 3)
    ensures Summarize([z, z, z], 100, [Memory(1, 2.0, 100), Memory(2, 10.0, 100)], false) ==
      [z, z, GoodData(6.0, 2.0, 10.0)]
    ensures Summarize([z, z, z], 100, [Memory(1, 2.0, 100), Memory(2, 10.0, 100)], true) ==
      [GoodData(6.0, 2.0, 10.0), z, z]
  {
    var es := [Memory(1, 2.0, 100), Memory(2, 10.0, 100)];
    assert ValuesOf(map[0 := es], 0) == es;
    TwoRecentPrices(es);
    assert Slot(es, false) == 2;
  }

  /** The statistics of memories (good 1, price 2) and (good 2, price 10), both recent at
      frame 100: both are retained, with mean 6, minimum 2 and maximum 10. */
  lemma {:induction false} TwoRecentPrices(es: seq<Memory>)
    requires es == [Memory(1, 2.0, 100), Memory(2, 10.0, 100)]
    ensures Retained(100, es) == es
    ensures Mean(es) == 6.0 && Lowest(es) == 2.0 && Highest(es) == 10.0
  {
    var e1 := es[..1];
    assert e1[..0] == [] && e1 == [es[0]] && es[..|es| - 1] == e1;
    assert Retained(100, e1) == [es[0]];
    assert Retained(100, es) == Retained(100, e1) + [es[1]];
    assert ValueSum(e1) == 2.0;
    assert ValueSum(es) == ValueSum(e1) + 10.0;
    assert Lowest(e1) == 2.0 && Highest(e1) == 2.0;
  }

  /** The statistics a summary writes are ordered: minimum <= mean <= maximum. */
  lemma {:induction false} SummarizeOrdered(gd: seq<GoodData>, frame: int, es: seq<Memory>, asWritten: bool, g: int)
    requires GoodsIn(es, |gd|) && 0 <= g < |gd|
    requires gd[g].minimum <= gd[g].mean <= gd[g].maximum
    ensures var r := Summarize(gd, frame, es, asWritten); r[g].minimum <= r[g].mean <= r[g].maximum
  {
    var rs := Retained(frame, es);
    if rs != [] {
      MeanBetween(rs);
    }
  }

  lemma {:induction false} RetainedPrefix(frame: int, es: seq<Memory>, i: nat)
    requires i < |es|
    ensures Forgets(frame, es[i]) ==>
      Forgotten(frame, es[..i + 1]) == Forgotten(frame, es[..i]) + [es[i]] &&
      Retained(frame, es[..i + 1]) == Retained(frame, es[..i])
    ensures !Forgets(frame, es[i]) ==>
      Forgotten(frame, es[..i + 1]) == Forgotten(frame, es[..i]) &&
      Retained(frame, es[..i + 1]) == Retained(frame, es[..i]) + [es[i]]
  {
    assert es[..i + 1][..i] == es[..i];
    assert Forgotten(frame, es[..i]) + [] == Forgotten(frame, es[..i]);
    assert Retained(frame, es[..i]) + [] == Retained(frame, es[..i]);
  }

  /** The running accumulators of the fold stand for the retained prices `rs`: their count,
      their mean (as count copies of the mean add up to the sum), and their minimum and
      maximum. */
  predicate Accumulates(average: real, transactions: int, minimum: real, maximum: real, rs: seq<Memory>)
  {
    transactions == |rs| && Times(|rs|, average) == ValueSum(rs) &&
    (rs != [] ==> minimum == Lowest(rs) && maximum == Highest(rs))
  }

  /** The accumulators after the retained prices `rs` are taken in one at a time: the count
      goes up by one, the average moves by (p - average) over the new count, and the minimum
      and maximum take the price in (the first price sets both). */
  function Fold(rs: seq<Memory>): (r: (real, int, real, real))
    ensures r.1 == |rs|
  {
    if rs == [] then (0.0, 0, 0.0, 0.0) else Step(Fold(rs[..|rs| - 1]), rs[|rs| - 1].value)
  }

  /** One retained price `p` joins the accumulators: the count goes up by one, the average
      moves towards `p` by its share, and the first price sets the minimum and maximum. */
  function Step(acc: (real, int, real, real), p: real): (real, int, real, real)
    requires acc.1 >= 0
  {
    var (average, transactions, minimum, maximum) := acc;
    var count := transactions + 1;
    (average + (p - average) / count as real, count,
     if count == 1 then p else RealMin(minimum, p),
     if count == 1 then p else RealMax(maximum, p))
  }

  /** The incremental fold computes the count, the mean (as a sum), the minimum and the
      maximum of the prices it has taken in. */
  lemma {:induction false} FoldAccumulates(rs: seq<Memory>)
    ensures Accumulates(Fold(rs).0, Fold(rs).1, Fold(rs).2, Fold(rs).3, rs)
  {
    FoldMean(rs);
    FoldRange(rs);
  }

  /** The fold's average, counted `|rs|` times, is the sum of the prices. */
  lemma {:induction false} FoldMean(rs: seq<Memory>)
    ensures Times(|rs|, Fold(rs).0) == ValueSum(rs)
    decreases |rs|
  {
    if rs != [] {
      var init := rs[..|rs| - 1];
      var p := rs[|rs| - 1].value;
      FoldMean(init);
      var average := Fold(init).0;
      IncrementalMean(average, |init|, p);
      assert Fold(rs).0 == average + (p - average) / (|init| + 1) as real;
    }
  }

  /** The fold's minimum and maximum are the lowest and the highest price. */
  lemma {:induction false} FoldRange(rs: seq<Memory>)
    ensures rs != [] ==> Fold(rs).2 == Lowest(rs) && Fold(rs).3 == Highest(rs)
    decreases |rs|
  {
    if |rs| > 1 {
      FoldRange(rs[..|rs| - 1]);
    }
  }


  /** One retained price joins the accumulators, as the fold takes it in. */
  method Accumulate(average: real, transactions: int, minimum: real, maximum: real, e: Memory,
                    ghost rs: seq<Memory>)
    returns (average': real, transactions': int, minimum': real, maximum': real)
    requires (average, transactions, minimum, maximum) == Fold(rs)
    ensures (average', transactions', minimum', maximum') == Fold(rs + [e])
  {
    assert (rs + [e])[..|rs|] == rs;
    assert Fold(rs + [e]) == Step(Fold(rs), e.value);
    transactions' := transactions + 1;
    average' := average + (e.value - average) / transactions' as real;
    minimum' := if transactions' == 1 then e.value else RealMin(minimum, e.value);
    maximum' := if transactions' == 1 then e.value else RealMax(maximum, e.value);
  }

  /** Once some price is retained, the average accumulator is their mean. */
  lemma {:induction false} AverageIsMean(average: real, transactions: int, minimum: real, maximum: real, rs: seq<Memory>)
    requires Accumulates(average, transactions, minimum, maximum, rs) && rs != []
    ensures average == Mean(rs)
  {
    TimesIsProduct(|rs|, average);
    var n := |rs| as real;
    assert average * n == ValueSum(rs);
    assert average == average * n / n;
  }

  lemma {:induction false} AppendAssoc<T>(a: seq<T>, b: seq<T>, x: T)
    ensures (a + b) + [x] == a + (b + [x])
  {
  }

  lemma {:induction false} ConcatAssoc<T>(a: seq<T>, b: seq<T>, c: seq<T>)
    ensures (a + b) + c == a + (b + c)
  {
  }

  /** The loop of `CalculateHistories` over one agent's memories `es`: old ones are enqueued on
      `forgotten`, recent ones added to the agent's `revisionist` entry and folded into the
      accumulators. */
  method VisitMemories(entity: nat, frame: int, es: seq<Memory>, forgotten: Queue<Memory>,
                       revisionist: MultiMap<nat, Memory>)
    returns (average: real, transactions: int, minimum: real, maximum: real)
    modifies forgotten, revisionist
    ensures Accumulates(average, transactions, minimum, maximum, Retained(frame, es))
    ensures forgotten.items == old(forgotten.items) + Forgotten(frame, es)
    ensures ValuesOf(revisionist.entries, entity) == ValuesOf(old(revisionist.entries), entity) + Retained(frame, es)
    ensures forall k: nat :: k != entity ==> ValuesOf(revisionist.entries, k) == ValuesOf(old(revisionist.entries), k)
  {
    average, transactions, minimum, maximum := 0.0, 0, 0.0, 0.0;
    var i := 0;
    ghost var kept: seq<Memory> := [];
    ghost var lost: seq<Memory> := [];
    while i < |es|
      invariant 0 <= i <= |es|
      invariant kept == Retained(frame, es[..i]) && lost == Forgotten(frame, es[..i])
      invariant (average, transactions, minimum, maximum) == Fold(kept)
      invariant forgotten.items == old(forgotten.items) + lost
      invariant ValuesOf(revisionist.entries, entity) == ValuesOf(old(revisionist.entries), entity) + kept
      invariant forall k: nat :: k != entity ==> ValuesOf(revisionist.entries, k) == ValuesOf(old(revisionist.entries), k)
    {
      var meanData := es[i];
      RetainedPrefix(frame, es, i);
      if Forgets(frame, meanData) {
        AppendAssoc(old(forgotten.items), lost, meanData);
        forgotten.Enqueue(meanData);
        lost := lost + [meanData];
      } else {
        average, transactions, minimum, maximum :=
          Accumulate(average, transactions, minimum, maximum, meanData, kept);
        AppendAssoc(ValuesOf(old(revisionist.entries), entity), kept, meanData);
        revisionist.Add(entity, meanData);
        kept := kept + [meanData];
      }
      i := i + 1;
    }
    assert es[..i] == es;
    FoldAccumulates(kept);
  }

  /** `CalculateHistories` for one agent: the memories are folded as `VisitMemories` does and
      the mean, minimum and maximum are stored under `Slot`, good 0 as written. Nothing is
      stored when every memory was forgotten (the source would store the empty accumulator's
      values). */
  method FoldHistory(entity: nat, frame: int, history: MultiMap<nat, Memory>, forgotten: Queue<Memory>,
                     revisionist: MultiMap<nat, Memory>, goodsData: array<GoodData>, asWritten: bool)
    requires history != revisionist
    requires GoodsIn(ValuesOf(history.entries, entity), goodsData.Length)
    modifies forgotten, revisionist, goodsData
    ensures history.entries == old(history.entries)
    ensures forgotten.items == old(forgotten.items) + Forgotten(frame, ValuesOf(history.entries, entity))
    ensures ValuesOf(revisionist.entries, entity) ==
      ValuesOf(old(revisionist.entries), entity) + Retained(frame, ValuesOf(history.entries, entity))
    ensures forall k: nat :: k != entity ==> ValuesOf(revisionist.entries, k) == ValuesOf(old(revisionist.entries), k)
    ensures goodsData[..] == Summarize(old(goodsData[..]), frame, ValuesOf(history.entries, entity), asWritten)
  {
    var es := history.Values(entity);
    if es == [] {
      return;
    }
    var average, transactions, minimum, maximum := VisitMemories(entity, frame, es, forgotten, revisionist);
    if transactions > 0 {
      AverageIsMean(average, transactions, minimum, maximum, Retained(frame, es));
      var meanData := if asWritten then Memory(0, 0.0, 0) else es[|es| - 1];
      goodsData[meanData.good] := GoodData(average, minimum, maximum);
    }
  }

  /** Every memory of agents `0 .. n-1` names a good below `goods`. */
  predicate HistoryIn(h: map<nat, seq<Memory>>, n: nat, goods: int)
  {
    forall a: nat :: a < n ==> GoodsIn(ValuesOf(h, a), goods)
  }

  lemma {:induction false} HistoryInAt(h: map<nat, seq<Memory>>, n: nat, goods: int, a: nat)
    requires HistoryIn(h, n, goods) && a <= n
    ensures a < n ==> GoodsIn(ValuesOf(h, a), goods)
    ensures HistoryIn(h, a, goods)
  {
  }

  /** What `CalculateHistories` leaves in `goodsData` after agents `0 .. n-1` are folded in
      order; a later agent overwrites the statistics an earlier one stored. */
  function SummarizeAll(gd: seq<GoodData>, frame: int, h: map<nat, seq<Memory>>, n: nat, asWritten: bool): (r: seq<GoodData>)
    requires HistoryIn(h, n, |gd|)
    ensures |r| == |gd|
  {
    if n == 0 then gd
    else
      HistoryInAt(h, n, |gd|, n - 1);
      Summarize(SummarizeAll(gd, frame, h, n - 1, asWritten), frame, ValuesOf(h, n - 1), asWritten)
  }

  /** The memories agents `0 .. n-1` forget, in agent order. */
  function ForgottenAll(frame: int, h: map<nat, seq<Memory>>, n: nat): seq<Memory>
  {
    if n == 0 then [] else ForgottenAll(frame, h, n - 1) + Forgotten(frame, ValuesOf(h, n - 1))
  }

  /** Statistics stay ordered (minimum <= mean <= maximum) through the whole fold. */
  lemma {:induction false} SummarizeAllOrdered(gd: seq<GoodData>, frame: int, h: map<nat, seq<Memory>>, n: nat,
                                               asWritten: bool, g: int)
    requires HistoryIn(h, n, |gd|)
    requires 0 <= g < |gd| && gd[g].minimum <= gd[g].mean <= gd[g].maximum
    ensures var r := SummarizeAll(gd, frame, h, n, asWritten); r[g].minimum <= r[g].mean <= r[g].maximum
  {
    if n > 0 {
      HistoryInAt(h, n, |gd|, n - 1);
      SummarizeAllOrdered(gd, frame, h, n - 1, asWritten, g);
      SummarizeOrdered(SummarizeAll(gd, frame, h, n - 1, asWritten), frame, ValuesOf(h, n - 1), asWritten, g);
    }
  }

  /** A good that is the `Slot` of no agent with a retained memory keeps its statistics. */
  lemma {:induction false} SummarizeAllFrame(gd: seq<GoodData>, frame: int, h: map<nat, seq<Memory>>, n: nat,
                                             asWritten: bool, g: int)
    requires HistoryIn(h, n, |gd|)
    requires 0 <= g < |gd|
    requires forall a: nat :: a < n && ValuesOf(h, a) != [] && Retained(frame, ValuesOf(h, a)) != [] ==>
      Slot(ValuesOf(h, a), asWritten) != g
    ensures SummarizeAll(gd, frame, h, n, asWritten)[g] == gd[g]
  {
    if n > 0 {
      HistoryInAt(h, n, |gd|, n - 1);
      SummarizeAllFrame(gd, frame, h, n - 1, asWritten, g);
    }
  }

  /** As written, every agent's statistics go to good 0: no other good's statistics ever
      change. */
  lemma {:induction false} AsWrittenTouchesOnlyGoodZero(gd: seq<GoodData>, frame: int, h: map<nat, seq<Memory>>,
                                                        n: nat, g: int)
    requires HistoryIn(h, n, |gd|)
    requires 0 < g < |gd|
    ensures SummarizeAll(gd, frame, h, n, true)[g] == gd[g]
  {
    SummarizeAllFrame(gd, frame, h, n, true, g);
  }

  lemma {:induction false} SummarizeAllStep(gd: seq<GoodData>, frame: int, h: map<nat, seq<Memory>>, n: nat,
                                            asWritten: bool)
    requires HistoryIn(h, n + 1, |gd|)
    ensures HistoryIn(h, n, |gd|) && GoodsIn(ValuesOf(h, n), |gd|)
    ensures SummarizeAll(gd, frame, h, n + 1, asWritten) ==
      Summarize(SummarizeAll(gd, frame, h, n, asWritten), frame, ValuesOf(h, n), asWritten)
    ensures ForgottenAll(frame, h, n + 1) == ForgottenAll(frame, h, n) + Forgotten(frame, ValuesOf(h, n))
  {
    HistoryInAt(h, n + 1, |gd|, n);
  }

  /** `CalculateHistories`: `FoldHistory` for every agent `0 .. agents-1` in turn. */
  method CalculateHistories(frame: int, agents: nat, history: MultiMap<nat, Memory>, forgotten: Queue<Memory>,
                            revisionist: MultiMap<nat, Memory>, goodsData: array<GoodData>, asWritten: bool)
    requires history != revisionist
    requires HistoryIn(history.entries, agents, goodsData.Length)
    modifies forgotten, revisionist, goodsData
    ensures history.entries == old(history.entries)
    ensures forgotten.items == old(forgotten.items) + ForgottenAll(frame, history.entries, agents)
    ensures forall a: nat :: a < agents ==>
      ValuesOf(revisionist.entries, a) == ValuesOf(old(revisionist.entries), a) + Retained(frame, ValuesOf(history.entries, a))
    ensures forall k: nat :: k >= agents ==> ValuesOf(revisionist.entries, k) == ValuesOf(old(revisionist.entries), k)
    ensures goodsData[..] == SummarizeAll(old(goodsData[..]), frame, history.entries, agents, asWritten)
  {
    ghost var h := history.entries;
    ghost var gd := goodsData[..];
    ghost var f0, r0 := forgotten.items, revisionist.entries;
    var entity: nat := 0;
    while entity < agents
      invariant entity <= agents
      invariant history.entries == h
      invariant FoldedUpTo(frame, h, entity, |gd|, asWritten, f0, r0, gd, forgotten.items, revisionist.entries, goodsData[..])
    {
      ghost var f, r, d := forgotten.items, revisionist.entries, goodsData[..];
      HistoryInAt(h, agents, |gd|, entity);
      FoldHistory(entity, frame, history, forgotten, revisionist, goodsData, asWritten);
      FoldedStep(frame, h, entity, |gd|, asWritten, f0, r0, gd, f, r, d,
                 forgotten.items, revisionist.entries, goodsData[..]);
      entity := entity + 1;
    }
  }

  /** After agents `0 .. n-1` are folded: the forgotten queue has gained their forgotten
      memories in agent order, each of them has its retained memories added to the revisionist
      map, and the statistics are those of `SummarizeAll`. */
  ghost predicate FoldedUpTo(frame: int, h: map<nat, seq<Memory>>, n: nat, goods: nat, asWritten: bool,
                             f0: seq<Memory>, r0: map<nat, seq<Memory>>, gd: seq<GoodData>,
                             f: seq<Memory>, r: map<nat, seq<Memory>>, d: seq<GoodData>)
  {
    |gd| == goods && HistoryIn(h, n, goods) &&
    f == f0 + ForgottenAll(frame, h, n) &&
    (forall a: nat :: a < n ==> ValuesOf(r, a) == ValuesOf(r0, a) + Retained(frame, ValuesOf(h, a))) &&
    (forall k: nat :: k >= n ==> ValuesOf(r, k) == ValuesOf(r0, k)) &&
    d == SummarizeAll(gd, frame, h, n, asWritten)
  }

  /** Folding agent `n` extends what is folded to agents `0 .. n`. */
  lemma {:induction false} FoldedStep(frame: int, h: map<nat, seq<Memory>>, n: nat, goods: nat, asWritten: bool,
                                      f0: seq<Memory>, r0: map<nat, seq<Memory>>, gd: seq<GoodData>,
                                      f: seq<Memory>, r: map<nat, seq<Memory>>, d: seq<GoodData>,
                                      f': seq<Memory>, r': map<nat, seq<Memory>>, d': seq<GoodData>)
    requires FoldedUpTo(frame, h, n, goods, asWritten, f0, r0, gd, f, r, d)
    requires GoodsIn(ValuesOf(h, n), goods)
    requires f' == f + Forgotten(frame, ValuesOf(h, n))
    requires ValuesOf(r', n) == ValuesOf(r, n) + Retained(frame, ValuesOf(h, n))
    requires forall k: nat :: k != n ==> ValuesOf(r', k) == ValuesOf(r, k)
    requires d' == Summarize(d, frame, ValuesOf(h, n), asWritten)
    ensures FoldedUpTo(frame, h, n + 1, goods, asWritten, f0, r0, gd, f', r', d')
  {
    assert HistoryIn(h, n + 1, goods);
    ConcatAssoc(f0, ForgottenAll(frame, h, n), Forgotten(frame, ValuesOf(h, n)));
    SummarizeAllStep(gd, frame, h, n, asWritten);
  }

  /** `AssignGoodData`: every good takes the statistics computed for its index; its identity
      and everything else about it stay. */
  method AssignGoodData(goods: array<Good>, goodsData: array<GoodData>)
    requires goods.Length == goodsData.Length
    modifies goods
    ensures forall i :: 0 <= i < goods.Length ==>
      goods[i] == old(goods[i]).(mean := goodsData[i].mean, minimum := goodsData[i].minimum,
                                 maximum := goodsData[i].maximum)
    ensures forall i :: 0 <= i < goods.Length ==> goods[i].Equals(old(goods[i]))
  {
    var index := 0;
    while index < goods.Length
      invariant 0 <= index <= goods.Length
      invariant forall i :: 0 <= i < index ==>
        goods[i] == old(goods[i]).(mean := goodsData[i].mean, minimum := goodsData[i].minimum,
                                   maximum := goodsData[i].maximum)
      invariant forall i :: index <= i < goods.Length ==> goods[i] == old(goods[i])
    {
      var placeholder := goods[index];
      placeholder := placeholder.(mean := goodsData[index].mean);
      placeholder := placeholder.(minimum := goodsData[index].minimum);
      placeholder := placeholder.(maximum := goodsData[index].maximum);
      goods[index] := placeholder;
      index := index + 1;
    }
  }

  /** Append `items` under `entity`, one `Add` at a time. */
  method AddAll(m: MultiMap<nat, Memory>, entity: nat, items: seq<Memory>)
    modifies m
    ensures ValuesOf(m.entries, entity) == ValuesOf(old(m.entries), entity) + items
    ensures forall k :: k != entity ==> ValuesOf(m.entries, k) == ValuesOf(old(m.entries), k)
  {
    var i := 0;
    while i < |items|
      invariant 0 <= i <= |items|
      invariant ValuesOf(m.entries, entity) == ValuesOf(old(m.entries), entity) + items[..i]
      invariant forall k :: k != entity ==> ValuesOf(m.entries, k) == ValuesOf(old(m.entries), k)
    {
      m.Add(entity, items[i]);
      assert items[..i + 1] == items[..i] + [items[i]];
      i := i + 1;
    }
    assert items[..i] == items;
  }

  /** `RewriteHistory`: every agent's retained memories go back into `history`, after what it
      already holds. */
  method RewriteHistory(agents: nat, revisionism: MultiMap<nat, Memory>, history: MultiMap<nat, Memory>)
    requires revisionism != history
    modifies history
    ensures forall a: nat :: a < agents ==>
      ValuesOf(history.entries, a) == ValuesOf(old(history.entries), a) + ValuesOf(revisionism.entries, a)
    ensures forall k: nat :: k >= agents ==> ValuesOf(history.entries, k) == ValuesOf(old(history.entries), k)
  {
    var entity: nat := 0;
    while entity < agents
      invariant entity <= agents
      invariant forall a: nat :: a < entity ==>
        ValuesOf(history.entries, a) == ValuesOf(old(history.entries), a) + ValuesOf(revisionism.entries, a)
      invariant forall k: nat :: k >= entity ==> ValuesOf(history.entries, k) == ValuesOf(old(history.entries), k)
    {
      var transactions := revisionism.Values(entity);
      if transactions != [] {
        ghost var before := history.entries;
        AddAll(history, entity, transactions);
        forall a: nat | a != entity ensures ValuesOf(history.entries, a) == ValuesOf(before, a) {
        }
      } else {
        assert ValuesOf(history.entries, entity) + transactions == ValuesOf(history.entries, entity);
      }
      entity := entity + 1;
    }
  }

  /** `ResetMultiHashMaps`: the offers, the money changes and the history are emptied. */
  method ResetMultiHashMaps(tradeAsks: MultiMap<int, Offer>, tradeBids: MultiMap<int, Offer>,
                            deltaMoney: MultiMap<nat, real>, history: MultiMap<nat, Memory>)
    modifies tradeAsks, tradeBids, deltaMoney, history
    ensures tradeAsks.entries == map[] && tradeBids.entries == map[]
    ensures deltaMoney.entries == map[] && history.entries == map[]
  {
    tradeAsks.Clear();
    tradeBids.Clear();
    deltaMoney.Clear();
    history.Clear();
  }

  /** `CleanStarting`: the forgotten queue and the revisionist map start the tick empty. */
  method CleanStarting(revisionism: MultiMap<nat, Memory>, forgotten: Queue<Memory>)
    modifies revisionism, forgotten
    ensures revisionism.entries == map[] && forgotten.items == []
  {
    forgotten.Clear();
    revisionism.Clear();
  }
}
