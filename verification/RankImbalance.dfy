/**
 The load-imbalance metric that decides whether a rearrangement of experts is worth its
 transfer, over exact reals. A layer's placement lists the logical expert of every physical
 slot; a logical expert's load is shared evenly by its replicas, and the slots of a rank are
 one contiguous block.
 */
module RankImbalance {
  import opened Arithmetic

  // ---------------------------------------------------------------- sums

  function Sum(xs: seq<real>): real {
    if xs == [] then 0.0 else Sum(xs[..|xs| - 1]) + xs[|xs| - 1]
  }

  function Max(xs: seq<real>): (m: real)
    requires xs != []
    ensures m in xs && forall i :: 0 <= i < |xs| ==> xs[i] <= m
  {
    if |xs| == 1 then xs[0]
    else
      var m := Max(xs[..|xs| - 1]);
      if xs[|xs| - 1] > m then xs[|xs| - 1] else m
  }

  lemma {:induction false} SumConcat(a: seq<real>, b: seq<real>)
    ensures Sum(a + b) == Sum(a) + Sum(b)
  {
    if b == [] {
      assert a + b == a;
    } else {
      assert (a + b)[..|a| + |b| - 1] == a + b[..|b| - 1];
      SumConcat(a, b[..|b| - 1]);
    }
  }

  lemma {:induction false} SumNonNegative(xs: seq<real>)
    requires forall i :: 0 <= i < |xs| ==> xs[i] >= 0.0
    ensures Sum(xs) >= 0.0
  {
    if xs != [] { SumNonNegative(xs[..|xs| - 1]); }
  }

  lemma {:induction false} SumAtMost(xs: seq<real>, m: real)
    requires forall i :: 0 <= i < |xs| ==> xs[i] <= m
    ensures Sum(xs) <= m * |xs| as real
  {
    if xs != [] { SumAtMost(xs[..|xs| - 1], m); }
  }

  // ---------------------------------------------------------------- one layer

  predicate LayerOk(placement: seq<nat>, loads: seq<real>, ranks: nat) {
    && ranks > 0 && |placement| % ranks == 0
    && (forall p :: 0 <= p < |placement| ==> placement[p] < |loads|)
  }

  function Replicas(placement: seq<nat>, expert: nat): nat {
    if placement == [] then 0
    else Replicas(placement[..|placement| - 1], expert) + (if placement[|placement| - 1] == expert then 1 else 0)
  }

  /** logical_loads / replica_counts.clamp_min(1) */
  function Shares(placement: seq<nat>, loads: seq<real>): seq<real> {
    seq(|loads|, e requires 0 <= e < |loads| =>
      var n := Replicas(placement, e); loads[e] / (if n < 1 then 1 else n) as real)
  }

  function Gather(shares: seq<real>, placement: seq<nat>): seq<real>
    requires forall p :: 0 <= p < |placement| ==> placement[p] < |shares|
  {
    seq(|placement|, p requires 0 <= p < |placement| => shares[placement[p]])
  }

  function Blocks(xs: seq<real>, size: nat, count: nat): seq<real>
    requires |xs| == size * count
  {
    if count == 0 then []
    else
      assert size * (count - 1) == size * count - size;
      Blocks(xs[..size * (count - 1)], size, count - 1) + [Sum(xs[size * (count - 1)..])]
  }

  /** The load of every rank in one layer. */
  function RankLoads(placement: seq<nat>, loads: seq<real>, ranks: nat): seq<real>
    requires LayerOk(placement, loads, ranks)
  {
    Blocks(Gather(Shares(placement, loads), placement), |placement| / ranks, ranks)
  }

  lemma {:induction false} BlocksKeep(xs: seq<real>, size: nat, count: nat)
    requires |xs| == size * count
    ensures |Blocks(xs, size, count)| == count
    ensures Sum(Blocks(xs, size, count)) == Sum(xs)
    ensures (forall i :: 0 <= i < |xs| ==> xs[i] >= 0.0) ==>
              forall r :: 0 <= r < count ==> Blocks(xs, size, count)[r] >= 0.0
  {
    if count > 0 {
      var cut := size * (count - 1);
      assert cut == size * count - size;
      var rest := Blocks(xs[..cut], size, count - 1);
      BlocksKeep(xs[..cut], size, count - 1);
      SumConcat(xs[..cut], xs[cut..]);
      assert xs[..cut] + xs[cut..] == xs;
      SumConcat(rest, [Sum(xs[cut..])]);
      assert Sum([Sum(xs[cut..])]) == Sum([]) + Sum(xs[cut..]);
      if forall i :: 0 <= i < |xs| ==> xs[i] >= 0.0 {
        SumNonNegative(xs[cut..]);
      }
    }
  }

  /** `count` replicas of a share. */
  function CopiesOf(count: nat, share: real): real { count as real * share }

  /** The sum over experts below `n` of replicas times share. */
  function Weighted(placement: seq<nat>, shares: seq<real>, n: nat): real
    requires n <= |shares|
  {
    if n == 0 then 0.0 else Weighted(placement, shares, n - 1) + CopiesOf(Replicas(placement, n - 1), shares[n - 1])
  }

  lemma ReplicaAdded(placement: seq<nat>, e: nat, k: nat)
    ensures Replicas(placement + [e], k) == Replicas(placement, k) + (if e == k then 1 else 0)
  {
    assert (placement + [e])[..|placement|] == placement;
  }

  lemma OneMoreShare(count: nat, share: real)
    ensures CopiesOf(count + 1, share) == CopiesOf(count, share) + share
  {
    assert (count + 1) as real == count as real + 1.0;
  }

  lemma {:induction false} WeightedGrows(placement: seq<nat>, e: nat, shares: seq<real>, n: nat)
    requires n <= |shares|
    ensures Weighted(placement + [e], shares, n)
            == Weighted(placement, shares, n) + (if e < n then shares[e] else 0.0)
  {
    if n > 0 {
      WeightedGrows(placement, e, shares, n - 1);
      ReplicaAdded(placement, e, n - 1);
      OneMoreShare(Replicas(placement, n - 1), shares[n - 1]);
    }
  }

  lemma {:induction false} WeightedEmpty(shares: seq<real>, n: nat)
    requires n <= |shares|
    ensures Weighted([], shares, n) == 0.0
  {
    if n > 0 { WeightedEmpty(shares, n - 1); }
  }

  lemma {:induction false} GatherSum(placement: seq<nat>, shares: seq<real>)
    requires forall p :: 0 <= p < |placement| ==> placement[p] < |shares|
    ensures Sum(Gather(shares, placement)) == Weighted(placement, shares, |shares|)
  {
    if placement == [] {
      WeightedEmpty(shares, |shares|);
    } else {
      var n := |placement| - 1;
      var rest, e := placement[..n], placement[n];
      assert placement == rest + [e];
      GatherSum(rest, shares);
      WeightedGrows(rest, e, shares, |shares|);
      assert Gather(shares, placement)[..n] == Gather(shares, rest);
    }
  }

  /** The logical load that has a replica to run on, over the experts below `n`. */
  function Placed(placement: seq<nat>, loads: seq<real>, n: nat): real
    requires n <= |loads|
  {
    if n == 0 then 0.0 else Placed(placement, loads, n - 1) + (if Replicas(placement, n - 1) > 0
        then loads[n - 1] else 0.0)
  }

  lemma {:induction false} WeightedIsPlaced(placement: seq<nat>, loads: seq<real>, n: nat)
    requires n <= |loads|
    ensures Weighted(placement, Shares(placement, loads), n) == Placed(placement, loads, n)
  {
    if n > 0 {
      WeightedIsPlaced(placement, loads, n - 1);
      var count := Replicas(placement, n - 1);
      if count > 0 {
        assert Shares(placement, loads)[n - 1] == loads[n - 1] / count as real;
        Divided(loads[n - 1], count as real);
      }
    }
  }

  lemma Divided(x: real, n: real)
    requires n != 0.0
    ensures n * (x / n) == x
  {}

  lemma {:induction false} AllPlaced(placement: seq<nat>, loads: seq<real>, n: nat)
    requires n <= |loads|
    requires forall e :: 0 <= e < |loads| && loads[e] != 0.0 ==> Replicas(placement, e) > 0
    ensures Placed(placement, loads, n) == Sum(loads[..n])
  {
    if n > 0 {
      AllPlaced(placement, loads, n - 1);
      assert loads[..n][..n - 1] == loads[..n - 1];
    }
  }

  /** Conservation: the ranks together carry exactly the logical load that is placed, and all of it
      when every loaded expert has a replica. */
  lemma RankLoadsConserve(placement: seq<nat>, loads: seq<real>, ranks: nat)
    requires LayerOk(placement, loads, ranks)
    ensures |RankLoads(placement, loads, ranks)| == ranks
    ensures Sum(RankLoads(placement, loads, ranks)) == Placed(placement, loads, |loads|)
    ensures (forall e :: 0 <= e < |loads| && loads[e] != 0.0 ==> Replicas(placement, e) > 0) ==>
              Sum(RankLoads(placement, loads, ranks)) == Sum(loads)
  {
    BlocksKeep(Gather(Shares(placement, loads), placement), |placement| / ranks, ranks);
    GatherSum(placement, Shares(placement, loads));
    WeightedIsPlaced(placement, loads, |loads|);
    if forall e :: 0 <= e < |loads| && loads[e] != 0.0 ==> Replicas(placement, e) > 0 {
      AllPlaced(placement, loads, |loads|);
      assert loads[..|loads|] == loads;
    }
  }

  lemma RankLoadsNonNegative(placement: seq<nat>, loads: seq<real>, ranks: nat)
    requires LayerOk(placement, loads, ranks)
    requires forall e :: 0 <= e < |loads| ==> loads[e] >= 0.0
    ensures |RankLoads(placement, loads, ranks)| == ranks
    ensures forall r :: 0 <= r < ranks ==> RankLoads(placement, loads, ranks)[r] >= 0.0
  {
    var xs := Gather(Shares(placement, loads), placement);
    forall i | 0 <= i < |xs| ensures xs[i] >= 0.0 {
      var n := Replicas(placement, placement[i]);
      assert xs[i] == loads[placement[i]] / (if n < 1 then 1 else n) as real;
    }
    BlocksKeep(xs, |placement| / ranks, ranks);
  }

  // ---------------------------------------------------------------- all layers

  predicate RowsOf(table: seq<seq<real>>, ranks: nat) {
    ranks > 0 && forall l :: 0 <= l < |table| ==> |table[l]| == ranks
  }

  /** The load of every rank, over all layers. */
  function Totals(table: seq<seq<real>>, ranks: nat): (t: seq<real>)
    requires RowsOf(table, ranks)
    ensures |t| == ranks
  {
    if table == [] then seq(ranks, _ => 0.0)
    else
      var rest := Totals(table[..|table| - 1], ranks);
      seq(ranks, r requires 0 <= r < ranks => rest[r] + table[|table| - 1][r])
  }

  function SumOfMeans(table: seq<seq<real>>, ranks: nat): real
    requires RowsOf(table, ranks)
  {
    if table == [] then 0.0
    else SumOfMeans(table[..|table| - 1], ranks) + Sum(table[|table| - 1]) / ranks as real
  }

  function SumOfMaxima(table: seq<seq<real>>, ranks: nat): real
    requires RowsOf(table, ranks)
  {
    if table == [] then 0.0
    else SumOfMaxima(table[..|table| - 1], ranks) + Max(table[|table| - 1])
  }

  function Ratio(most: real, mean: real): real {
    if mean == 0.0 then 1.0 else most / mean
  }

  /** `table` holds one row of rank loads per layer. */
  function Imbalance(table: seq<seq<real>>, ranks: nat, layerwise: bool): real
    requires RowsOf(table, ranks)
  {
    if layerwise then Ratio(SumOfMaxima(table, ranks), SumOfMeans(table, ranks))
    else Ratio(Max(Totals(table, ranks)), Sum(Totals(table, ranks)) / ranks as real)
  }

  /** Imbalance times mean is the sum of the layers' maxima, or the largest total; without any load it is 1. */
  lemma ImbalanceTimesMean(table: seq<seq<real>>, ranks: nat, mean: real)
    requires RowsOf(table, ranks)
    ensures mean == SumOfMeans(table, ranks) ==>
              if mean == 0.0 then Imbalance(table, ranks, true) == 1.0
              else Scale(Imbalance(table, ranks, true), mean) == Sum(RowMaxima(table, ranks))
    ensures mean == Sum(Totals(table, ranks)) / ranks as real ==>
              if mean == 0.0 then Imbalance(table, ranks, false) == 1.0
              else Scale(Imbalance(table, ranks, false), mean) == Max(Totals(table, ranks))
  {
    MaximaSummed(table, ranks);
    RatioTimes(SumOfMaxima(table, ranks), mean);
    RatioTimes(Max(Totals(table, ranks)), mean);
  }

  function Scale(x: real, factor: real): real { x * factor }

  lemma RatioTimes(most: real, mean: real)
    ensures if mean == 0.0 then Ratio(most, mean) == 1.0 else Scale(Ratio(most, mean), mean) == most
  {}

  function RowMaxima(table: seq<seq<real>>, ranks: nat): seq<real>
    requires RowsOf(table, ranks)
  {
    seq(|table|, l requires 0 <= l < |table| => Max(table[l]))
  }

  lemma {:induction false} MaximaSummed(table: seq<seq<real>>, ranks: nat)
    requires RowsOf(table, ranks)
    ensures SumOfMaxima(table, ranks) == Sum(RowMaxima(table, ranks))
  {
    if table != [] {
      var n := |table| - 1;
      MaximaSummed(table[..n], ranks);
      assert RowMaxima(table, ranks)[..n] == RowMaxima(table[..n], ranks);
    }
  }

  /** The total of a rank is the sum of its loads over the layers. */
  lemma {:induction false} TotalsAre(table: seq<seq<real>>, ranks: nat, r: nat)
    requires RowsOf(table, ranks) && r < ranks
    ensures Totals(table, ranks)[r] == Sum(ColumnOf(table, ranks, r))
  {
    if table != [] {
      var n := |table| - 1;
      TotalsAre(table[..n], ranks, r);
      assert ColumnOf(table, ranks, r)[..n] == ColumnOf(table[..n], ranks, r);
    }
  }

  function ColumnOf(table: seq<seq<real>>, ranks: nat, r: nat): seq<real>
    requires RowsOf(table, ranks) && r < ranks
  {
    seq(|table|, l requires 0 <= l < |table| => table[l][r])
  }

  // ---------------------------------------------------------------- what a rank carries

  /** Slot by slot, the load of the expert there divided by the number of slots that hold it. */
  function SlotLoads(placement: seq<nat>, loads: seq<real>, lo: nat, hi: nat): seq<real>
    requires lo <= hi <= |placement| && forall p :: 0 <= p < |placement| ==> placement[p] < |loads|
  {
    seq(hi - lo, k requires 0 <= k < hi - lo =>
      OccursOnce(placement, lo + k);
      loads[placement[lo + k]] / multiset(placement)[placement[lo + k]] as real)
  }

  lemma OccursOnce(placement: seq<nat>, p: nat)
    requires p < |placement|
    ensures multiset(placement)[placement[p]] > 0
  {}

  lemma {:induction false} ReplicasCounted(placement: seq<nat>, e: nat)
    ensures Replicas(placement, e) == multiset(placement)[e]
  {
    if placement != [] {
      var n := |placement| - 1;
      ReplicasCounted(placement[..n], e);
      assert placement == placement[..n] + [placement[n]];
    }
  }

  /** Block `r` sums the `size` values from `lo` on. */
  lemma {:induction false} BlockAt(xs: seq<real>, size: nat, count: nat, r: nat, lo: nat)
    requires |xs| == size * count && r < count && lo == size * r && lo + size <= |xs|
    ensures |Blocks(xs, size, count)| == count && Blocks(xs, size, count)[r] == Sum(xs[lo..lo + size])
  {
    var cut := size * (count - 1);
    LastBlock(size, count);
    BlocksKeep(xs, size, count);
    BlocksKeep(xs[..cut], size, count - 1);
    if r < count - 1 {
      BlockFits(size, count - 1, r);
      BlockAt(xs[..cut], size, count - 1, r, lo);
      assert xs[..cut][lo..lo + size] == xs[lo..lo + size];
    } else {
      assert xs[lo..lo + size] == xs[cut..];
    }
  }

  lemma LastBlock(size: nat, count: nat)
    requires count > 0
    ensures size * (count - 1) == size * count - size && 0 <= size * (count - 1)
  {}

  lemma BlockFits(size: nat, count: nat, r: nat)
    requires r < count
    ensures 0 <= size * r && size * r + size <= size * count
  {
    MulGap(r, count, size);
    assert r * size == size * r && count * size == size * count;
  }

  /** The load of rank `r` is that of the slots of its block. */
  lemma RankLoadIs(placement: seq<nat>, loads: seq<real>, ranks: nat, r: nat)
    requires LayerOk(placement, loads, ranks) && r < ranks
    ensures var size := |placement| / ranks;
            && |RankLoads(placement, loads, ranks)| == ranks && 0 <= size * r && size * r + size <= |placement|
            && RankLoads(placement, loads, ranks)[r] == Sum(SlotLoads(placement, loads, size * r, size * r + size))
  {
    var size := |placement| / ranks;
    assert |placement| == size * ranks;
    var xs := Gather(Shares(placement, loads), placement);
    BlockFits(size, ranks, r);
    BlockAt(xs, size, ranks, r, size * r);
    SlotsGathered(placement, loads, size * r, size * r + size);
  }

  lemma SlotsGathered(placement: seq<nat>, loads: seq<real>, lo: nat, hi: nat)
    requires lo <= hi <= |placement| && forall p :: 0 <= p < |placement| ==> placement[p] < |loads|
    ensures Gather(Shares(placement, loads), placement)[lo..hi] == SlotLoads(placement, loads, lo, hi)
  {
    var xs, ys := Gather(Shares(placement, loads), placement)[lo..hi], SlotLoads(placement, loads, lo, hi);
    forall k | 0 <= k < hi - lo ensures xs[k] == ys[k] {
      ReplicasCounted(placement, placement[lo + k]);
      OccursOnce(placement, lo + k);
    }
  }

  predicate NonNegative(table: seq<seq<real>>) {
    forall l, r :: 0 <= l < |table| && 0 <= r < |table[l]| ==> table[l][r] >= 0.0
  }

  lemma {:induction false} SumOfSums(a: seq<real>, b: seq<real>)
    requires |a| == |b|
    ensures Sum(seq(|a|, r requires 0 <= r < |a| => a[r] + b[r])) == Sum(a) + Sum(b)
  {
    if a != [] {
      var n := |a| - 1;
      var both := seq(|a|, r requires 0 <= r < |a| => a[r] + b[r]);
      SumOfSums(a[..n], b[..n]);
      assert both[..n] == seq(n, r requires 0 <= r < n => a[..n][r] + b[..n][r]);
    }
  }

  lemma {:induction false} SumZeros(n: nat)
    ensures Sum(seq(n, _ => 0.0)) == 0.0
  {
    if n > 0 {
      SumZeros(n - 1);
      assert seq(n, _ => 0.0)[..n - 1] == seq(n - 1, _ => 0.0);
    }
  }

  lemma DivideSum(x: real, y: real, n: real)
    requires n != 0.0
    ensures (x + y) / n == x / n + y / n
  {}

  /** Both variants divide by the same mean. */
  lemma {:induction false} MeansAgree(table: seq<seq<real>>, ranks: nat)
    requires RowsOf(table, ranks)
    ensures Sum(Totals(table, ranks)) / ranks as real == SumOfMeans(table, ranks)
  {
    if table == [] {
      SumZeros(ranks);
      assert Totals(table, ranks) == seq(ranks, _ => 0.0);
    } else {
      var rest, row := Totals(table[..|table| - 1], ranks), table[|table| - 1];
      MeansAgree(table[..|table| - 1], ranks);
      SumOfSums(rest, row);
      assert Totals(table, ranks) == seq(|rest|, r requires 0 <= r < |rest| => rest[r] + row[r]);
      DivideSum(Sum(rest), Sum(row), ranks as real);
    }
  }

  lemma {:induction false} TotalsBelowMaxima(table: seq<seq<real>>, ranks: nat, r: nat)
    requires RowsOf(table, ranks) && r < ranks
    ensures Totals(table, ranks)[r] <= SumOfMaxima(table, ranks)
  {
    if table != [] {
      TotalsBelowMaxima(table[..|table| - 1], ranks, r);
    }
  }

  lemma {:induction false} MeansNonNegative(table: seq<seq<real>>, ranks: nat)
    requires RowsOf(table, ranks) && NonNegative(table)
    ensures SumOfMeans(table, ranks) >= 0.0
  {
    if table != [] {
      MeansNonNegative(table[..|table| - 1], ranks);
      SumNonNegative(table[|table| - 1]);
      NonNegativeQuotient(Sum(table[|table| - 1]), ranks as real);
    }
  }

  lemma NonNegativeQuotient(x: real, n: real)
    requires x >= 0.0 && n > 0.0
    ensures x / n >= 0.0
  {}

  lemma QuotientAtLeast(x: real, y: real, d: real)
    requires d > 0.0 && x >= y
    ensures x / d >= y / d
  {}

  lemma QuotientBelow(x: real, m: real, n: real)
    requires n > 0.0 && x <= m * n
    ensures x / n <= m
  {
    Divided(x, n);
    MulCancel(n, x / n, m);
  }

  lemma MulCancel(n: real, a: real, b: real)
    requires n > 0.0 && n * a <= n * b
    ensures a <= b
  {}

  /** A bound on every element bounds the mean. */
  lemma MeanBelow(xs: seq<real>, m: real)
    requires xs != [] && forall i :: 0 <= i < |xs| ==> xs[i] <= m
    ensures Sum(xs) / |xs| as real <= m
  {
    SumAtMost(xs, m);
    var total, n := Sum(xs), |xs| as real;
    assert total <= m * n;
    QuotientBelow(total, m, n);
  }

  lemma MaxAboveMean(xs: seq<real>)
    requires xs != []
    ensures Max(xs) >= Sum(xs) / |xs| as real
  {
    MeanBelow(xs, Max(xs));
  }

  lemma RatioOrdered(a: real, b: real, mean: real)
    requires mean >= 0.0 && a >= b
    ensures Ratio(a, mean) >= Ratio(b, mean)
  {
    if mean > 0.0 { QuotientAtLeast(a, b, mean); }
  }

  lemma RatioAtLeastOne(a: real, mean: real)
    requires a >= mean >= 0.0
    ensures Ratio(a, mean) >= 1.0
  {
    if mean > 0.0 { QuotientAtLeast(a, mean, mean); }
  }

  lemma MaxTotalBelowMaxima(table: seq<seq<real>>, ranks: nat)
    requires RowsOf(table, ranks)
    ensures Max(Totals(table, ranks)) <= SumOfMaxima(table, ranks)
  {
    var totals := Totals(table, ranks);
    var r :| 0 <= r < |totals| && totals[r] == Max(totals);
    TotalsBelowMaxima(table, ranks, r);
  }

  /** The layerwise value is never below the aggregate one, and neither is below 1. */
  lemma ImbalanceOrdered(table: seq<seq<real>>, ranks: nat)
    requires RowsOf(table, ranks) && NonNegative(table)
    ensures Imbalance(table, ranks, true) >= Imbalance(table, ranks, false) >= 1.0
  {
    MeansAgree(table, ranks);
    MeansNonNegative(table, ranks);
    MaxAboveMean(Totals(table, ranks));
    MaxTotalBelowMaxima(table, ranks);
    RatioOrdered(SumOfMaxima(table, ranks), Max(Totals(table, ranks)), SumOfMeans(table, ranks));
    RatioAtLeastOne(Max(Totals(table, ranks)), SumOfMeans(table, ranks));
  }

  // ---------------------------------------------------------------- the gain test

  predicate SkipRearrange(current: real, proposed: real)
    requires current != 0.0
  {
    (current - proposed) / current < 0.05
  }

  function Table(placements: seq<seq<nat>>, loads: seq<seq<real>>, ranks: nat): seq<seq<real>>
    requires |placements| == |loads| && forall l :: 0 <= l < |loads| ==> LayerOk(placements[l], loads[l], ranks)
  {
    seq(|loads|, l requires 0 <= l < |loads| => RankLoads(placements[l], loads[l], ranks))
  }

  /** A rearrangement goes ahead exactly when the proposed imbalance is at most 95% of the current
      one; the test never divides by zero because the imbalance of any map is at least 1. */
  lemma GainTestExact(current: seq<seq<nat>>, proposed: seq<seq<nat>>, loads: seq<seq<real>>, ranks: nat,
                      layerwise: bool)
    requires ranks > 0 && |current| == |proposed| == |loads|
    requires forall l :: 0 <= l < |loads| ==>
              LayerOk(current[l], loads[l], ranks) && LayerOk(proposed[l], loads[l], ranks)
    requires forall l, e :: 0 <= l < |loads| && 0 <= e < |loads[l]| ==> loads[l][e] >= 0.0
    ensures RowsOf(Table(current, loads, ranks), ranks) && RowsOf(Table(proposed, loads, ranks), ranks)
    ensures var now, next := Imbalance(Table(current, loads, ranks), ranks, layerwise),
                             Imbalance(Table(proposed, loads, ranks), ranks, layerwise);
            && now >= 1.0 && next >= 1.0
            && (!SkipRearrange(now, next) <==> next <= 0.95 * now)
  {
    TableOk(current, loads, ranks);
    TableOk(proposed, loads, ranks);
    var now, next := Table(current, loads, ranks), Table(proposed, loads, ranks);
    AtLeastOne(now, ranks, layerwise);
    AtLeastOne(next, ranks, layerwise);
    GainArithmetic(Imbalance(now, ranks, layerwise), Imbalance(next, ranks, layerwise));
  }

  lemma AtLeastOne(table: seq<seq<real>>, ranks: nat, layerwise: bool)
    requires RowsOf(table, ranks) && NonNegative(table)
    ensures Imbalance(table, ranks, layerwise) >= 1.0
  {
    ImbalanceOrdered(table, ranks);
  }

  lemma GainArithmetic(now: real, next: real)
    requires now >= 1.0
    ensures !SkipRearrange(now, next) <==> next <= 0.95 * now
  {
    var gain := (now - next) / now;
    Divided(now - next, now);
    if gain >= 0.05 {
      assert now * gain >= now * 0.05;
    } else {
      assert now * gain < now * 0.05;
    }
  }

  lemma TableOk(placements: seq<seq<nat>>, loads: seq<seq<real>>, ranks: nat)
    requires ranks > 0 && |placements| == |loads|
    requires forall l :: 0 <= l < |loads| ==> LayerOk(placements[l], loads[l], ranks)
    requires forall l, e :: 0 <= l < |loads| && 0 <= e < |loads[l]| ==> loads[l][e] >= 0.0
    ensures RowsOf(Table(placements, loads, ranks), ranks) && NonNegative(Table(placements, loads, ranks))
  {
    forall l | 0 <= l < |loads|
      ensures |RankLoads(placements[l], loads[l], ranks)| == ranks
      ensures forall r :: 0 <= r < ranks ==> RankLoads(placements[l], loads[l], ranks)[r] >= 0.0
    {
      RankLoadsNonNegative(placements[l], loads[l], ranks);
    }
  }
}
