/**
 * The training cycle of `DAE.fit` (dae.py:477-520): per epoch, the start
 * indices of the mini-batches, the excerpt of rows each batch takes (a
 * contiguous slice, or a slice of a fresh row permutation), the running
 * average cost, and the condition under which the epoch is logged.
 * What `partial_fit` does to the network is not modelled: the cost it
 * returns for each batch is an input.
 */
module Training {
  import opened Wrappers

  // ---------------------------------------------------------------------
  // Python integers

  /** `range(start, stop, step)` for a positive step: counts up while below `stop`. */
  function RangeUp(start: int, stop: int, step: int): (r: seq<int>)
    requires step > 0
    ensures |r| > 0 <==> start < stop
    ensures forall i :: 0 <= i < |r| ==> start <= r[i] < stop
    ensures |r| > 0 ==> r[0] == start && stop <= r[|r| - 1] + step
    decreases stop - start
  {
    if start < stop then [start] + RangeUp(start + step, stop, step) else []
  }

  /** `range(start, stop, step)` for a negative step: counts down while above `stop`. */
  function RangeDown(start: int, stop: int, step: int): (r: seq<int>)
    requires step < 0
    ensures |r| > 0 <==> stop < start
    ensures forall i :: 0 <= i < |r| ==> stop < r[i] <= start
    ensures |r| > 0 ==> r[0] == start && r[|r| - 1] + step <= stop
    decreases start - stop
  {
    if stop < start then [start] + RangeDown(start + step, stop, step) else []
  }

  /** Python's `range(start, stop, step)`; a zero step raises, so it is excluded. */
  function PyRange(start: int, stop: int, step: int): (r: seq<int>)
    requires step != 0
    ensures |r| > 0 <==> (step > 0 && start < stop) || (step < 0 && stop < start)
    ensures |r| > 0 ==> r[0] == start
  {
    if step > 0 then RangeUp(start, stop, step) else RangeDown(start, stop, step)
  }

  /** Python's `a % d`: the remainder takes the sign of the divisor, and is 0 exactly when `d` divides `a`. */
  function PyMod(a: int, d: int): (r: int)
    requires d != 0
    ensures d > 0 ==> 0 <= r < d
    ensures d < 0 ==> d < r <= 0
    ensures r == 0 <==> a % d == 0
  {
    var m := a % d;
    if d < 0 && m != 0 then m + d else m
  }

  /** `np.arange(n)`. */
  function Range(n: nat): (r: seq<nat>)
    ensures |r| == n && forall i :: 0 <= i < n ==> r[i] == i
  {
    seq(n, i requires 0 <= i < n => i)
  }

  /** A row order `np.random.shuffle` can leave in `indices`: every row exactly once. */
  predicate IsPermutation(p: seq<nat>, n: nat)
  {
    |p| == n &&
    (forall i :: 0 <= i < n ==> p[i] < n) &&
    (forall i, j :: 0 <= i < j < n ==> p[i] != p[j])
  }

  // ---------------------------------------------------------------------
  // The batch schedule of one epoch

  /** `start_idxs`: the starts of the full mini-batches of `n` rows. */
  function BatchStarts(n: nat, batchSize: int): (starts: seq<int>)
    requires batchSize != 0
    ensures batchSize < 0 ==> starts == []
    ensures batchSize > 0 ==> starts == RangeUp(0, n - batchSize + 1, batchSize)
    ensures forall i :: 0 <= i < |starts| ==> 0 <= starts[i] && starts[i] + batchSize <= n
  {
    PyRange(0, n - batchSize + 1, batchSize)
  }

  /** The order in which an epoch sees the rows: the shuffled `indices`, or the rows as stored. */
  function Order(n: nat, shuffle: bool, perm: seq<nat>): seq<nat>
  {
    if shuffle then perm else Range(n)
  }

  /** Either order names every row position once, each below n. */
  lemma OrderInRange(n: nat, shuffle: bool, perm: seq<nat>)
    requires shuffle ==> IsPermutation(perm, n)
    ensures |Order(n, shuffle, perm)| == n
    ensures forall k :: 0 <= k < n ==> Order(n, shuffle, perm)[k] < n
  {
  }

  /** The rows of `X` at the given positions, `X[excerpt]`. */
  function Rows<R>(X: seq<R>, excerpt: seq<nat>): (batch: seq<R>)
    requires forall k :: 0 <= k < |excerpt| ==> excerpt[k] < |X|
    ensures |batch| == |excerpt|
    ensures forall k :: 0 <= k < |excerpt| ==> batch[k] == X[excerpt[k]]
  {
    seq(|excerpt|, k requires 0 <= k < |excerpt| => X[excerpt[k]])
  }

  /** The positions `excerpt` of every batch of an epoch, in order. */
  function Excerpts(order: seq<nat>, batchSize: int): (excerpts: seq<seq<nat>>)
    requires batchSize != 0
    ensures |excerpts| == |BatchStarts(|order|, batchSize)|
    ensures forall i :: 0 <= i < |excerpts| ==> |excerpts[i]| == batchSize
  {
    var starts := BatchStarts(|order|, batchSize);
    if batchSize > 0 then
      seq(|starts|, i requires 0 <= i < |starts| => order[starts[i]..starts[i] + batchSize])
    else
      []
  }

  /** The batches `partial_fit` receives in one epoch: the rows each excerpt names. */
  function EpochBatches<R>(X: seq<R>, shuffle: bool, perm: seq<nat>, batchSize: int): (batches: seq<seq<R>>)
    requires batchSize != 0
    requires shuffle ==> IsPermutation(perm, |X|)
    ensures |batches| == |BatchStarts(|X|, batchSize)|
    ensures forall i :: 0 <= i < |batches| ==> |batches[i]| == batchSize
  {
    var order := Order(|X|, shuffle, perm);
    var excerpts := Excerpts(order, batchSize);
    seq(|excerpts|, i requires 0 <= i < |excerpts| => Rows(X, excerpts[i]))
  }

  /**
   * Batch `i` is what `X[excerpt]` gives: a slice of the shuffled
   * `indices`, or a contiguous slice of the rows.
   */
  lemma {:induction false} EpochBatchAt<R>(X: seq<R>, shuffle: bool, perm: seq<nat>, batchSize: int, i: nat)
    requires batchSize > 0
    requires shuffle ==> IsPermutation(perm, |X|)
    requires i < |BatchStarts(|X|, batchSize)|
    ensures var start := BatchStarts(|X|, batchSize)[i];
      shuffle ==> EpochBatches(X, shuffle, perm, batchSize)[i] == Rows(X, perm[start..start + batchSize])
    ensures var start := BatchStarts(|X|, batchSize)[i];
      !shuffle ==> EpochBatches(X, shuffle, perm, batchSize)[i] == X[start..start + batchSize]
  {
    BatchOfExcerpt(X, shuffle, perm, batchSize, i);
    if !shuffle {
      ContiguousRows(X, BatchStarts(|X|, batchSize)[i], batchSize);
    }
  }

  /** Batch `i` holds the rows named by the slice of the order at batch start `i`. */
  lemma {:induction false} BatchOfExcerpt<R>(X: seq<R>, shuffle: bool, perm: seq<nat>, batchSize: int, i: nat)
    requires batchSize > 0
    requires shuffle ==> IsPermutation(perm, |X|)
    requires i < |BatchStarts(|X|, batchSize)|
    ensures var start := BatchStarts(|X|, batchSize)[i];
      var excerpt := Order(|X|, shuffle, perm)[start..start + batchSize];
      && (forall k :: 0 <= k < |excerpt| ==> excerpt[k] < |X|)
      && EpochBatches(X, shuffle, perm, batchSize)[i] == Rows(X, excerpt)
  {
    OrderInRange(|X|, shuffle, perm);
    ExcerptAt(Order(|X|, shuffle, perm), batchSize, i);
  }

  /** A contiguous slice of rows is `X` at positions start, ..., start + size - 1. */
  lemma {:induction false} ContiguousRows<R>(X: seq<R>, start: nat, size: nat)
    requires start + size <= |X|
    ensures Rows(X, Range(|X|)[start..start + size]) == X[start..start + size]
  {
  }

  /**
   * `fit` takes floor(n / batch_size) full batches starting at 0,
   * batch_size, 2 * batch_size, ..., and none for a negative batch size.
   */
  lemma {:induction false} StartsAreMultiples(n: nat, batchSize: int)
    requires batchSize != 0
    ensures batchSize < 0 ==> BatchStarts(n, batchSize) == []
    ensures batchSize > 0 ==> |BatchStarts(n, batchSize)| == n / batchSize
    ensures batchSize > 0 ==> forall j :: 0 <= j < |BatchStarts(n, batchSize)| ==> BatchStarts(n, batchSize)[j] == j * batchSize
  {
    if batchSize > 0 {
      var starts := BatchStarts(n, batchSize);
      forall j | 0 <= j < |starts| ensures starts[j] == j * batchSize {
        RangeElement(0, n - batchSize + 1, batchSize, j);
      }
      var q := |starts|;
      if q == 0 {
        DivUnique(n, batchSize, 0);
      } else {
        assert starts[q - 1] == (q - 1) * batchSize;
        MulSucc(q, batchSize);
        DivUnique(n, batchSize, q);
      }
    }
  }

  /** Consecutive elements of a range are one step apart. */
  lemma {:induction false} RangeStep(start: int, stop: int, step: int, j: nat)
    requires step > 0 && 0 < j < |RangeUp(start, stop, step)|
    ensures RangeUp(start, stop, step)[j] == RangeUp(start, stop, step)[j - 1] + step
    decreases j
  {
    if j > 1 {
      RangeStep(start + step, stop, step, j - 1);
    }
  }

  /** The `j`-th element of a range is `start + j * step`. */
  lemma {:induction false} RangeElement(start: int, stop: int, step: int, j: nat)
    requires step > 0 && j < |RangeUp(start, stop, step)|
    ensures RangeUp(start, stop, step)[j] == start + j * step
    decreases j
  {
    if j > 0 {
      RangeElement(start + step, stop, step, j - 1);
      MulSucc(j, step);
    }
  }

  lemma {:induction false} MulSucc(k: int, d: int)
    ensures (k - 1) * d + d == k * d
  {
  }

  lemma {:induction false} MulGap(a: int, b: int, d: int)
    requires b < a && d > 0
    ensures b * d + d <= a * d
    decreases a - b
  {
    if b + 1 < a {
      MulGap(a - 1, b, d);
    }
    MulSucc(a, d);
  }

  /** The quotient is the only `q` with `q * d <= n < q * d + d`. */
  lemma {:induction false} DivUnique(n: int, d: int, q: int)
    requires d > 0 && q * d <= n < q * d + d
    ensures n / d == q
  {
    var p := n / d;
    if p < q {
      MulGap(q, p, d);
    } else if q < p {
      MulGap(p, q, d);
    }
  }

  /** Later batches start at least one batch further on. */
  lemma {:induction false} StartsIncrease(n: nat, batchSize: int, i: nat, j: nat)
    requires batchSize > 0 && i < j < |BatchStarts(n, batchSize)|
    ensures BatchStarts(n, batchSize)[i] + batchSize <= BatchStarts(n, batchSize)[j]
  {
    RangeStep(0, n - batchSize + 1, batchSize, j);
    if i + 1 < j {
      StartsIncrease(n, batchSize, i, j - 1);
    }
  }

  /** The sequence of all positions of the batches, in batch order. */
  function Flatten(excerpts: seq<seq<nat>>): seq<nat>
  {
    if excerpts == [] then [] else Flatten(excerpts[..|excerpts| - 1]) + excerpts[|excerpts| - 1]
  }

  /** Excerpt i is the slice of the order at i * batch_size. */
  lemma {:induction false} ExcerptsAreSlices(order: seq<nat>, batchSize: int)
    requires batchSize > 0
    ensures var excerpts := Excerpts(order, batchSize);
      forall i :: 0 <= i < |excerpts| ==>
        i * batchSize + batchSize <= |order| && excerpts[i] == order[i * batchSize..i * batchSize + batchSize]
  {
    var excerpts := Excerpts(order, batchSize);
    StartsAreMultiples(|order|, batchSize);
    forall i | 0 <= i < |excerpts|
      ensures i * batchSize + batchSize <= |order| && excerpts[i] == order[i * batchSize..i * batchSize + batchSize]
    {
      ExcerptAt(order, batchSize, i);
    }
  }

  /**
   * Consecutive slices of `size` entries of `order`, starting at 0,
   * flattened, are a prefix of `order`.
   */
  lemma {:induction false} FlattenSlices(excerpts: seq<seq<nat>>, order: seq<nat>, size: nat, k: nat)
    requires k <= |excerpts|
    requires forall i :: 0 <= i < |excerpts| ==>
      i * size + size <= |order| && excerpts[i] == order[i * size..i * size + size]
    ensures k * size <= |order|
    ensures Flatten(excerpts[..k]) == order[..k * size]
  {
    if k == 0 {
      assert excerpts[..0] == [];
      assert order[..0] == [];
    } else {
      FlattenSlices(excerpts, order, size, k - 1);
      MulSucc(k, size);
      FlattenOneMore(excerpts, order, k, (k - 1) * size, size);
    }
  }

  /** One more slice: a slice that continues the order where the earlier ones stopped extends the prefix they cover. */
  lemma {:induction false} FlattenOneMore(excerpts: seq<seq<nat>>, order: seq<nat>, k: nat, start: nat, size: nat)
    requires 0 < k <= |excerpts| && start + size <= |order|
    requires Flatten(excerpts[..k - 1]) == order[..start]
    requires excerpts[k - 1] == order[start..start + size]
    ensures Flatten(excerpts[..k]) == order[..start + size]
  {
    FlattenLast(excerpts, k);
    SliceSplit(order, start, start + size);
  }

  lemma {:induction false} FlattenLast(excerpts: seq<seq<nat>>, k: nat)
    requires 0 < k <= |excerpts|
    ensures Flatten(excerpts[..k]) == Flatten(excerpts[..k - 1]) + excerpts[k - 1]
  {
    assert excerpts[..k][..k - 1] == excerpts[..k - 1];
  }

  lemma {:induction false} ExcerptAt(order: seq<nat>, batchSize: int, i: nat)
    requires batchSize > 0 && i < |BatchStarts(|order|, batchSize)|
    ensures var start := BatchStarts(|order|, batchSize)[i];
      Excerpts(order, batchSize)[i] == order[start..start + batchSize]
  {
  }

  lemma {:induction false} SliceSplit(s: seq<nat>, a: nat, b: nat)
    requires a <= b <= |s|
    ensures s[..b] == s[..a] + s[a..b]
  {
  }

  /**
   * The batches read, one after another, the first k * batch_size entries
   * of the order, k = floor(n / batch_size); fewer than batch_size trailing
   * rows are dropped.
   */
  lemma {:induction false} ExcerptsCover(order: seq<nat>, batchSize: int)
    requires batchSize > 0
    ensures var covered := |order| / batchSize * batchSize;
      covered <= |order| && |order| - covered < batchSize &&
      Flatten(Excerpts(order, batchSize)) == order[..covered]
  {
    var excerpts := Excerpts(order, batchSize);
    var k := |excerpts|;
    StartsAreMultiples(|order|, batchSize);
    FloorMultiple(|order|, batchSize);
    ExcerptsAreSlices(order, batchSize);
    FlattenSlices(excerpts, order, batchSize, k);
    assert excerpts[..k] == excerpts;
  }

  /** The largest multiple of d not above n is within d of n. */
  lemma {:induction false} FloorMultiple(n: nat, d: int)
    requires d > 0
    ensures n / d * d <= n && n - n / d * d < d
  {
    assert n == d * (n / d) + n % d;
  }

  /**
   * With a shuffled order no row is in two batches of the same epoch, and
   * every position names a row of the data.
   */
  lemma {:induction false} ExcerptsDisjoint(order: seq<nat>, batchSize: int)
    requires batchSize > 0 && IsPermutation(order, |order|)
    ensures var excerpts := Excerpts(order, batchSize);
      forall i, j, a, b :: 0 <= i < j < |excerpts| && 0 <= a < batchSize && 0 <= b < batchSize ==>
        excerpts[i][a] != excerpts[j][b]
    ensures var excerpts := Excerpts(order, batchSize);
      forall i, a :: 0 <= i < |excerpts| && 0 <= a < |excerpts[i]| ==> excerpts[i][a] < |order|
  {
    var excerpts := Excerpts(order, batchSize);
    forall i, j, a, b | 0 <= i < j < |excerpts| && 0 <= a < batchSize && 0 <= b < batchSize
      ensures excerpts[i][a] != excerpts[j][b]
    {
      ExcerptPositions(order, batchSize, i, j, a, b);
    }
  }

  lemma {:induction false} ExcerptPositions(order: seq<nat>, batchSize: int, i: nat, j: nat, a: nat, b: nat)
    requires batchSize > 0 && IsPermutation(order, |order|)
    requires i < j < |BatchStarts(|order|, batchSize)| && a < batchSize && b < batchSize
    ensures Excerpts(order, batchSize)[i][a] != Excerpts(order, batchSize)[j][b]
  {
    ExcerptElement(order, batchSize, i, a);
    ExcerptElement(order, batchSize, j, b);
    StartsIncrease(|order|, batchSize, i, j);
    var starts := BatchStarts(|order|, batchSize);
    var p, q := starts[i] + a, starts[j] + b;
    assert 0 <= p < q < |order|;
    assert order[p] != order[q];
  }

  lemma {:induction false} ExcerptElement(order: seq<nat>, batchSize: int, i: nat, a: nat)
    requires batchSize > 0
    requires i < |BatchStarts(|order|, batchSize)| && a < batchSize
    ensures Excerpts(order, batchSize)[i][a] == order[BatchStarts(|order|, batchSize)[i] + a]
  {
  }

  // ---------------------------------------------------------------------
  // The training cycle

  /** One printed line `Epoch: <epoch> cost: <avgCost>`; `epoch` counts from 1. */
  datatype LogLine = LogLine(epoch: int, avgCost: real)

  /** What `fit` does that can be observed: the batches given to `partial_fit`, and the printed lines. */
  datatype Fitted<R> = Fitted(calls: seq<seq<R>>, logs: seq<LogLine>)

  /** `display_step`, falling back to `log_every` when it is not given. */
  function DisplayStep(displayStep: Option<int>, logEvery: Option<int>): (d: Option<int>)
    ensures displayStep.Some? ==> d == displayStep
    ensures displayStep.None? ==> d == logEvery
  {
    if displayStep.None? then logEvery else displayStep
  }

  /** `display_step and epoch % display_step == 0`: None and 0 switch logging off. */
  predicate ShouldLog(display: Option<int>, epoch: int)
    ensures ShouldLog(display, epoch) <==> display.Some? && display.value != 0 && epoch % display.value == 0
  {
    display.Some? && display.value != 0 && PyMod(epoch, display.value) == 0
  }

  /** What one batch adds to `avg_cost`: `cost / n_samples * batch_size`. */
  function Share(cost: real, n: nat, batchSize: int): (r: real)
    requires n > 0
    ensures r * (n as real) == cost * (batchSize as real)
    ensures cost >= 0.0 && batchSize >= 0 ==> r >= 0.0
  {
    cost / (n as real) * (batchSize as real)
  }

  /** `avg_cost` after the batches with the given costs: their shares, added up in order. */
  function AvgCost(costs: seq<real>, n: nat, batchSize: int): (r: real)
    requires costs != [] ==> n > 0
    ensures costs == [] ==> r == 0.0
    ensures (forall i :: 0 <= i < |costs| ==> costs[i] >= 0.0) && batchSize >= 0 ==> r >= 0.0
  {
    if costs == [] then 0.0
    else AvgCost(costs[..|costs| - 1], n, batchSize) + Share(costs[|costs| - 1], n, batchSize)
  }

  /** An epoch has a batch only when there is at least one row. */
  lemma {:induction false} BatchesNeedRows(n: nat, batchSize: int)
    requires batchSize != 0
    ensures |BatchStarts(n, batchSize)| > 0 ==> n > 0 && batchSize > 0 && batchSize <= n
  {
  }

  /**
   * The inputs of `fit` that stand for randomness and for `partial_fit`:
   * a permutation of the rows per epoch when shuffling, and one cost per
   * batch of each epoch.
   */
  predicate FitInputs(n: nat, shuffle: bool, perms: seq<seq<nat>>, costs: seq<seq<real>>, batchSize: int, epochs: nat)
    requires batchSize != 0
  {
    (shuffle ==> |perms| >= epochs && forall e :: 0 <= e < epochs ==> IsPermutation(perms[e], n)) &&
    |costs| >= epochs && forall e :: 0 <= e < epochs ==> |costs[e]| == |BatchStarts(n, batchSize)|
  }

  /** What the first `epochs` epochs of `fit` do. */
  function FitTrace<R>(X: seq<R>, shuffle: bool, perms: seq<seq<nat>>, costs: seq<seq<real>>, batchSize: int,
                    display: Option<int>, epochs: nat): (t: Fitted<R>)
    requires batchSize != 0
    requires FitInputs(|X|, shuffle, perms, costs, batchSize, epochs)
    ensures |t.logs| <= epochs
    ensures forall i :: 0 <= i < |t.calls| ==> |t.calls[i]| == batchSize
  {
    if epochs == 0 then Fitted([], [])
    else
      var before := FitTrace(X, shuffle, perms, costs, batchSize, display, epochs - 1);
      var epoch := epochs - 1;
      var batches := EpochBatches(X, shuffle, if shuffle then perms[epoch] else [], batchSize);
      BatchesNeedRows(|X|, batchSize);
      var line := LogLine(epoch + 1, AvgCost(costs[epoch], |X|, batchSize));
      Fitted(before.calls + batches,
             before.logs + if batches != [] && ShouldLog(display, epoch) then [line] else [])
  }

  /**
   * The batch loop of one epoch of `fit` (dae.py:501-512): the batches cut
   * from the data, `partial_fit` on each in turn, and `avg_cost`.
   */
  method TrainEpoch<R>(X: seq<R>, shuffle: bool, indices: seq<nat>, batchSize: int, costs: seq<real>)
    returns (avgCost: real, batches: seq<seq<R>>)
    requires batchSize != 0
    requires shuffle ==> IsPermutation(indices, |X|)
    requires |costs| == |BatchStarts(|X|, batchSize)|
    ensures batches == EpochBatches(X, shuffle, indices, batchSize)
    ensures avgCost == AvgCost(costs, |X|, batchSize)
  {
    var n := |X|;
    ghost var all := EpochBatches(X, shuffle, indices, batchSize);
    avgCost, batches := 0.0, [];
    var startIdxs := PyRange(0, n - batchSize + 1, batchSize);
    assert startIdxs == BatchStarts(n, batchSize);
    BatchesNeedRows(n, batchSize);
    for j := 0 to |startIdxs|
      invariant batches == all[..j]
      invariant avgCost == AvgCost(costs[..j], n, batchSize)
    {
      var batch := CutBatch(X, shuffle, indices, batchSize, j, startIdxs[j]);
      TakeOneMore(all, j);
      batches := batches + [batch];
      avgCost := AddCost(avgCost, costs, n, batchSize, j);
    }
    assert all[..|startIdxs|] == all;
    assert costs[..|startIdxs|] == costs;
  }

  /** `avg_cost += cost / n_samples * batch_size` for batch j. */
  method AddCost(avgCost: real, costs: seq<real>, n: nat, batchSize: int, j: nat) returns (next: real)
    requires n > 0 && j < |costs|
    requires avgCost == AvgCost(costs[..j], n, batchSize)
    ensures next == AvgCost(costs[..j + 1], n, batchSize)
  {
    AvgCostAppend(costs, n, batchSize, j);
    next := avgCost + Share(costs[j], n, batchSize);
  }

  /** The batch starting at `start_idxs[j]`: the rows the excerpt of `indices` names, or a slice of X. */
  method CutBatch<R>(X: seq<R>, shuffle: bool, indices: seq<nat>, batchSize: int, j: nat, start: int)
    returns (batch: seq<R>)
    requires batchSize > 0
    requires shuffle ==> IsPermutation(indices, |X|)
    requires j < |BatchStarts(|X|, batchSize)| && start == BatchStarts(|X|, batchSize)[j]
    ensures batch == EpochBatches(X, shuffle, indices, batchSize)[j]
  {
    EpochBatchAt(X, shuffle, indices, batchSize, j);
    if shuffle {
      batch := Rows(X, indices[start..start + batchSize]);
    } else {
      batch := X[start..start + batchSize];
    }
  }

  lemma {:induction false} TakeOneMore<T>(s: seq<T>, j: nat)
    requires j < |s|
    ensures s[..j + 1] == s[..j] + [s[j]]
  {
  }

  lemma {:induction false} AvgCostAppend(costs: seq<real>, n: nat, batchSize: int, j: nat)
    requires n > 0 && j < |costs|
    ensures AvgCost(costs[..j + 1], n, batchSize) == AvgCost(costs[..j], n, batchSize) + Share(costs[j], n, batchSize)
  {
    TakeOneMore(costs, j);
    assert costs[..j + 1][..j] == costs[..j];
  }

  /** One more epoch of `fit` extends the calls by the epoch's batches and logs it when due. */
  lemma {:induction false} FitStep<R>(X: seq<R>, shuffle: bool, perms: seq<seq<nat>>, costs: seq<seq<real>>, batchSize: int,
                                      display: Option<int>, epoch: nat, calls: seq<seq<R>>, logs: seq<LogLine>,
                                      batches: seq<seq<R>>, avgCost: real)
    requires batchSize != 0
    requires FitInputs(|X|, shuffle, perms, costs, batchSize, epoch + 1)
    requires Fitted(calls, logs) == FitTrace(X, shuffle, perms, costs, batchSize, display, epoch)
    requires batches == EpochBatches(X, shuffle, if shuffle then perms[epoch] else [], batchSize)
    requires batches != [] ==> |X| > 0
    requires batches != [] ==> avgCost == AvgCost(costs[epoch], |X|, batchSize)
    ensures FitTrace(X, shuffle, perms, costs, batchSize, display, epoch + 1) ==
      Fitted(calls + batches, logs + if batches != [] && ShouldLog(display, epoch) then [LogLine(epoch + 1, avgCost)] else [])
  {
    FitInputsPrefix(|X|, shuffle, perms, costs, batchSize, epoch + 1, epoch);
  }

  /**
   * One pass of the epoch loop of `fit` (dae.py:495-518): train on the
   * epoch's batches, then print the log line when one is due.
   */
  method FitEpoch<R>(X: seq<R>, shuffle: bool, perms: seq<seq<nat>>, costs: seq<seq<real>>, batchSize: int,
                     display: Option<int>, epoch: nat, calls: seq<seq<R>>, logs: seq<LogLine>)
    returns (newCalls: seq<seq<R>>, newLogs: seq<LogLine>)
    requires batchSize != 0
    requires FitInputs(|X|, shuffle, perms, costs, batchSize, epoch + 1)
    requires Fitted(calls, logs) == FitTrace(X, shuffle, perms, costs, batchSize, display, epoch)
    ensures Fitted(newCalls, newLogs) == FitTrace(X, shuffle, perms, costs, batchSize, display, epoch + 1)
  {
    var indices := if shuffle then perms[epoch] else [];
    var avgCost, batches := TrainEpoch(X, shuffle, indices, batchSize, costs[epoch]);
    FitStep(X, shuffle, perms, costs, batchSize, display, epoch, calls, logs, batches, avgCost);
    newCalls, newLogs := calls + batches, logs;
    if |batches| > 0 {
      if display.Some? && display.value != 0 && PyMod(epoch, display.value) == 0 {
        newLogs := logs + [LogLine(epoch + 1, avgCost)];
      }
    }
  }

  /**
   * `DAE.fit` (dae.py:477-520). `perms[e]` is the permutation
   * `np.random.shuffle` leaves in `indices` in epoch `e`, and `costs[e][j]`
   * is what `partial_fit` returns for batch `j` of epoch `e`. A zero batch
   * size makes `range` raise before the first batch, so it is excluded
   * whenever an epoch runs.
   */
  method Fit<R>(X: seq<R>, numEpochs: int, batchSize: int, shuffle: bool, perms: seq<seq<nat>>,
             costs: seq<seq<real>>, displayStep: Option<int>, logEvery: Option<int>)
    returns (calls: seq<seq<R>>, logs: seq<LogLine>)
    requires numEpochs > 0 ==> batchSize != 0
    requires numEpochs > 0 ==> FitInputs(|X|, shuffle, perms, costs, batchSize, numEpochs)
    ensures numEpochs <= 0 ==> calls == [] && logs == []
    ensures numEpochs > 0 ==>
      Fitted(calls, logs) == FitTrace(X, shuffle, perms, costs, batchSize, DisplayStep(displayStep, logEvery), numEpochs)
  {
    var display := if displayStep.None? then logEvery else displayStep;
    calls, logs := [], [];
    var epoch := 0;
    while epoch < numEpochs
      invariant numEpochs > 0 ==> 0 <= epoch <= numEpochs
      invariant numEpochs <= 0 ==> calls == [] && logs == []
      invariant numEpochs > 0 ==> Fitted(calls, logs) == FitTrace(X, shuffle, perms, costs, batchSize, display, epoch)
    {
      FitInputsPrefix(|X|, shuffle, perms, costs, batchSize, numEpochs, epoch + 1);
      calls, logs := FitEpoch(X, shuffle, perms, costs, batchSize, display, epoch, calls, logs);
      epoch := epoch + 1;
    }
  }

  lemma {:induction false} FitInputsPrefix(n: nat, shuffle: bool, perms: seq<seq<nat>>, costs: seq<seq<real>>,
                                           batchSize: int, epochs: nat, k: nat)
    requires batchSize != 0 && k <= epochs
    requires FitInputs(n, shuffle, perms, costs, batchSize, epochs)
    ensures FitInputs(n, shuffle, perms, costs, batchSize, k)
  {
  }

  // ---------------------------------------------------------------------
  // What the trace of `fit` promises

  /** The sum of the batch costs of an epoch. */
  function Sum(costs: seq<real>): real
  {
    if costs == [] then 0.0 else Sum(costs[..|costs| - 1]) + costs[|costs| - 1]
  }

  /** `avg_cost` is the summed batch cost scaled by batch_size / n. */
  lemma {:induction false} AvgCostIsScaledSum(costs: seq<real>, n: nat, batchSize: int)
    requires n > 0
    ensures AvgCost(costs, n, batchSize) == Sum(costs) / (n as real) * (batchSize as real)
  {
    if costs != [] {
      AvgCostIsScaledSum(costs[..|costs| - 1], n, batchSize);
      var a, c := Sum(costs[..|costs| - 1]), costs[|costs| - 1];
      ShareAdds(a, c, n as real, batchSize as real);
    }
  }

  lemma ShareAdds(a: real, c: real, n: real, b: real)
    requires n > 0.0
    ensures a / n * b + c / n * b == (a + c) / n * b
  {
  }

  /** With fewer rows than a batch, or a negative batch size, `partial_fit` is never called and nothing is printed. */
  lemma {:induction false} NoFullBatch<R>(X: seq<R>, shuffle: bool, perms: seq<seq<nat>>, costs: seq<seq<real>>,
                                          batchSize: int, display: Option<int>, epochs: nat)
    requires batchSize != 0
    requires FitInputs(|X|, shuffle, perms, costs, batchSize, epochs)
    requires batchSize < 0 || |X| < batchSize
    ensures FitTrace(X, shuffle, perms, costs, batchSize, display, epochs) == Fitted([], [])
  {
    if epochs > 0 {
      FitInputsPrefix(|X|, shuffle, perms, costs, batchSize, epochs, epochs - 1);
      NoFullBatch(X, shuffle, perms, costs, batchSize, display, epochs - 1);
    }
  }

  /**
   * Over `epochs` epochs `fit` calls `partial_fit` floor(n / batch_size)
   * times per epoch, each time on batch_size rows.
   */
  lemma {:induction false} CallCount<R>(X: seq<R>, shuffle: bool, perms: seq<seq<nat>>, costs: seq<seq<real>>,
                                        batchSize: int, display: Option<int>, epochs: nat)
    requires batchSize > 0
    requires FitInputs(|X|, shuffle, perms, costs, batchSize, epochs)
    ensures var calls := FitTrace(X, shuffle, perms, costs, batchSize, display, epochs).calls;
      |calls| == epochs * (|X| / batchSize) &&
      forall i :: 0 <= i < |calls| ==> |calls[i]| == batchSize
  {
    StartsAreMultiples(|X|, batchSize);
    if epochs > 0 {
      var epoch := epochs - 1;
      FitInputsPrefix(|X|, shuffle, perms, costs, batchSize, epochs, epoch);
      CallCount(X, shuffle, perms, costs, batchSize, display, epoch);
      var before := FitTrace(X, shuffle, perms, costs, batchSize, display, epoch);
      var batches := EpochBatches(X, shuffle, if shuffle then perms[epoch] else [], batchSize);
      BatchesNeedRows(|X|, batchSize);
      FitStep(X, shuffle, perms, costs, batchSize, display, epoch, before.calls, before.logs,
              batches, AvgCost(costs[epoch], |X|, batchSize));
      var calls := FitTrace(X, shuffle, perms, costs, batchSize, display, epochs).calls;
      assert calls == before.calls + batches;
      MulSucc(epochs, |X| / batchSize);
      forall i | 0 <= i < |calls|
        ensures |calls[i]| == batchSize
      {
        if i < |before.calls| {
          assert calls[i] == before.calls[i];
        } else {
          assert calls[i] == batches[i - |before.calls|];
        }
      }
    }
  }

  /** The 1-based numbers of the epochs among the first `epochs` whose line is due. */
  function LoggedEpochs(display: Option<int>, epochs: nat): (due: seq<int>)
    ensures forall i :: 0 <= i < |due| ==> 1 <= due[i] <= epochs
  {
    if epochs == 0 then []
    else LoggedEpochs(display, epochs - 1) + if ShouldLog(display, epochs - 1) then [epochs] else []
  }

  /** An epoch number is logged exactly when it is in range and its epoch is due; the numbers increase. */
  lemma {:induction false} LoggedEpochsMembers(display: Option<int>, epochs: nat)
    ensures forall e :: e in LoggedEpochs(display, epochs) <==> 1 <= e <= epochs && ShouldLog(display, e - 1)
    ensures forall i, j :: 0 <= i < j < |LoggedEpochs(display, epochs)| ==>
      LoggedEpochs(display, epochs)[i] < LoggedEpochs(display, epochs)[j]
  {
    if epochs > 0 {
      LoggedEpochsMembers(display, epochs - 1);
      var before := LoggedEpochs(display, epochs - 1);
      var due := LoggedEpochs(display, epochs);
      forall i, j | 0 <= i < j < |due|
        ensures due[i] < due[j]
      {
        if j == |before| {
          assert due[i] == before[i];
        } else {
          assert due[i] == before[i] && due[j] == before[j];
        }
      }
    }
  }

  /** `logs` holds, in order, one line per epoch number in `due`, each with that epoch's `avg_cost`. */
  predicate LogsMatch(logs: seq<LogLine>, due: seq<int>, costs: seq<seq<real>>, n: nat, batchSize: int)
    requires n > 0
  {
    |logs| == |due| &&
    forall i :: 0 <= i < |logs| ==>
      1 <= due[i] <= |costs| && logs[i] == LogLine(due[i], AvgCost(costs[due[i] - 1], n, batchSize))
  }

  lemma {:induction false} LogsMatchAppend(logs: seq<LogLine>, due: seq<int>, costs: seq<seq<real>>, n: nat,
                                           batchSize: int, e: int)
    requires n > 0 && 1 <= e <= |costs|
    requires LogsMatch(logs, due, costs, n, batchSize)
    ensures LogsMatch(logs + [LogLine(e, AvgCost(costs[e - 1], n, batchSize))], due + [e], costs, n, batchSize)
  {
    var logs', due' := logs + [LogLine(e, AvgCost(costs[e - 1], n, batchSize))], due + [e];
    forall i | 0 <= i < |logs'|
      ensures 1 <= due'[i] <= |costs| && logs'[i] == LogLine(due'[i], AvgCost(costs[due'[i] - 1], n, batchSize))
    {
      if i < |logs| {
        assert logs'[i] == logs[i] && due'[i] == due[i];
      }
    }
  }

  /** The lines of the due epochs among the first `epochs`, each with its `avg_cost`. */
  function DueLines(display: Option<int>, costs: seq<seq<real>>, n: nat, batchSize: int, epochs: nat): seq<LogLine>
    requires n > 0 && epochs <= |costs|
  {
    if epochs == 0 then []
    else
      var line := LogLine(epochs, AvgCost(costs[epochs - 1], n, batchSize));
      DueLines(display, costs, n, batchSize, epochs - 1) + if ShouldLog(display, epochs - 1) then [line] else []
  }

  lemma {:induction false} DueLinesMatch(display: Option<int>, costs: seq<seq<real>>, n: nat, batchSize: int, epochs: nat)
    requires n > 0 && epochs <= |costs|
    ensures LogsMatch(DueLines(display, costs, n, batchSize, epochs), LoggedEpochs(display, epochs), costs, n, batchSize)
  {
    if epochs > 0 {
      DueLinesMatch(display, costs, n, batchSize, epochs - 1);
      if ShouldLog(display, epochs - 1) {
        LogsMatchAppend(DueLines(display, costs, n, batchSize, epochs - 1), LoggedEpochs(display, epochs - 1),
                        costs, n, batchSize, epochs);
      }
    }
  }

  lemma {:induction false} TraceLines<R>(X: seq<R>, shuffle: bool, perms: seq<seq<nat>>, costs: seq<seq<real>>,
                                         batchSize: int, display: Option<int>, epochs: nat)
    requires 0 < batchSize <= |X|
    requires FitInputs(|X|, shuffle, perms, costs, batchSize, epochs)
    ensures FitTrace(X, shuffle, perms, costs, batchSize, display, epochs).logs ==
      DueLines(display, costs, |X|, batchSize, epochs)
  {
    if epochs > 0 {
      var epoch := epochs - 1;
      FitInputsPrefix(|X|, shuffle, perms, costs, batchSize, epochs, epoch);
      TraceLines(X, shuffle, perms, costs, batchSize, display, epoch);
      var before := FitTrace(X, shuffle, perms, costs, batchSize, display, epoch);
      var batches := EpochBatches(X, shuffle, if shuffle then perms[epoch] else [], batchSize);
      HasBatch(|X|, batchSize);
      FitStep(X, shuffle, perms, costs, batchSize, display, epoch, before.calls, before.logs, batches,
              AvgCost(costs[epoch], |X|, batchSize));
    }
  }

  /**
   * When the data holds a full batch, `fit` prints one line for each due
   * epoch, in order, each with that epoch's `avg_cost`.
   */
  lemma {:induction false} LogLines<R>(X: seq<R>, shuffle: bool, perms: seq<seq<nat>>, costs: seq<seq<real>>,
                    batchSize: int, display: Option<int>, epochs: nat)
    requires 0 < batchSize <= |X|
    requires FitInputs(|X|, shuffle, perms, costs, batchSize, epochs)
    ensures LogsMatch(FitTrace(X, shuffle, perms, costs, batchSize, display, epochs).logs,
                      LoggedEpochs(display, epochs), costs, |X|, batchSize)
  {
    TraceLines(X, shuffle, perms, costs, batchSize, display, epochs);
    DueLinesMatch(display, costs, |X|, batchSize, epochs);
  }

  /** With at least batch_size rows an epoch has a batch. */
  lemma HasBatch(n: nat, batchSize: int)
    requires 0 < batchSize <= n
    ensures |BatchStarts(n, batchSize)| > 0
  {
    StartsAreMultiples(n, batchSize);
    MulAtLeastOne(n, batchSize);
  }

  lemma MulAtLeastOne(n: int, d: int)
    requires 0 < d <= n
    ensures n / d >= 1
  {
  }

  /** With no display step, or a display step of 0, `fit` never prints. */
  lemma {:induction false} DisplayOff(display: Option<int>, epochs: nat)
    requires display.None? || display == Some(0)
    ensures LoggedEpochs(display, epochs) == []
  {
    if epochs > 0 {
      DisplayOff(display, epochs - 1);
    }
  }
}
