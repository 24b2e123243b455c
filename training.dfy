/**
  The control skeleton of the training loop: the per-epoch shuffle, the skipping
  of undersized batches, the step counter and the summary / t-SNE schedule. The
  optimizer step itself is opaque; the model records which batch it was fed.
 */
module Training {
  import opened Outcomes
  import opened BatchGenerator

  /** What a run of `train` did: the batches fed to the optimizer in each epoch, the
      final step counter, the steps written as summaries and the epochs snapshotted
      by t-SNE (an epoch e is saved as image number e + 1). */
  datatype TrainTrace = TrainTrace(epochs: seq<seq<Batch>>, totalSteps: nat,
                                   summaries: seq<nat>, snapshots: seq<nat>)

  /** Python truthiness of an optional integer setting: None and 0 are false. */
  predicate Truthy(setting: Option<int>) {
    setting.Some? && setting.value != 0
  }

  /** The values s of a counter running over [0, n) at which a test
      `(s + 1) % p == 0` fires, in increasing order. */
  function Ticks(n: nat, p: int): seq<nat>
    requires p != 0
  {
    if n == 0 then [] else Ticks(n - 1, p) + (if n % p == 0 then [n - 1] else [])
  }

  /** The schedule fires exactly at the counter values s < n with (s + 1) % p == 0. */
  lemma {:induction false} TicksMembers(n: nat, p: int)
    requires p != 0
    ensures forall s: nat :: s in Ticks(n, p) <==> s < n && (s + 1) % p == 0
  {
    if n != 0 {
      TicksMembers(n - 1, p);
    }
  }

  /** The schedule is strictly increasing and every value lies below n. */
  lemma {:induction false} TicksIncreasing(n: nat, p: int)
    requires p != 0
    ensures forall i :: 0 <= i < |Ticks(n, p)| ==> Ticks(n, p)[i] < n
    ensures forall i, j :: 0 <= i < j < |Ticks(n, p)| ==> Ticks(n, p)[i] < Ticks(n, p)[j]
  {
    if n != 0 {
      TicksIncreasing(n - 1, p);
    }
  }

  /** A positive interval p fires floor(n / p) times over n counter values. */
  lemma {:induction false} TicksCount(n: nat, p: int)
    requires p > 0
    ensures |Ticks(n, p)| == n / p
  {
    if n != 0 {
      TicksCount(n - 1, p);
      var q, r := (n - 1) / p, (n - 1) % p;
      DivUnique(n - 1, p, q, r);
      if r == p - 1 {
        assert n == (q + 1) * p + 0;
        DivUnique(n, p, q + 1, 0);
      } else {
        DivUnique(n, p, q, r + 1);
      }
    }
  }

  /** `random.shuffle`: Fisher-Yates from the back, the draw for position i taken
      from `draw(i)` and reduced into [0, i]. Only the permutation is promised. */
  method Shuffle<T>(a: array<T>, draw: nat -> nat)
    modifies a
    ensures multiset(a[..]) == multiset(old(a[..]))
  {
    var i := a.Length;
    while i > 1
      invariant 0 <= i <= a.Length
      invariant multiset(a[..]) == multiset(old(a[..]))
    {
      i := i - 1;
      var j := draw(i) % (i + 1);
      a[i], a[j] := a[j], a[i];
    }
  }

  /** Every batch occurs among the full batches as often as it occurs among all
      batches when it is full, and never otherwise. */
  lemma {:induction false} FullBatchesCounts(bs: seq<Batch>, b: int)
    ensures forall x :: multiset(FullBatches(bs, b))[x] == if IsFull(x, b) then multiset(bs)[x] else 0
  {
    if |bs| != 0 {
      var n := |bs| - 1;
      FullBatchesCounts(bs[..n], b);
      assert bs == bs[..n] + [bs[n]];
      assert multiset(bs) == multiset(bs[..n]) + multiset{bs[n]};
    }
  }

  /** Shuffling only reorders: the full batches of a permutation are a permutation
      of the full batches. */
  lemma FullBatchesPermutation(s: seq<Batch>, t: seq<Batch>, b: int)
    requires multiset(s) == multiset(t)
    ensures multiset(FullBatches(s, b)) == multiset(FullBatches(t, b))
    ensures |FullBatches(s, b)| == |FullBatches(t, b)|
  {
    FullBatchesCounts(s, b);
    FullBatchesCounts(t, b);
    assert multiset(FullBatches(s, b)) == multiset(FullBatches(t, b));
    assert |multiset(FullBatches(s, b))| == |FullBatches(s, b)|;
    assert |multiset(FullBatches(t, b))| == |FullBatches(t, b)|;
  }

  /** One pass of the inner `for batch in batches` loop: undersized batches are
      skipped, every full batch is fed to one optimizer step, and a summary is
      recorded at the global steps the schedule picks. */
  method RunEpoch(batches: array<Batch>, batchSize: int, writeSummaries: bool, interval: int,
                  steps0: nat, summaries0: seq<nat>)
    returns (fed: seq<Batch>, steps: nat, summaries: seq<nat>)
    requires writeSummaries ==> interval != 0
    requires summaries0 == if writeSummaries then Ticks(steps0, interval) else []
    ensures fed == FullBatches(batches[..], batchSize)
    ensures steps == steps0 + |fed|
    ensures summaries == if writeSummaries then Ticks(steps, interval) else []
  {
    fed, steps, summaries := [], steps0, summaries0;
    for index := 0 to batches.Length
      invariant fed == FullBatches(batches[..index], batchSize)
      invariant steps == steps0 + |fed|
      invariant summaries == if writeSummaries then Ticks(steps, interval) else []
    {
      assert batches[..index + 1] == batches[..index] + [batches[index]];
      var batch := batches[index];
      if |batch.counts| != batchSize {
        continue;
      }
      fed := fed + [batch];
      if writeSummaries && (steps + 1) % interval == 0 {
        summaries := summaries + [steps];
      }
      steps := steps + 1;
    }
    assert batches[..batches.Length] == batches[..];
  }

  /** The step counter after `epochs` epochs of `perEpoch` steps each. */
  function StepsAfter(epochs: nat, perEpoch: nat): nat {
    if epochs == 0 then 0 else StepsAfter(epochs - 1, perEpoch) + perEpoch
  }

  lemma {:induction false} StepsAfterProduct(epochs: nat, perEpoch: nat)
    ensures StepsAfter(epochs, perEpoch) == epochs * perEpoch
  {
    if epochs != 0 {
      StepsAfterProduct(epochs - 1, perEpoch);
      assert epochs * perEpoch == (epochs - 1) * perEpoch + perEpoch;
    }
  }

  /** One epoch: shuffle the list in place, run one pass over it, then snapshot if
      the t-SNE schedule picks this epoch. Stated against `all`, any list the current
      one is a permutation of. */
  method ShuffledEpoch(batches: array<Batch>, ghost all: seq<Batch>, batchSize: int, epoch: nat,
                       writeSummaries: bool, interval: int, steps0: nat, summaries0: seq<nat>,
                       makeSnapshots: bool, tsneInterval: int, snapshots0: seq<nat>,
                       draw: nat -> nat)
    returns (fed: seq<Batch>, steps: nat, summaries: seq<nat>, snapshots: seq<nat>)
    requires multiset(batches[..]) == multiset(all)
    requires writeSummaries ==> interval != 0
    requires makeSnapshots ==> tsneInterval != 0
    requires summaries0 == if writeSummaries then Ticks(steps0, interval) else []
    requires snapshots0 == if makeSnapshots then Ticks(epoch, tsneInterval) else []
    modifies batches
    ensures multiset(batches[..]) == multiset(all)
    ensures multiset(fed) == multiset(FullBatches(all, batchSize))
    ensures steps == steps0 + |FullBatches(all, batchSize)|
    ensures summaries == if writeSummaries then Ticks(steps, interval) else []
    ensures snapshots == if makeSnapshots then Ticks(epoch + 1, tsneInterval) else []
  {
    Shuffle(batches, draw);
    FullBatchesPermutation(batches[..], all, batchSize);
    fed, steps, summaries := RunEpoch(batches, batchSize, writeSummaries, interval, steps0, summaries0);
    snapshots := snapshots0;
    if makeSnapshots && (epoch + 1) % tsneInterval == 0 {
      snapshots := snapshots + [epoch];
    }
  }

  /** The epoch loop of `train` over the batch list `batches`: each epoch shuffles
      the list in place, runs one pass over it, and snapshots at the epochs the
      t-SNE schedule picks. */
  method RunEpochs(batches: array<Batch>, rounds: nat, batchSize: int,
                   writeSummaries: bool, summaryInterval: int,
                   makeSnapshots: bool, tsneInterval: int, rand: (nat, nat) -> nat)
    returns (trace: TrainTrace)
    requires writeSummaries ==> summaryInterval != 0
    requires makeSnapshots ==> tsneInterval != 0
    modifies batches
    ensures multiset(batches[..]) == multiset(old(batches[..]))
    ensures |trace.epochs| == rounds
    ensures forall e :: 0 <= e < rounds ==>
      multiset(trace.epochs[e]) == multiset(FullBatches(old(batches[..]), batchSize))
    ensures trace.totalSteps == rounds * |FullBatches(old(batches[..]), batchSize)|
    ensures trace.summaries == if writeSummaries then Ticks(trace.totalSteps, summaryInterval) else []
    ensures trace.snapshots == if makeSnapshots then Ticks(rounds, tsneInterval) else []
  {
    ghost var all := batches[..];
    ghost var full := FullBatches(all, batchSize);
    var epochs: seq<seq<Batch>> := [];
    var totalSteps: nat := 0;
    var summaries: seq<nat> := [];
    var snapshots: seq<nat> := [];
    for epoch := 0 to rounds
      invariant multiset(batches[..]) == multiset(all)
      invariant |epochs| == epoch
      invariant forall e :: 0 <= e < epoch ==> multiset(epochs[e]) == multiset(full)
      invariant totalSteps == StepsAfter(epoch, |full|)
      invariant summaries == if writeSummaries then Ticks(totalSteps, summaryInterval) else []
      invariant snapshots == if makeSnapshots then Ticks(epoch, tsneInterval) else []
    {
      var fed;
      fed, totalSteps, summaries, snapshots :=
        ShuffledEpoch(batches, all, batchSize, epoch, writeSummaries, summaryInterval, totalSteps, summaries,
                      makeSnapshots, tsneInterval, snapshots, i => rand(epoch, i));
      assert forall e :: 0 <= e < epoch ==> (epochs + [fed])[e] == epochs[e];
      epochs := epochs + [fed];
    }
    StepsAfterProduct(rounds, |full|);
    trace := TrainTrace(epochs, totalSteps, summaries, snapshots);
  }
}
