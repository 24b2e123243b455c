/**
  The batch generator: the merged tensor flattened into four parallel columns
  (focal ids, context ids, corpus indices, counts) and sliced into contiguous
  chunks of `batch_size`, the undersized tail kept as the last chunk.
 */
module BatchGenerator {
  import opened Outcomes
  import opened TensorMerger

  /** Four parallel sequences; both the flattened tensor and each batch have this shape. */
  datatype Columns = Columns(focal: seq<int>, context: seq<int>, corpus: seq<int>, counts: seq<real>)

  type Batch = Columns

  /** One flattened entry `(word_ids[0], word_ids[1], word_ids[2], count)`. */
  type Entry = (int, int, int, real)

  /** All four columns have length `n`. */
  predicate HasLength(c: Columns, n: int) {
    |c.focal| == n && |c.context| == n && |c.corpus| == n && |c.counts| == n
  }

  /** `order` lists every key of `m` exactly once: the dict's iteration order. */
  ghost predicate IsEnumeration(order: seq<Triple>, m: map<Triple, real>) {
    (forall i, j :: 0 <= i < j < |order| ==> order[i] != order[j]) &&
    (forall t :: t in m <==> t in order)
  }

  lemma {:induction false} EnumerationSize(order: seq<Triple>, m: map<Triple, real>)
    requires IsEnumeration(order, m)
    ensures |order| == |m|
    decreases |order|
  {
    if |order| == 0 {
      assert m.Keys == {};
    } else {
      var n := |order| - 1;
      var last := order[n];
      var rest := m - {last};
      assert IsEnumeration(order[..n], rest) by {
        forall t ensures t in rest <==> t in order[..n] {
          if t in order {
            var j :| 0 <= j < |order| && order[j] == t;
            assert t == last <==> j == n;
          }
          assert t in order <==> t in order[..n] || t == last;
        }
      }
      EnumerationSize(order[..n], rest);
      assert m.Keys == rest.Keys + {last};
    }
  }

  /** `[(w[0], w[1], w[2], count) for w, count in m.items()]`, in iteration order `order`. */
  function Cooccurrences(m: map<Triple, real>, order: seq<Triple>): (es: seq<Entry>)
    requires forall j :: 0 <= j < |order| ==> order[j] in m
    ensures |es| == |order|
  {
    seq(|order|, j requires 0 <= j < |order| => (order[j].0, order[j].1, order[j].2, m[order[j]]))
  }

  /** Rows of equal-length columns, paired up position by position. */
  function Zip(c: Columns): (es: seq<Entry>)
    requires HasLength(c, |c.focal|)
  {
    seq(|c.focal|, j requires 0 <= j < |c.focal| => (c.focal[j], c.context[j], c.corpus[j], c.counts[j]))
  }

  /** `zip(*es)` unpacked into four names: an empty list leaves nothing to unpack. */
  function Unzip(es: seq<Entry>): (r: Result<Columns>)
    ensures r.Err? <==> |es| == 0
    ensures r.Err? ==> r.error == UnpackError
    ensures r.Ok? ==> HasLength(r.value, |es|) && Zip(r.value) == es
  {
    if |es| == 0 then Err(UnpackError)
    else
      Ok(Columns(seq(|es|, j requires 0 <= j < |es| => es[j].0),
                 seq(|es|, j requires 0 <= j < |es| => es[j].1),
                 seq(|es|, j requires 0 <= j < |es| => es[j].2),
                 seq(|es|, j requires 0 <= j < |es| => es[j].3)))
  }

  /** The four columns of the merged tensor, in iteration order `order`. */
  function Flatten(m: map<Triple, real>, order: seq<Triple>): Result<Columns>
    requires IsEnumeration(order, m)
  {
    Unzip(Cooccurrences(m, order))
  }

  /** Flattening a non-empty tensor gives four columns as long as the tensor, whose
      rows are exactly the tensor's entries, each once; an empty tensor fails. */
  lemma FlattenEntries(m: map<Triple, real>, order: seq<Triple>)
    requires IsEnumeration(order, m)
    ensures Flatten(m, order).Err? <==> |m| == 0
    ensures Flatten(m, order).Err? ==> Flatten(m, order).error == UnpackError
    ensures Flatten(m, order).Ok? ==>
      var c := Flatten(m, order).value;
      HasLength(c, |m|) &&
      (forall j :: 0 <= j < |m| ==>
        (c.focal[j], c.context[j], c.corpus[j]) in m &&
        m[(c.focal[j], c.context[j], c.corpus[j])] == c.counts[j]) &&
      (forall i, j :: 0 <= i < j < |m| ==>
        (c.focal[i], c.context[i], c.corpus[i]) != (c.focal[j], c.context[j], c.corpus[j])) &&
      (forall t :: t in m ==> exists j :: 0 <= j < |m| && (c.focal[j], c.context[j], c.corpus[j]) == t)
  {
    EnumerationSize(order, m);
    var es := Cooccurrences(m, order);
    if |m| != 0 {
      var c := Flatten(m, order).value;
      assert Zip(c) == es;
      forall j | 0 <= j < |m|
        ensures (c.focal[j], c.context[j], c.corpus[j]) == order[j]
      {
        assert Zip(c)[j] == es[j];
      }
      forall t | t in m
        ensures exists j :: 0 <= j < |m| && (c.focal[j], c.context[j], c.corpus[j]) == t
      {
        var j :| 0 <= j < |order| && order[j] == t;
      }
    }
  }

  /** `range(start, stop, step)` for a positive step. */
  function Range(start: nat, stop: nat, step: nat): seq<nat>
    requires step > 0
    decreases stop - start
  {
    if start >= stop then [] else [start] + Range(start + step, stop, step)
  }

  /** `range` yields ceil((stop - start) / step) offsets. */
  lemma {:induction false} RangeLength(start: nat, stop: nat, step: nat)
    requires step > 0
    ensures |Range(start, stop, step)| == if start >= stop then 0 else (stop - start + step - 1) / step
    decreases stop - start
  {
    if start < stop {
      var rest := Range(start + step, stop, step);
      RangeLength(start + step, stop, step);
      assert |Range(start, stop, step)| == 1 + |rest|;
      if start + step >= stop {
        DivUnique(stop - start + step - 1, step, 1, stop - start - 1);
      } else {
        var q := (stop - start - 1) / step;
        var m := (stop - start - 1) % step;
        DivUnique(stop - start - 1, step, q, m);
        assert |rest| == q;
        DivUnique(stop - start + step - 1, step, q + 1, m);
      }
    }
  }

  /** The offsets of `range` are start, start + step, ..., all below `stop`, and the
      last one is within a step of `stop`. */
  lemma {:induction false} RangeAt(start: nat, stop: nat, step: nat)
    requires step > 0
    ensures forall j :: 0 <= j < |Range(start, stop, step)| ==>
      Range(start, stop, step)[j] == start + j * step && Range(start, stop, step)[j] < stop
    ensures |Range(start, stop, step)| > 0 ==>
      Range(start, stop, step)[|Range(start, stop, step)| - 1] + step >= stop
    decreases stop - start
  {
    if start < stop {
      var r := Range(start, stop, step);
      var rest := Range(start + step, stop, step);
      RangeAt(start + step, stop, step);
      assert r == [start] + rest;
      forall j | 0 <= j < |r|
        ensures r[j] == start + j * step && r[j] < stop
      {
        if j > 0 {
          assert r[j] == rest[j - 1];
          assert (j - 1) * step + step == j * step;
        }
      }
    }
  }

  /** The j-th offset of `range(start, stop, step)` is start + j * step, below `stop`. */
  lemma {:induction false} RangeOffset(start: nat, stop: nat, step: nat, j: nat)
    requires step > 0 && j < |Range(start, stop, step)|
    ensures Range(start, stop, step)[j] == start + j * step < stop
    decreases j
  {
    var rest := Range(start + step, stop, step);
    assert Range(start, stop, step) == [start] + rest;
    if j > 0 {
      RangeOffset(start + step, stop, step, j - 1);
      assert (j - 1) * step + step == j * step;
    }
  }

  /** The last offset of `range(0, stop, step)` is within a step of `stop`. */
  lemma LastOffset(start: nat, stop: nat, step: nat)
    requires step > 0 && start == 0 && |Range(start, stop, step)| > 0
    ensures (|Range(start, stop, step)| - 1) * step + step >= stop
  {
    RangeAt(start, stop, step);
  }

  /** Division with a non-negative remainder below the divisor is unique. */
  lemma DivUnique(n: int, d: int, q: int, r: int)
    requires d > 0 && 0 <= r < d && n == q * d + r
    ensures n / d == q && n % d == r
  {
    var q', r' := n / d, n % d;
    assert n == q' * d + r';
    if q' > q {
      assert (q' - q) * d == q' * d - q * d;
      MulAtLeast(q' - q, d);
      assert false;
    } else if q' < q {
      assert (q - q') * d == q * d - q' * d;
      MulAtLeast(q - q', d);
      assert false;
    }
  }

  lemma {:induction false} MulAtLeast(a: int, d: int)
    requires a >= 1 && d > 0
    ensures a * d >= d
    decreases a
  {
    if a > 1 {
      MulAtLeast(a - 1, d);
      assert a * d == (a - 1) * d + d;
    }
  }

  /** `s[i:j]` with Python's clamping for `0 <= i <= j`. */
  function Slice<T>(s: seq<T>, i: nat, j: nat): (r: seq<T>)
    requires i <= j
  {
    s[(if i < |s| then i else |s|)..(if j < |s| then j else |s|)]
  }

  /** `sequence[o:o+b]` for every offset `o`, in order. */
  function Pieces<T>(s: seq<T>, offsets: seq<nat>, b: nat): (r: seq<seq<T>>)
    ensures |r| == |offsets|
  {
    seq(|offsets|, j requires 0 <= j < |offsets| => Slice(s, offsets[j], offsets[j] + b))
  }

  /** All the chunks, joined in order. */
  function Concat<T>(ss: seq<seq<T>>): seq<T> {
    if |ss| == 0 then [] else ss[0] + Concat(ss[1..])
  }

  /** `_batchify(b, fs, cs, ks, ns)`: for each offset of `range(0, len(fs), b)`, the
      tuple of the four slices at that offset. */
  function Batchify(b: nat, fs: seq<int>, cs: seq<int>, ks: seq<int>, ns: seq<real>): seq<Batch>
    requires b > 0
  {
    var offsets := Range(0, |fs|, b);
    seq(|offsets|, j requires 0 <= j < |offsets| => Chunk(b, fs, cs, ks, ns, offsets[j]))
  }

  /** `tuple(sequence[o:o+b] for sequence in sequences)` */
  function Chunk(b: nat, fs: seq<int>, cs: seq<int>, ks: seq<int>, ns: seq<real>, o: nat): Batch {
    Columns(Slice(fs, o, o + b), Slice(cs, o, o + b), Slice(ks, o, o + b), Slice(ns, o, o + b))
  }

  /** Chunks starting at `start` put `s[start..]` back together. */
  lemma {:induction false} ConcatPieces<T>(s: seq<T>, start: nat, b: nat)
    requires b > 0 && start <= |s|
    ensures Concat(Pieces(s, Range(start, |s|, b), b)) == s[start..]
    decreases |s| - start
  {
    var offsets := Range(start, |s|, b);
    var ps := Pieces(s, offsets, b);
    if start == |s| {
      assert ps == [];
    } else if start + b >= |s| {
      assert Range(start + b, |s|, b) == [];
      assert offsets == [start];
      assert |ps| == 1 && ps[0] == s[start..];
      assert Concat(ps) == ps[0] + Concat(ps[1..]);
      assert ps[1..] == [];
    } else {
      var rest := Range(start + b, |s|, b);
      assert offsets == [start] + rest;
      assert ps[1..] == Pieces(s, rest, b);
      ConcatPieces(s, start + b, b);
      assert ps[0] == s[start..start + b];
      assert s[start..] == s[start..start + b] + s[start + b..];
    }
  }

  /** Batch `j` of `_batchify` holds the four slices at offset `j * b`, which lies below L. */
  lemma BatchAt(b: nat, fs: seq<int>, cs: seq<int>, ks: seq<int>, ns: seq<real>, j: nat)
    requires b > 0 && j < |Batchify(b, fs, cs, ks, ns)|
    ensures j * b < |fs|
    ensures Batchify(b, fs, cs, ks, ns)[j] == Chunk(b, fs, cs, ks, ns, j * b)
  {
    RangeOffset(0, |fs|, b, j);
  }

  /** Consecutive offsets of `range` are one step apart, and both lie below `stop`. */
  lemma {:induction false} RangeNext(start: nat, stop: nat, step: nat, j: nat)
    requires step > 0 && j + 1 < |Range(start, stop, step)|
    ensures Range(start, stop, step)[j + 1] == Range(start, stop, step)[j] + step
    ensures Range(start, stop, step)[j + 1] < stop
    decreases j
  {
    var rest := Range(start + step, stop, step);
    assert Range(start, stop, step) == [start] + rest;
    if j > 0 {
      RangeNext(start + step, stop, step, j - 1);
    } else {
      assert rest == [start + step] + Range(start + 2 * step, stop, step);
    }
  }

  /** Every batch before the last has `b` entries in every column. */
  lemma InnerBatchFull(b: nat, fs: seq<int>, cs: seq<int>, ks: seq<int>, ns: seq<real>, j: nat)
    requires b > 0 && |cs| == |fs| && |ks| == |fs| && |ns| == |fs|
    requires j + 1 < |Batchify(b, fs, cs, ks, ns)|
    ensures HasLength(Batchify(b, fs, cs, ks, ns)[j], b)
  {
    var offsets := Range(0, |fs|, b);
    RangeNext(0, |fs|, b, j);
    var o := offsets[j];
    assert o + b < |fs|;
    SliceLength(fs, o, b);
    SliceLength(cs, o, b);
    SliceLength(ks, o, b);
    SliceLength(ns, o, b);
  }

  /** A slice that fits inside the sequence has its full width. */
  lemma SliceLength<T>(s: seq<T>, o: nat, b: nat)
    requires o + b <= |s|
    ensures |Slice(s, o, o + b)| == b
  {
  }

  /** The last batch holds the 0 < L - b * (n - 1) <= b entries left over. */
  lemma LastBatchLength(b: nat, fs: seq<int>, cs: seq<int>, ks: seq<int>, ns: seq<real>)
    requires b > 0 && |cs| == |fs| && |ks| == |fs| && |ns| == |fs|
    requires |Batchify(b, fs, cs, ks, ns)| > 0
    ensures var n := |Batchify(b, fs, cs, ks, ns)|;
      0 < |fs| - b * (n - 1) <= b &&
      HasLength(Batchify(b, fs, cs, ks, ns)[n - 1], |fs| - b * (n - 1))
  {
    var n := |Batchify(b, fs, cs, ks, ns)|;
    BatchAt(b, fs, cs, ks, ns, n - 1);
    LastOffset(0, |fs|, b);
    assert b * (n - 1) == (n - 1) * b;
  }

  /** `_batchify` yields ceil(L / b) batches; all but the last have length `b` in every
      column, the last has length L - b * (count - 1). */
  lemma BatchifyShape(b: nat, fs: seq<int>, cs: seq<int>, ks: seq<int>, ns: seq<real>)
    requires b > 0 && |cs| == |fs| && |ks| == |fs| && |ns| == |fs|
    ensures |Batchify(b, fs, cs, ks, ns)| == (|fs| + b - 1) / b
    ensures forall j :: 0 <= j < |Batchify(b, fs, cs, ks, ns)| - 1 ==>
      HasLength(Batchify(b, fs, cs, ks, ns)[j], b)
    ensures |Batchify(b, fs, cs, ks, ns)| > 0 ==>
      var n := |Batchify(b, fs, cs, ks, ns)|;
      HasLength(Batchify(b, fs, cs, ks, ns)[n - 1], |fs| - b * (n - 1))
  {
    var r := Batchify(b, fs, cs, ks, ns);
    RangeLength(0, |fs|, b);
    if |fs| == 0 {
      assert Range(0, |fs|, b) == [];
    }
    forall j | 0 <= j < |r| - 1
      ensures HasLength(r[j], b)
    {
      InnerBatchFull(b, fs, cs, ks, ns, j);
    }
    if |r| > 0 {
      LastBatchLength(b, fs, cs, ks, ns);
    }
  }

  /** Joining the chunks of each column, in order, gives back that column. */
  lemma BatchifyConcat(b: nat, fs: seq<int>, cs: seq<int>, ks: seq<int>, ns: seq<real>)
    requires b > 0 && |cs| == |fs| && |ks| == |fs| && |ns| == |fs|
    ensures var r := Batchify(b, fs, cs, ks, ns);
      Concat(seq(|r|, j requires 0 <= j < |r| => r[j].focal)) == fs &&
      Concat(seq(|r|, j requires 0 <= j < |r| => r[j].context)) == cs &&
      Concat(seq(|r|, j requires 0 <= j < |r| => r[j].corpus)) == ks &&
      Concat(seq(|r|, j requires 0 <= j < |r| => r[j].counts)) == ns
  {
    var offsets := Range(0, |fs|, b);
    var r := Batchify(b, fs, cs, ks, ns);
    assert Range(0, |cs|, b) == offsets && Range(0, |ks|, b) == offsets && Range(0, |ns|, b) == offsets;
    assert seq(|r|, j requires 0 <= j < |r| => r[j].focal) == Pieces(fs, offsets, b);
    assert seq(|r|, j requires 0 <= j < |r| => r[j].context) == Pieces(cs, offsets, b);
    assert seq(|r|, j requires 0 <= j < |r| => r[j].corpus) == Pieces(ks, offsets, b);
    assert seq(|r|, j requires 0 <= j < |r| => r[j].counts) == Pieces(ns, offsets, b);
    ConcatPieces(fs, 0, b);
    ConcatPieces(cs, 0, b);
    ConcatPieces(ks, 0, b);
    ConcatPieces(ns, 0, b);
  }

  /** A batch the training loop feeds to the optimizer: its counts have length `b`. */
  predicate IsFull(batch: Batch, b: int) {
    |batch.counts| == b
  }

  /** The batches that survive the `len(counts) != batch_size` test, in order. */
  function FullBatches(bs: seq<Batch>, b: int): seq<Batch> {
    if |bs| == 0 then []
    else FullBatches(bs[..|bs| - 1], b) + (if IsFull(bs[|bs| - 1], b) then [bs[|bs| - 1]] else [])
  }

  /** Only batches of exactly `b` entries survive, and each one is one of `bs`. */
  lemma {:induction false} FullBatchesAreFull(bs: seq<Batch>, b: int)
    ensures forall x :: x in FullBatches(bs, b) ==> IsFull(x, b) && x in bs
  {
    if |bs| != 0 {
      FullBatchesAreFull(bs[..|bs| - 1], b);
    }
  }

  lemma {:induction false} FullBatchesAllFull(bs: seq<Batch>, b: int)
    requires forall j :: 0 <= j < |bs| ==> IsFull(bs[j], b)
    ensures FullBatches(bs, b) == bs
  {
    if |bs| != 0 {
      FullBatchesAllFull(bs[..|bs| - 1], b);
    }
  }

  /** Only the `floor(L / b)` full chunks of `_batchify` reach an optimizer step. */
  lemma BatchifyFullCount(b: nat, fs: seq<int>, cs: seq<int>, ks: seq<int>, ns: seq<real>)
    requires b > 0 && |cs| == |fs| && |ks| == |fs| && |ns| == |fs|
    ensures |FullBatches(Batchify(b, fs, cs, ks, ns), b)| == |fs| / b
  {
    var r := Batchify(b, fs, cs, ks, ns);
    if |fs| == 0 {
      assert r == [];
    } else {
      assert Range(0, |fs|, b) == [0] + Range(b, |fs|, b);
      var n := |r| - 1;
      forall j | 0 <= j < n
        ensures IsFull(r[..n][j], b)
      {
        InnerBatchFull(b, fs, cs, ks, ns, j);
      }
      FullBatchesAllFull(r[..n], b);
      assert r[..n + 1][..n] == r[..n];
      assert FullBatches(r, b) == r[..n] + (if IsFull(r[n], b) then [r[n]] else []);
      LastBatchCount(b, fs, cs, ks, ns);
    }
  }

  /** The last chunk is full exactly when b divides L, and floor(L / b) counts the
      chunks before it, plus the last one when it is full. */
  lemma LastBatchCount(b: nat, fs: seq<int>, cs: seq<int>, ks: seq<int>, ns: seq<real>)
    requires b > 0 && |cs| == |fs| && |ks| == |fs| && |ns| == |fs| && |fs| > 0
    ensures |Batchify(b, fs, cs, ks, ns)| > 0
    ensures var n := |Batchify(b, fs, cs, ks, ns)| - 1;
      |fs| / b == n + (if IsFull(Batchify(b, fs, cs, ks, ns)[n], b) then 1 else 0)
  {
    var r := Batchify(b, fs, cs, ks, ns);
    assert Range(0, |fs|, b) == [0] + Range(b, |fs|, b);
    var n := |r| - 1;
    LastBatchLength(b, fs, cs, ks, ns);
    assert b * n == n * b;
    DivOfLastChunk(|fs|, b, n, |fs| - n * b);
  }

  /** L = n * b + last with 0 < last <= b: floor(L / b) is n, plus one for a full last chunk. */
  lemma DivOfLastChunk(l: int, b: int, n: int, last: int)
    requires b > 0 && 0 < last <= b && l == n * b + last
    ensures l / b == n + (if last == b then 1 else 0)
  {
    if last == b {
      assert l == (n + 1) * b + 0;
      DivUnique(l, b, n + 1, 0);
    } else {
      DivUnique(l, b, n, last);
    }
  }

  /** `__prepare_batches`: the batches of the merged tensor in iteration order `order`. */
  function PrepareBatches(tensor: TensorState, b: nat, order: seq<Triple>): (r: Result<seq<Batch>>)
    requires b > 0
    requires tensor.Merged? ==> IsEnumeration(order, tensor.m)
    ensures tensor.NoTensor? ==> r == Err(NotFitToCorpusError)
    ensures tensor.Stacked? ==> r == Err(AttributeError)
    ensures tensor.Merged? ==> (r.Err? <==> |tensor.m| == 0)
    ensures tensor.Merged? && r.Err? ==> r.error == UnpackError
    ensures r.Ok? ==> |r.value| == (|tensor.m| + b - 1) / b && |FullBatches(r.value, b)| == |tensor.m| / b
  {
    match tensor
    case NoTensor => Err(NotFitToCorpusError)
    case Stacked(_) => Err(AttributeError)
    case Merged(m) =>
      FlattenEntries(m, order);
      match Flatten(m, order)
      case Err(e) => Err(e)
      case Ok(c) =>
        BatchifyShape(b, c.focal, c.context, c.corpus, c.counts);
        BatchifyFullCount(b, c.focal, c.context, c.corpus, c.counts);
        Ok(Batchify(b, c.focal, c.context, c.corpus, c.counts))
  }
}
