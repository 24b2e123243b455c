/**
  The tensor merger: one sparse co-occurrence dict per corpus, keyed by
  (focal, context), becomes one dict keyed by (focal, context, corpus index).
 */
module TensorMerger {

  /** A (focal id, context id) key of a per-corpus co-occurrence dict. */
  type Pair = (int, int)

  /** A (focal id, context id, corpus index) key of the merged tensor. */
  type Triple = (int, int, int)

  /** What the external per-corpus statistics builder hands over for one corpus. */
  datatype CorpusStats = CorpusStats(cooccurrences: map<Pair, real>, vocabSize: nat)

  /** The attribute holding the co-occurrence data: nothing before the first fit,
      a list of per-corpus dicts while corpora are collected, then the merged dict. */
  datatype TensorState =
    | NoTensor
    | Stacked(maps: seq<map<Pair, real>>)
    | Merged(m: map<Triple, real>)

  /** `key + (i,)` */
  function Tag(p: Pair, i: int): Triple {
    (p.0, p.1, i)
  }

  /** The dict `t` built for corpus `i`: every key gets the corpus index appended. */
  function Rekey(d: map<Pair, real>, i: int): map<Triple, real> {
    map p | p in d :: Tag(p, i) := d[p]
  }

  /** The list of rekeyed dicts, one per corpus, in corpus order. */
  function RekeyAll(ds: seq<map<Pair, real>>): (ts: seq<map<Triple, real>>)
    ensures |ts| == |ds|
  {
    seq(|ds|, i requires 0 <= i < |ds| => Rekey(ds[i], i))
  }

  /** `{k: v for d in ts for k, v in d.items()}`: later dicts win on a shared key. */
  function UnionAll(ts: seq<map<Triple, real>>): map<Triple, real> {
    if |ts| == 0 then map[] else UnionAll(ts[..|ts| - 1]) + ts[|ts| - 1]
  }

  /** The merged co-occurrence tensor of the per-corpus dicts `ds`. */
  function Merge(ds: seq<map<Pair, real>>): map<Triple, real> {
    UnionAll(RekeyAll(ds))
  }

  /** The per-corpus dicts of a list of corpora, in order. */
  function CooccurrenceMaps(cs: seq<CorpusStats>): (ds: seq<map<Pair, real>>)
    ensures |ds| == |cs|
    ensures forall i :: 0 <= i < |cs| ==> ds[i] == cs[i].cooccurrences
  {
    seq(|cs|, i requires 0 <= i < |cs| => cs[i].cooccurrences)
  }

  /** v1 + ... + vk: vocabulary sizes are concatenated, never deduplicated. */
  function SumVocab(cs: seq<CorpusStats>): nat {
    if |cs| == 0 then 0 else SumVocab(cs[..|cs| - 1]) + cs[|cs| - 1].vocabSize
  }

  /** The total number of entries of the per-corpus dicts. */
  function SumSizes(ds: seq<map<Pair, real>>): nat {
    if |ds| == 0 then 0 else SumSizes(ds[..|ds| - 1]) + |ds[|ds| - 1]|
  }

  /** Rekeying corpus `i` keeps every entry, with its count, under the tagged key,
      and adds nothing else. */
  lemma RekeyEntries(d: map<Pair, real>, i: int)
    ensures forall t: Triple :: t in Rekey(d, i) <==> t.2 == i && (t.0, t.1) in d
    ensures forall t: Triple :: t in Rekey(d, i) ==> Rekey(d, i)[t] == d[(t.0, t.1)]
  {
    forall t: Triple | t.2 == i && (t.0, t.1) in d
      ensures t in Rekey(d, i)
    {
      assert Tag((t.0, t.1), i) == t;
    }
  }

  /** Rekeying is injective, so corpus `i`'s dict keeps its size. */
  lemma {:induction false} RekeySize(d: map<Pair, real>, i: int)
    ensures |Rekey(d, i)| == |d|
    decreases |d|
  {
    if |d| != 0 {
      var p :| p in d;
      var rest := d - {p};
      RekeySize(rest, i);
      RekeyEntries(d, i);
      RekeyEntries(rest, i);
      assert Rekey(d, i).Keys == Rekey(rest, i).Keys + {Tag(p, i)};
      assert Tag(p, i) !in Rekey(rest, i).Keys;
    } else {
      assert d == map[];
    }
  }

  /** Every dict of `ts` tagged with its own position `j` in the list. */
  ghost predicate TaggedByPosition(ts: seq<map<Triple, real>>) {
    forall j: int, t: Triple :: 0 <= j < |ts| && t in ts[j] ==> t.2 == j
  }

  /** The sizes of the dicts of `ts`, added up. */
  function SumTensorSizes(ts: seq<map<Triple, real>>): nat {
    if |ts| == 0 then 0 else SumTensorSizes(ts[..|ts| - 1]) + |ts[|ts| - 1]|
  }

  /** The union of dicts tagged by position loses no entry and has no collision. */
  lemma {:induction false} UnionAllTagged(ts: seq<map<Triple, real>>)
    requires TaggedByPosition(ts)
    ensures forall t: Triple :: t in UnionAll(ts) <==> 0 <= t.2 < |ts| && t in ts[t.2]
    ensures forall t: Triple :: t in UnionAll(ts) ==> UnionAll(ts)[t] == ts[t.2][t]
    ensures |UnionAll(ts)| == SumTensorSizes(ts)
  {
    if |ts| != 0 {
      var n := |ts| - 1;
      var front := ts[..n];
      assert TaggedByPosition(front);
      UnionAllTagged(front);
      assert UnionAll(ts) == UnionAll(front) + ts[n];
      assert UnionAll(front).Keys !! ts[n].Keys;
      assert (UnionAll(front) + ts[n]).Keys == UnionAll(front).Keys + ts[n].Keys;
    }
  }

  /** The corpus-index tagging of `RekeyAll` is by position. */
  lemma RekeyAllTagged(ds: seq<map<Pair, real>>)
    ensures TaggedByPosition(RekeyAll(ds))
  {
    forall i | 0 <= i < |ds| {
      RekeyEntries(ds[i], i);
    }
  }

  /** Sizes survive rekeying dict by dict. */
  lemma {:induction false} RekeyAllSizes(ds: seq<map<Pair, real>>)
    ensures SumTensorSizes(RekeyAll(ds)) == SumSizes(ds)
  {
    if |ds| != 0 {
      var n := |ds| - 1;
      assert RekeyAll(ds)[..n] == RekeyAll(ds[..n]);
      RekeyAllSizes(ds[..n]);
      RekeySize(ds[n], n);
    }
  }

  /** The merged tensor holds the entry (f, c, i) -> x exactly when corpus `i` holds
      (f, c) -> x: every merged key comes from one corpus entry with the same count,
      and its corpus index lies in [0, number of corpora). */
  lemma MergeEntries(ds: seq<map<Pair, real>>)
    ensures forall t: Triple :: t in Merge(ds) <==> 0 <= t.2 < |ds| && (t.0, t.1) in ds[t.2]
    ensures forall t: Triple :: t in Merge(ds) ==> Merge(ds)[t] == ds[t.2][(t.0, t.1)]
  {
    RekeyAllTagged(ds);
    UnionAllTagged(RekeyAll(ds));
    forall i | 0 <= i < |ds| {
      RekeyEntries(ds[i], i);
    }
  }

  /** No two corpus entries collide, so the merged size is the sum of the
      per-corpus dict sizes. */
  lemma MergeSize(ds: seq<map<Pair, real>>)
    ensures |Merge(ds)| == SumSizes(ds)
  {
    RekeyAllTagged(ds);
    UnionAllTagged(RekeyAll(ds));
    RekeyAllSizes(ds);
  }

  /** Two fits in a row add up their vocabulary sizes as one fit over both lists would. */
  lemma {:induction false} SumVocabAppend(a: seq<CorpusStats>, b: seq<CorpusStats>)
    ensures SumVocab(a + b) == SumVocab(a) + SumVocab(b)
    decreases |b|
  {
    if |b| != 0 {
      var n := |b| - 1;
      assert (a + b)[..|a + b| - 1] == a + b[..n];
      SumVocabAppend(a, b[..n]);
    } else {
      assert a + b == a;
    }
  }
}
