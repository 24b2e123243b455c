/**
  The `CoVeRModel` object: its configuration, the co-occurrence tensor and the
  counters that `fit_corpora` updates, the shapes of the graph it builds, and the
  control flow of `train`. The numerics of the graph are not modelled; tables
  are kept as their shapes.
 */
module CoVeR {
  import opened Outcomes
  import opened TensorMerger
  import opened BatchGenerator
  import opened Training

  /** The (rows, columns) shape of a numeric table. */
  datatype Shape = Shape(rows: int, cols: int)

  /** The trainable tables of the graph and the combined-embedding tensor, by shape. */
  datatype Graph = Graph(focal: Shape, context: Shape, covariance: Shape,
                         focalBiases: Shape, contextBiases: Shape, combined: Shape)

  /** What `covariance_embeddings` holds once the graph exists. */
  datatype CovarianceEmbeddings =
    | GraphTensor(shape: Shape)  // `tf.convert_to_tensor` of the variable
    | Evaluated(shape: Shape)    // the array `.eval()` returned after training

  /** The shapes `__build_graph` gives its tables for the given counters. */
  function GraphFor(vocabSize: nat, k: nat, embeddingSize: int): Graph {
    Graph(Shape(vocabSize, embeddingSize), Shape(vocabSize, embeddingSize), Shape(k, embeddingSize),
          Shape(vocabSize, k), Shape(vocabSize, k), Shape(vocabSize, embeddingSize))
  }

  /** The number of iterations of `range(num_epochs)`. */
  function Rounds(numEpochs: int): nat {
    if numEpochs > 0 then numEpochs else 0
  }

  /** `_device_for_node`: the device a graph node of the given type is placed on. */
  function DeviceForNode(nodeType: string): (device: string)
    ensures device == "/gpu:0" <==> nodeType == "Matmul"
    ensures device == "/gpu:0" || device == "/cpu:0"
  {
    if nodeType == "Matmul" then "/gpu:0" else "/cpu:0"
  }

  class CoVeRModel {
    const embeddingSize: int
    const contextSize: int
    const maxVocabSize: int
    const minOccurrences: int
    const scalingFactor: real
    const cooccurrenceCap: real
    const batchSize: nat
    const learningRate: real
    const numEpochs: int
    const logDir: Option<string>
    const summaryBatchInterval: Option<int>
    const tsneEpochInterval: Option<int>

    var covarianceEmbeddings: Option<CovarianceEmbeddings>
    var tensor: TensorState
    var vocabSize: nat
    var k: nat
    var models: seq<CorpusStats>
    var graph: Option<Graph>
    var embeddings: Option<Shape>

    /** The state between public calls: a graph and covariate embeddings exist
        exactly once a tensor was merged, their shapes follow the counters, and every
        merged key's corpus index lies in [0, k). */
    ghost predicate Valid()
      reads this
    {
      batchSize > 0 &&
      !tensor.Stacked? &&
      (tensor.NoTensor? <==> graph.None?) &&
      (tensor.NoTensor? <==> covarianceEmbeddings.None?) &&
      (graph.Some? ==> graph.value == GraphFor(vocabSize, k, embeddingSize)) &&
      (covarianceEmbeddings.Some? ==> covarianceEmbeddings.value.shape == Shape(k, embeddingSize)) &&
      (tensor.Merged? ==> forall t :: t in tensor.m ==> 0 <= t.2 < k)
    }

    constructor (embeddingSize: int, contextSize: int, maxVocabSize: int := 100000,
                 minOccurrences: int := 5, scalingFactor: real := 0.75,
                 cooccurrenceCap: real := 100.0, batchSize: nat := 512,
                 learningRate: real := 0.05, numEpochs: int := 50,
                 logDir: Option<string> := None, summaryBatchInterval: Option<int> := Some(1000),
                 tsneEpochInterval: Option<int> := None)
      requires batchSize > 0
      ensures Valid()
      ensures this.embeddingSize == embeddingSize && this.contextSize == contextSize
      ensures this.maxVocabSize == maxVocabSize && this.minOccurrences == minOccurrences
      ensures this.scalingFactor == scalingFactor && this.cooccurrenceCap == cooccurrenceCap
      ensures this.batchSize == batchSize && this.learningRate == learningRate
      ensures this.numEpochs == numEpochs && this.logDir == logDir
      ensures this.summaryBatchInterval == summaryBatchInterval
      ensures this.tsneEpochInterval == tsneEpochInterval
      ensures covarianceEmbeddings == None && tensor == NoTensor && vocabSize == 0 && k == 0
      ensures models == [] && graph == None && embeddings == None
    {
      this.embeddingSize := embeddingSize;
      this.contextSize := contextSize;
      this.maxVocabSize := maxVocabSize;
      this.minOccurrences := minOccurrences;
      this.scalingFactor := scalingFactor;
      this.cooccurrenceCap := cooccurrenceCap;
      this.batchSize := batchSize;
      this.learningRate := learningRate;
      this.numEpochs := numEpochs;
      this.logDir := logDir;
      this.summaryBatchInterval := summaryBatchInterval;
      this.tsneEpochInterval := tsneEpochInterval;
      covarianceEmbeddings := None;
      tensor := NoTensor;
      vocabSize := 0;
      k := 0;
      models := [];
      graph := None;
      embeddings := None;
    }

    /** `fit_corpora`: collect, merge, build the graph. The counters keep growing
        over repeated calls while the tensor is rebuilt from these corpora alone. */
    method FitCorpora(corpora: seq<CorpusStats>)
      requires Valid()
      modifies this
      ensures Valid()
      ensures tensor == Merged(Merge(CooccurrenceMaps(corpora))) && models == corpora
      ensures vocabSize == old(vocabSize) + SumVocab(corpora) && k == old(k) + |corpora|
      ensures graph == Some(GraphFor(vocabSize, k, embeddingSize))
      ensures covarianceEmbeddings == Some(GraphTensor(Shape(k, embeddingSize)))
      ensures embeddings == old(embeddings)
    {
      IterCorpora(corpora);
      UpdateTensor();
      BuildGraph();
      MergeEntries(CooccurrenceMaps(corpora));
    }

    /** `__iter_corpora`: the list of per-corpus dicts is started afresh, while
        `vocab_size` and `k` grow from their previous values. */
    method IterCorpora(corpora: seq<CorpusStats>)
      modifies this`tensor, this`models, this`vocabSize, this`k
      ensures tensor == Stacked(CooccurrenceMaps(corpora)) && models == corpora
      ensures vocabSize == old(vocabSize) + SumVocab(corpora) && k == old(k) + |corpora|
    {
      tensor := Stacked([]);
      models := [];
      for i := 0 to |corpora|
        invariant tensor == Stacked(CooccurrenceMaps(corpora[..i])) && models == corpora[..i]
        invariant vocabSize == old(vocabSize) + SumVocab(corpora[..i]) && k == old(k) + i
      {
        assert corpora[..i + 1][..i] == corpora[..i];
        var model := corpora[i];
        models := models + [model];
        tensor := Stacked(tensor.maps + [model.cooccurrences]);
        vocabSize := vocabSize + model.vocabSize;
        k := k + 1;
      }
      assert corpora[..|corpora|] == corpora;
    }

    /** `__update_cooccurrence_tensor`: append the corpus index to every key, dict by
        dict, then union the rekeyed dicts into one. */
    method UpdateTensor()
      requires tensor.Stacked?
      modifies this`tensor
      ensures tensor == Merged(Merge(old(tensor).maps))
    {
      var temp := tensor.maps;
      var rekeyed: seq<map<Triple, real>> := [];
      for i := 0 to |temp|
        invariant |rekeyed| == i
        invariant forall j :: 0 <= j < i ==> rekeyed[j] == Rekey(temp[j], j)
      {
        var dic := temp[i];
        var t: map<Triple, real> := map[];
        var keys := dic.Keys;
        while keys != {}
          invariant keys <= dic.Keys
          invariant forall x: Triple :: x in t <==> x.2 == i && (x.0, x.1) in dic && (x.0, x.1) !in keys
          invariant forall x: Triple :: x in t ==> t[x] == dic[(x.0, x.1)]
          decreases keys
        {
          var key :| key in keys;
          var newKey := Tag(key, i);
          t := t[newKey := dic[key]];
          keys := keys - {key};
        }
        RekeyEntries(dic, i);
        assert t == Rekey(dic, i);
        rekeyed := rekeyed + [t];
      }
      assert rekeyed == RekeyAll(temp);
      tensor := Merged(UnionAll(rekeyed));
    }

    /** `__build_graph`, by shapes: the tables are sized by the current counters. */
    method BuildGraph()
      modifies this`graph, this`covarianceEmbeddings
      ensures graph == Some(GraphFor(vocabSize, k, embeddingSize))
      ensures covarianceEmbeddings == Some(GraphTensor(Shape(k, embeddingSize)))
    {
      graph := Some(GraphFor(vocabSize, k, embeddingSize));
      covarianceEmbeddings := Some(GraphTensor(graph.value.covariance));
    }

    /** The `covariates` property: it fails exactly before the first `fit_corpora`,
        and otherwise holds a k x embedding_size table. */
    function Covariates(): (r: Result<CovarianceEmbeddings>)
      reads this
      requires Valid()
      ensures r.Err? <==> tensor.NoTensor?
      ensures r.Err? ==> r.error == NotTrainedError
      ensures r.Ok? ==> r.value.shape == Shape(k, embeddingSize)
    {
      if covarianceEmbeddings.None? then Err(NotTrainedError) else Ok(covarianceEmbeddings.value)
    }

    /** The session part of `train` over the batch list `all`: summaries are written
        only with a log dir and a truthy interval, and likewise the t-SNE snapshots. */
    method RunTraining(all: seq<Batch>, rand: (nat, nat) -> nat) returns (trace: TrainTrace)
      requires batchSize > 0
      ensures |trace.epochs| == Rounds(numEpochs)
      ensures forall e :: 0 <= e < |trace.epochs| ==>
        multiset(trace.epochs[e]) == multiset(FullBatches(all, batchSize))
      ensures trace.totalSteps == Rounds(numEpochs) * |FullBatches(all, batchSize)|
      ensures trace.summaries == if logDir.Some? && Truthy(summaryBatchInterval)
                                 then Ticks(trace.totalSteps, summaryBatchInterval.value) else []
      ensures trace.snapshots == if logDir.Some? && Truthy(tsneEpochInterval)
                                 then Ticks(Rounds(numEpochs), tsneEpochInterval.value) else []
    {
      var writeSummaries := logDir.Some? && Truthy(summaryBatchInterval);
      var makeSnapshots := logDir.Some? && Truthy(tsneEpochInterval);
      var batches := new Batch[|all|](j requires 0 <= j < |all| => all[j]);
      assert batches[..] == all;
      var summaryInterval := if writeSummaries then summaryBatchInterval.value else 1;
      var tsneInterval := if makeSnapshots then tsneEpochInterval.value else 1;
      trace := RunEpochs(batches, Rounds(numEpochs), batchSize, writeSummaries, summaryInterval,
                         makeSnapshots, tsneInterval, rand);
    }

    /** `train`, with the merged dict's iteration order `order` and the shuffle's
        random draws `rand(epoch, i)` as inputs. Without a merged tensor it fails before
        any session work; with an empty one the unpacking fails. Otherwise each
        epoch feeds a permutation of the full batches to the optimizer, so the step
        counter ends at epochs * floor(|tensor| / batch_size); summaries and
        snapshots follow their schedules. A second run fails at the final `.eval()`
        of the already evaluated covariate embeddings. */
    method Train(order: seq<Triple>, rand: (nat, nat) -> nat) returns (trace: TrainTrace, failure: Option<Error>)
      requires Valid()
      requires tensor.Merged? ==> IsEnumeration(order, tensor.m)
      modifies this
      ensures Valid()
      ensures tensor == old(tensor) && vocabSize == old(vocabSize) && k == old(k)
      ensures models == old(models) && graph == old(graph)
      ensures failure == Some(NotFitToCorpusError) <==> tensor.NoTensor?
      ensures failure == Some(UnpackError) <==> tensor.Merged? && |tensor.m| == 0
      ensures !tensor.Merged? || |tensor.m| == 0 ==>
        trace == TrainTrace([], 0, [], []) && embeddings == old(embeddings) &&
        covarianceEmbeddings == old(covarianceEmbeddings)
      ensures tensor.Merged? && |tensor.m| > 0 ==>
        var full := FullBatches(PrepareBatches(tensor, batchSize, order).value, batchSize);
        |trace.epochs| == Rounds(numEpochs) &&
        (forall e :: 0 <= e < |trace.epochs| ==> multiset(trace.epochs[e]) == multiset(full)) &&
        trace.totalSteps == Rounds(numEpochs) * (|tensor.m| / batchSize) &&
        trace.summaries == (if logDir.Some? && Truthy(summaryBatchInterval)
                            then Ticks(trace.totalSteps, summaryBatchInterval.value) else []) &&
        trace.snapshots == (if logDir.Some? && Truthy(tsneEpochInterval)
                            then Ticks(Rounds(numEpochs), tsneEpochInterval.value) else []) &&
        embeddings == Some(graph.value.combined)
      ensures tensor.Merged? && |tensor.m| > 0 && old(covarianceEmbeddings).value.GraphTensor? ==>
        failure == None && covarianceEmbeddings == Some(Evaluated(Shape(k, embeddingSize)))
      ensures tensor.Merged? && |tensor.m| > 0 && old(covarianceEmbeddings).value.Evaluated? ==>
        failure == Some(AttributeError) && covarianceEmbeddings == old(covarianceEmbeddings)
    {
      var prepared := PrepareBatches(tensor, batchSize, order);
      if prepared.Err? {
        return TrainTrace([], 0, [], []), Some(prepared.error);
      }
      trace := RunTraining(prepared.value, rand);
      embeddings := Some(graph.value.combined);
      if covarianceEmbeddings.value.Evaluated? {
        return trace, Some(AttributeError);
      }
      covarianceEmbeddings := Some(Evaluated(covarianceEmbeddings.value.shape));
      failure := None;
    }
  }

  /** The corpus dict of the two-corpus scenario. */
  ghost predicate IsScenarioDict(d: map<Pair, real>) {
    d == map[(0, 1) := 5.0, (1, 2) := 3.0]
  }

  /** Two corpora, each of vocabulary size 3 with the dict {(0,1): 5.0, (1,2): 3.0},
      merge into four entries, one per corpus index. */
  lemma ScenarioMerge(d: map<Pair, real>)
    requires IsScenarioDict(d)
    ensures Merge(CooccurrenceMaps([CorpusStats(d, 3), CorpusStats(d, 3)])) ==
      map[(0, 1, 0) := 5.0, (1, 2, 0) := 3.0, (0, 1, 1) := 5.0, (1, 2, 1) := 3.0]
    ensures |Merge(CooccurrenceMaps([CorpusStats(d, 3), CorpusStats(d, 3)]))| == 4
  {
    var ds := CooccurrenceMaps([CorpusStats(d, 3), CorpusStats(d, 3)]);
    assert |ds| == 2 && ds[0] == d && ds[1] == d;
    MergeCopies(d, ds);
    ScenarioEntries(d, Merge(ds));
  }

  /** Corpora that all share the dict d: the merge holds d's entries once per corpus index. */
  lemma MergeCopies(d: map<Pair, real>, ds: seq<map<Pair, real>>)
    requires forall i :: 0 <= i < |ds| ==> ds[i] == d
    ensures forall t: Triple :: t in Merge(ds) <==> 0 <= t.2 < |ds| && (t.0, t.1) in d
    ensures forall t: Triple :: t in Merge(ds) ==> Merge(ds)[t] == d[(t.0, t.1)]
  {
    MergeEntries(ds);
  }

  /** The two vocabularies of size 3 add up to 6. */
  lemma ScenarioVocab(d: map<Pair, real>)
    ensures SumVocab([CorpusStats(d, 3), CorpusStats(d, 3)]) == 6
  {
    var cs := [CorpusStats(d, 3), CorpusStats(d, 3)];
    assert cs[..1] == [cs[0]] && cs[..1][..0] == [];
    assert SumVocab(cs[..1]) == 3;
  }

  /** A tensor holding exactly the entries (f, c, i) -> d[(f, c)] for i in {0, 1}. */
  lemma ScenarioEntries(d: map<Pair, real>, m: map<Triple, real>)
    requires IsScenarioDict(d)
    requires forall t: Triple :: t in m <==> 0 <= t.2 < 2 && (t.0, t.1) in d
    requires forall t: Triple :: t in m ==> m[t] == d[(t.0, t.1)]
    ensures m == map[(0, 1, 0) := 5.0, (1, 2, 0) := 3.0, (0, 1, 1) := 5.0, (1, 2, 1) := 3.0]
    ensures |m| == 4
  {
    var expected := map[(0, 1, 0) := 5.0, (1, 2, 0) := 3.0, (0, 1, 1) := 5.0, (1, 2, 1) := 3.0];
    assert m.Keys == expected.Keys by {
      forall t: Triple
        ensures t in m <==> t in expected
      {
        assert (t.0, t.1) in d <==> (t.0, t.1) == (0, 1) || (t.0, t.1) == (1, 2);
      }
    }
    assert m == expected;
    assert expected.Keys == {(0, 1, 0), (1, 2, 0), (0, 1, 1), (1, 2, 1)};
  }

  /** The fitting half of the scenario: a model with embedding size 8, context size 2
      and batch size 2 fit to the two corpora. */
  method FitTwoCorpora(d: map<Pair, real>) returns (model: CoVeRModel)
    requires IsScenarioDict(d)
    ensures fresh(model) && model.Valid()
    ensures model.tensor == Merged(Merge(CooccurrenceMaps([CorpusStats(d, 3), CorpusStats(d, 3)])))
    ensures model.vocabSize == 6 && model.k == 2
    ensures model.covarianceEmbeddings == Some(GraphTensor(Shape(2, 8)))
    ensures model.batchSize == 2 && model.numEpochs == 50 && model.logDir == None
    ensures model.graph == Some(GraphFor(6, 2, 8))
  {
    var corpora := [CorpusStats(d, 3), CorpusStats(d, 3)];
    ScenarioVocab(d);
    model := new CoVeRModel(8, 2, batchSize := 2);
    model.FitCorpora(corpora);
  }

  /** The scenario run end to end with default settings and batch size 2: fit, then
      train for the default 50 epochs of two optimizer steps each, after which the
      covariate embeddings are the evaluated 2 x embedding_size table. */
  method TwoCorpusRun(d: map<Pair, real>, order: seq<Triple>, rand: (nat, nat) -> nat)
    returns (trace: TrainTrace, failure: Option<Error>, covariates: Result<CovarianceEmbeddings>)
    requires IsScenarioDict(d)
    requires IsEnumeration(order, Merge(CooccurrenceMaps([CorpusStats(d, 3), CorpusStats(d, 3)])))
    ensures failure == None
    ensures trace.totalSteps == 100 && |trace.epochs| == 50 && trace.summaries == []
    ensures covariates == Ok(Evaluated(Shape(2, 8)))
  {
    ScenarioMerge(d);
    var model := FitTwoCorpora(d);
    trace, failure := model.Train(order, rand);
    assert trace.totalSteps == 50 * (4 / 2);
    covariates := model.Covariates();
  }
}
