/** Embedding models: batched vectorisation with its progress record, the
    dimension lookup, choosing a provider from the configured model name, and
    resolving a local model path. The inference itself (a local model, the
    Ollama API or another HTTP API) is a function parameter. */
module Embedding {
  import opened Wrappers
  import Py

  type Vector = seq<real>

  /** vectorize on one segment of texts: the vectors, or the exception. */
  type Vectorize = seq<string> -> Result<seq<Vector>>

  /** A status_tracker entry: {'status', 'total', 'progress'}. */
  datatype Status = Status(status: string, total: nat, progress: nat)

  /** BaseEmbeddingModel.status_tracker, a dict shared by every model. */
  class StatusTracker {
    var entries: map<string, Status>

    constructor()
      ensures entries == map[]
    {
      entries := map[];
    }
  }

  /** The segments' vectors in order. Each reply's first vector is read for
      the debug line, so an empty reply raises IndexError. */
  function Batches(segments: seq<seq<string>>, vectorize: Vectorize): Result<seq<Vector>> {
    if segments == [] then Success([])
    else
      var v := vectorize(segments[0]);
      if v.Failure? then Failure(v.error)
      else if v.value == [] then Failure(IndexError)
      else Then(v.value, Batches(segments[1..], vectorize))
  }

  /** `done` followed by whatever the rest gives, unless the rest fails. */
  function Then(done: seq<Vector>, rest: Result<seq<Vector>>): Result<seq<Vector>> {
    if rest.Failure? then rest else Success(done + rest.value)
  }

  const ZeroStep := "range() arg 3 must not be zero"

  /** batch_vectorize: `vectorize` on items[idx:idx + batchLimit] for idx
      in range(0, len(items), batchLimit), extending the result; a tracker
      entry under the items' hash exists only for more items than the limit,
      and it is marked completed with full progress once every segment is
      done. */
  method BatchVectorize(tracker: StatusTracker, items: seq<string>, batchLimit: int,
                        hash: seq<string> -> string, vectorize: Vectorize)
    returns (r: Result<seq<Vector>>)
    modifies tracker
    ensures batchLimit > 0 ==> r == Batches(Py.Chunks(items, batchLimit), vectorize)
    ensures batchLimit == 0 ==> r == Failure(ValueError(ZeroStep))
    ensures batchLimit < 0 ==> r == Success([])
    ensures items == [] && batchLimit != 0 ==> r == Success([])
    ensures |items| <= batchLimit ==> tracker.entries == old(tracker.entries)
    ensures |items| > batchLimit ==>
              tracker.entries == old(tracker.entries)[hash(items) :=
                if r.Success? then Status("completed", |items|, |items|) else Status("in-progress", |items|, 0)]
  {
    var tag := hash(items);
    if |items| > batchLimit {
      tracker.entries := tracker.entries[tag := Status("in-progress", |items|, 0)];
    }
    if batchLimit == 0 {
      return Failure(ValueError(ZeroStep));
    }
    var result: seq<Vector> := [];
    if batchLimit > 0 {
      var idx := 0;
      assert items[idx..] == items;
      ThenNil(Batches(Py.Chunks(items, batchLimit), vectorize));
      while idx < |items|
        invariant 0 <= idx <= |items|
        invariant Batches(Py.Chunks(items, batchLimit), vectorize) == Then(result, Batches(Py.Chunks(items[idx..], batchLimit), vectorize))
        invariant |items| > batchLimit ==> tracker.entries == old(tracker.entries)[tag := Status("in-progress", |items|, 0)]
        invariant |items| <= batchLimit ==> tracker.entries == old(tracker.entries)
      {
        var end := if idx + batchLimit <= |items| then idx + batchLimit else |items|;
        var segment := items[idx..end];
        SegmentStep(items, idx, end, batchLimit);
        var vectors := vectorize(segment);
        if vectors.Failure? {
          return Failure(vectors.error);
        }
        if vectors.value == [] {
          return Failure(IndexError);
        }
        ThenAssoc(result, vectors.value, Batches(Py.Chunks(items[end..], batchLimit), vectorize));
        result := result + vectors.value;
        idx := end;
      }
      assert items[idx..] == [];
      assert result + [] == result;
    }
    if |items| > batchLimit {
      tracker.entries := tracker.entries[tag := Status("completed", |items|, |items|)];
    }
    r := Success(result);
  }

  lemma SegmentStep(items: seq<string>, idx: nat, end: nat, n: nat)
    requires n > 0 && idx < |items|
    requires end == if idx + n <= |items| then idx + n else |items|
    ensures Py.Chunks(items[idx..], n) == [items[idx..end]] + Py.Chunks(items[end..], n)
  {
    var rest := items[idx..];
    if |rest| <= n {
      assert end == |items| && rest == items[idx..end] && items[end..] == [];
    } else {
      assert rest[..n] == items[idx..end] && rest[n..] == items[end..];
    }
  }

  lemma ThenNil(rest: Result<seq<Vector>>)
    ensures Then([], rest) == rest
  {
    if rest.Success? {
      assert [] + rest.value == rest.value;
    }
  }

  lemma ThenAssoc(a: seq<Vector>, b: seq<Vector>, rest: Result<seq<Vector>>)
    ensures Then(a, Then(b, rest)) == Then(a + b, rest)
  {
    if rest.Success? {
      assert a + (b + rest.value) == (a + b) + rest.value;
    }
  }

  /** Applying f to each text. */
  function Each(f: string -> Vector, s: seq<string>): (r: seq<Vector>)
    ensures |r| == |s| && forall i :: 0 <= i < |s| ==> r[i] == f(s[i])
  {
    seq(|s|, i requires 0 <= i < |s| => f(s[i]))
  }

  /** Segments concatenate back to the items, and for a vectorizer that
      embeds each text on its own, batching changes nothing: the result is
      the vector of every item, in order, whatever the batch limit. */
  lemma {:induction false} BatchingTransparent(segments: seq<seq<string>>, f: string -> Vector, vectorize: Vectorize)
    requires forall k :: 0 <= k < |segments| ==> segments[k] != []
    requires forall s :: s != [] ==> vectorize(s) == Success(Each(f, s))
    ensures Batches(segments, vectorize) == Success(Each(f, Py.Flatten(segments)))
  {
    if segments != [] {
      var rest := segments[1..];
      BatchingTransparent(rest, f, vectorize);
      var s0 := segments[0];
      assert Py.Flatten(segments) == s0 + Py.Flatten(rest);
      assert Each(f, s0) + Each(f, Py.Flatten(rest)) == Each(f, s0 + Py.Flatten(rest));
    }
  }

  lemma BatchVectorizeTransparent(items: seq<string>, n: nat, f: string -> Vector, vectorize: Vectorize)
    requires n > 0
    requires forall s :: s != [] ==> vectorize(s) == Success(Each(f, s))
    ensures Batches(Py.Chunks(items, n), vectorize) == Success(Each(f, items))
  {
    Py.ChunksSizes(items, n);
    Py.ChunksFlatten(items, n);
    BatchingTransparent(Py.Chunks(items, n), f, vectorize);
  }

  /** A vectorizer that returns one vector per text gives exactly one vector
      per item; otherwise the call fails with the error of a segment whose
      vectorize call failed. */
  lemma {:induction false} BatchLengths(segments: seq<seq<string>>, vectorize: Vectorize)
    requires forall k :: 0 <= k < |segments| ==> segments[k] != []
    requires forall s :: s != [] && vectorize(s).Success? ==> |vectorize(s).value| == |s|
    ensures Batches(segments, vectorize).Success? ==> |Batches(segments, vectorize).value| == |Py.Flatten(segments)|
    ensures Batches(segments, vectorize).Failure? ==>
              exists k :: 0 <= k < |segments| && vectorize(segments[k]).Failure?
                          && Batches(segments, vectorize).error == vectorize(segments[k]).error
  {
    if segments != [] {
      var rest := segments[1..];
      BatchLengths(rest, vectorize);
      assert Py.Flatten(segments) == segments[0] + Py.Flatten(rest);
      var v := vectorize(segments[0]);
      if v.Success? && Batches(rest, vectorize).Failure? {
        var k :| 0 <= k < |rest| && vectorize(rest[k]).Failure? && Batches(rest, vectorize).error == vectorize(rest[k]).error;
        assert rest[k] == segments[k + 1];
      }
    }
  }

  // ---------------------------------------------------------------------------
  // get_dimension.
  // ---------------------------------------------------------------------------

  /** The per-model configuration an embedding model reads its dimension from. */
  datatype EmbedConfig = EmbedConfig(
    embedModelNames: map<string, Option<int>>,   // full name -> its "dimension" entry, if any
    embedModel: string)                          // the configured model name

  /** The attributes an embedding model instance may or may not have set. */
  datatype Attrs = Attrs(
    dimension: Option<Option<int>>,   // hasattr(self, "dimension"), and its value
    fullName: Option<string>,         // self.embed_model_fullname
    model: Option<string>,            // self.model
    config: Option<EmbedConfig>)      // self.config

  /** get_dimension: the dimension attribute, else the full-name lookup, else
      the model lookup, else None. The model lookup indexes the configured
      model name, a string, by a string, which raises TypeError. */
  function GetDimension(a: Attrs): (r: Result<Option<int>>)
    ensures a.dimension.Some? ==> r == Success(a.dimension.value)
    ensures a.dimension.None? && a.fullName.Some? ==>
              (a.config.None? ==> r == Failure(AttributeError("config")))
              && (a.config.Some? && a.fullName.value !in a.config.value.embedModelNames ==> r == Failure(KeyError(a.fullName.value)))
              && (a.config.Some? && a.fullName.value in a.config.value.embedModelNames ==> r == Success(a.config.value.embedModelNames[a.fullName.value]))
    ensures a.dimension.None? && a.fullName.None? && a.model.Some? ==>
              r == (if a.config.None? then Failure(AttributeError("config"))
                    else Failure(TypeError("string indices must be integers")))
    ensures a.dimension.None? && a.fullName.None? && a.model.None? ==> r == Success(None)
  {
    if a.dimension.Some? then Success(a.dimension.value)
    else if a.fullName.Some? then
      if a.config.None? then Failure(AttributeError("config"))
      else if a.fullName.value !in a.config.value.embedModelNames then Failure(KeyError(a.fullName.value))
      else Success(a.config.value.embedModelNames[a.fullName.value])
    else if a.model.Some? then
      if a.config.None? then Failure(AttributeError("config"))
      else Failure(TypeError("string indices must be integers"))
    else Success(None)
  }

  /** Every model the factory builds sets `dimension`, so for it the first
      check decides and no configuration is consulted. */
  lemma BuiltModelsKnowDimension(a: Attrs, d: Option<int>)
    requires a.dimension == Some(d)
    ensures GetDimension(a) == Success(d)
  {
  }

  // ---------------------------------------------------------------------------
  // initialize_embedding and resolve_local_model_path.
  // ---------------------------------------------------------------------------

  datatype Provider = Local | Ollama | OtherApi

  /** The model class for a provider prefix. */
  function ProviderOf(prefix: string): Provider {
    if prefix == "local" then Local else if prefix == "ollama" then Ollama else OtherApi
  }

  /** initialize_embedding: None when the knowledge base is disabled;
      otherwise the name must have a '/' (else the two-name unpacking of
      split('/', 1) raises ValueError) and be a supported model (else the
      assertion fails); the text before the first '/' picks the class. */
  function InitializeEmbedding(enableKb: bool, embedModel: string, supported: set<string>)
    : (r: Result<Option<Provider>>)
    ensures !enableKb ==> r == Success(None)
    ensures enableKb && '/' !in embedModel ==> r.Failure? && r.error.ValueError?
    ensures enableKb && '/' in embedModel && embedModel !in supported ==> r.Failure? && r.error.AssertionError?
    ensures enableKb && '/' in embedModel && embedModel in supported ==>
              r == Success(Some(ProviderOf(Py.Split(embedModel, "/")[0])))
  {
    if !enableKb then Success(None)
    else
      match Py.SplitOnce(embedModel, '/')
      case None => Failure(ValueError("not enough values to unpack (expected 2, got 1)"))
      case Some((provider, _)) =>
        if embedModel !in supported then Failure(AssertionError("Unsupported model: " + embedModel))
        else
          Py.SplitOnceHead(embedModel, '/');
          Success(Some(ProviderOf(provider)))
  }

  /** The provider depends only on the text before the first '/': names that
      agree there get the same class. */
  lemma ProviderByPrefix(p: string, t1: string, t2: string, supported: set<string>)
    requires '/' !in p
    requires p + "/" + t1 in supported && p + "/" + t2 in supported
    ensures InitializeEmbedding(true, p + "/" + t1, supported) == Success(Some(ProviderOf(p)))
    ensures InitializeEmbedding(true, p + "/" + t2, supported) == Success(Some(ProviderOf(p)))
  {
    Py.SplitCharPrefix(p, '/', t1);
    Py.SplitCharPrefix(p, '/', t2);
    assert p + "/" + t1 == p + ['/'] + t1;
    assert p + "/" + t2 == p + ['/'] + t2;
  }

  /** resolve_local_model_path: paths[name] when registered, else the fallback. */
  function ResolveLocalModelPath(paths: map<string, string>, name: string, fallback: string): (r: string)
    ensures r in paths.Values || r == fallback
    ensures name in paths ==> r == paths[name]
    ensures name !in paths ==> r == fallback
  {
    if name in paths then paths[name] else fallback
  }
}
