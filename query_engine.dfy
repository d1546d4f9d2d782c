/** The knowledge-base query engine: vector search, distance filter, optional
    reranking with a stable descending sort, rerank filter and top_k cut.

    Search hits are the dictionaries the engine mutates: the model keeps them in
    the sequence `all`, and the working list `filtered_results` as a list of
    indices into it, so that writing a rerank score through the working list is
    visible in `all_results` exactly as with Python's shared dict objects. */
module QueryEngine {
  import opened Wrappers
  import Py

  type FileRecord = map<string, string>

  datatype Entity = Entity(fileId: string, text: string)

  /** A hit as the vector store returns it. */
  datatype RawHit = RawHit(id: string, entity: Entity, distance: real)

  /** A hit after the engine has worked on it: the `file` and `rerank_score`
      keys are present or absent. */
  datatype Hit = Hit(id: string, entity: Entity, distance: real, file: Option<FileRecord>, rerankScore: Option<real>)

  /** The keyword arguments of advanced_query; None is an absent key. */
  datatype Params = Params(
    distanceThreshold: Option<real>,
    rerankThreshold: Option<real>,
    maxQueryCount: Option<int>,
    topK: Option<int>)

  datatype Response = Response(results: seq<Hit>, allResults: seq<Hit>)

  /** The engine's collaborators: text encoder, vector store, file table,
      the global enable_rerank flag and the reranker. */
  datatype Backend = Backend(
    encode: string -> seq<real>,
    searchVectors: (string, seq<real>, int) -> seq<RawHit>,
    getFile: string -> Option<FileRecord>,
    enableRerank: bool,
    hasReranker: bool,
    rerankScores: (string, seq<string>) -> seq<real>)

  const DefaultDistanceThreshold: real := 0.5
  const DefaultRerankThreshold: real := 0.1
  const DefaultMaxQueryCount: int := 20
  const DefaultSearchLimit: int := 3
  const RetrieverDefaultTopK: int := 10

  /** The vector store never returns more neighbours than it was asked for. */
  ghost predicate HonoursLimit(b: Backend) {
    forall c, v, l :: l >= 0 ==> |b.searchVectors(c, v, l)| <= l
  }

  /** search(query, collection, limit): encode the query once and ask the vector
      store for at most `limit` neighbours. */
  function Search(b: Backend, query: string, collection: string, limit: int): (r: seq<RawHit>)
    ensures r == b.searchVectors(collection, b.encode(query), limit)
    ensures HonoursLimit(b) && limit >= 0 ==> |r| <= limit
  {
    b.searchVectors(collection, b.encode(query), limit)
  }

  /** `if file:` for a dict returned by the file table. */
  predicate Truthy(f: Option<FileRecord>) {
    f.Some? && |f.value| > 0
  }

  /** The effective thresholds and counts of one call. */
  datatype Settings = Settings(distanceThreshold: real, rerankThreshold: real, maxQueryCount: int, topK: Option<int>)

  function Resolve(p: Params): (s: Settings)
    ensures p.distanceThreshold.None? ==> s.distanceThreshold == 0.5
    ensures p.rerankThreshold.None? ==> s.rerankThreshold == 0.1
    ensures p.maxQueryCount.None? ==> s.maxQueryCount == 20
    ensures p.topK.None? ==> s.topK.None?
    ensures p.distanceThreshold.Some? ==> s.distanceThreshold == p.distanceThreshold.value
    ensures p.rerankThreshold.Some? ==> s.rerankThreshold == p.rerankThreshold.value
    ensures p.maxQueryCount.Some? ==> s.maxQueryCount == p.maxQueryCount.value
    ensures p.topK.Some? ==> s.topK == p.topK
  {
    Settings(
      p.distanceThreshold.GetOr(DefaultDistanceThreshold),
      p.rerankThreshold.GetOr(DefaultRerankThreshold),
      p.maxQueryCount.GetOr(DefaultMaxQueryCount),
      p.topK)
  }

  // ---------------------------------------------------------------------------
  // The distance filter, as indices.
  // ---------------------------------------------------------------------------

  /** Indices, in order, of the hits whose distance is strictly above t. */
  function AboveDistance(hits: seq<RawHit>, t: real): (r: seq<nat>)
    ensures forall k :: 0 <= k < |r| ==> r[k] < |hits| && hits[r[k]].distance > t
    ensures forall i :: 0 <= i < |hits| && hits[i].distance > t ==> i in r
    ensures Py.StrictlyIncreasing(r)
  {
    if hits == [] then []
    else
      var init := AboveDistance(hits[..|hits| - 1], t);
      if hits[|hits| - 1].distance > t then init + [|hits| - 1] else init
  }

  function Texts(hits: seq<RawHit>, idx: seq<nat>): (r: seq<string>)
    requires forall k :: 0 <= k < |idx| ==> idx[k] < |hits|
    ensures |r| == |idx| && forall k :: 0 <= k < |idx| ==> r[k] == hits[idx[k]].entity.text
  {
    seq(|idx|, k requires 0 <= k < |idx| => hits[idx[k]].entity.text)
  }

  /** The texts of the hits whose distance is strictly above t, in hit order,
      written as a filter over the hits themselves rather than over indices. */
  function TextsAbove(hits: seq<RawHit>, t: real): seq<string> {
    if hits == [] then []
    else
      var last := hits[|hits| - 1];
      TextsAbove(hits[..|hits| - 1], t) + (if last.distance > t then [last.entity.text] else [])
  }

  /** The texts handed to the reranker (line 95 of the engine) are exactly the
      texts of the hits that passed the distance filter, in order. */
  lemma {:induction false} TextsOfAbove(hits: seq<RawHit>, t: real)
    ensures Texts(hits, AboveDistance(hits, t)) == TextsAbove(hits, t)
  {
    if hits != [] {
      var n := |hits|;
      var init := hits[..n - 1];
      var a' := AboveDistance(init, t);
      TextsOfAbove(init, t);
      TextsOnPrefix(hits, a');
      if hits[n - 1].distance > t {
        TextsSnoc(hits, a', n - 1);
      }
    }
  }

  lemma TextsOnPrefix(hits: seq<RawHit>, idx: seq<nat>)
    requires hits != []
    requires forall k :: 0 <= k < |idx| ==> idx[k] < |hits| - 1
    ensures Texts(hits, idx) == Texts(hits[..|hits| - 1], idx)
  {
  }

  lemma TextsSnoc(hits: seq<RawHit>, idx: seq<nat>, j: nat)
    requires forall k :: 0 <= k < |idx| ==> idx[k] < |hits|
    requires j < |hits|
    ensures Texts(hits, idx + [j]) == Texts(hits, idx) + [hits[j].entity.text]
  {
  }

  /** Whether the rerank branch runs (line 94 of the engine). */
  predicate WillRerank(b: Backend, hits: seq<RawHit>, t: real) {
    b.enableRerank && |AboveDistance(hits, t)| > 0 && b.hasReranker
  }

  // ---------------------------------------------------------------------------
  // Stable descending sort of references by a key (list.sort(reverse=True)).
  // ---------------------------------------------------------------------------

  /** Non-increasing by key; among equal keys, in increasing reference order. */
  predicate StablyOrdered(s: seq<nat>, key: nat -> real) {
    forall i, j :: 0 <= i < j < |s| ==>
      key(s[i]) >= key(s[j]) && (key(s[i]) == key(s[j]) ==> s[i] < s[j])
  }

  /** Put x after the last element whose key is at least key(x). */
  function Insert(x: nat, s: seq<nat>, key: nat -> real): seq<nat>
  {
    if s == [] then [x]
    else if key(s[|s| - 1]) >= key(x) then s + [x]
    else Insert(x, s[..|s| - 1], key) + [s[|s| - 1]]
  }

  /** Insertion sort, inserting the elements in input order. */
  function SortDesc(s: seq<nat>, key: nat -> real): seq<nat>
  {
    if s == [] then [] else Insert(s[|s| - 1], SortDesc(s[..|s| - 1], key), key)
  }

  lemma {:induction false} InsertPermutes(x: nat, s: seq<nat>, key: nat -> real)
    ensures multiset(Insert(x, s, key)) == multiset(s) + multiset{x}
  {
    if s != [] && key(s[|s| - 1]) < key(x) {
      InsertPermutes(x, s[..|s| - 1], key);
      assert s == s[..|s| - 1] + [s[|s| - 1]];
    }
  }

  /** An element placed after an ordered list keeps it ordered when it
      precedes none of the list's elements. */
  lemma SnocOrdered(front: seq<nat>, last: nat, key: nat -> real)
    requires StablyOrdered(front, key)
    requires forall e :: e in front ==> key(e) >= key(last) && (key(e) == key(last) ==> e < last)
    ensures StablyOrdered(front + [last], key)
  {
    var r := front + [last];
    forall i, j | 0 <= i < j < |r|
      ensures key(r[i]) >= key(r[j]) && (key(r[i]) == key(r[j]) ==> r[i] < r[j])
    {
      assert r[i] == front[i] && front[i] in front;
      if j < |front| {
        assert r[j] == front[j];
      }
    }
  }

  /** Every element of an ordered list comes no later in key order than its
      last element. */
  lemma AboveLast(s: seq<nat>, key: nat -> real)
    requires s != [] && StablyOrdered(s, key)
    ensures forall e :: e in s[..|s| - 1] ==> key(e) >= key(s[|s| - 1]) && (key(e) == key(s[|s| - 1]) ==> e < s[|s| - 1])
  {
    forall e | e in s[..|s| - 1]
      ensures key(e) >= key(s[|s| - 1]) && (key(e) == key(s[|s| - 1]) ==> e < s[|s| - 1])
    {
      var p :| 0 <= p < |s| - 1 && s[..|s| - 1][p] == e;
      assert s[p] == e;
    }
  }

  lemma {:induction false} InsertOrdered(x: nat, s: seq<nat>, key: nat -> real)
    requires StablyOrdered(s, key)
    requires forall y :: y in s ==> y < x
    ensures StablyOrdered(Insert(x, s, key), key)
  {
    if s == [] {
    } else {
      var init, last := s[..|s| - 1], s[|s| - 1];
      AboveLast(s, key);
      if key(last) >= key(x) {
        SnocOrdered(s, x, key);
      } else {
        InitOrdered(s, init, x, key);
        InsertOrdered(x, init, key);
        InsertedAbove(x, init, last, key);
        SnocOrdered(Insert(x, init, key), last, key);
      }
    }
  }

  /** All but the last element of an ordered list are ordered and below
      whatever bounds the list. */
  lemma InitOrdered(s: seq<nat>, init: seq<nat>, x: nat, key: nat -> real)
    requires s != [] && init == s[..|s| - 1] && StablyOrdered(s, key)
    requires forall y :: y in s ==> y < x
    ensures StablyOrdered(init, key)
    ensures forall y :: y in init ==> y < x
  {
    forall i, j | 0 <= i < j < |init|
      ensures key(init[i]) >= key(init[j]) && (key(init[i]) == key(init[j]) ==> init[i] < init[j])
    {
      assert init[i] == s[i] && init[j] == s[j];
    }
    forall y | y in init ensures y < x {
      var p :| 0 <= p < |init| && init[p] == y;
      assert s[p] == y && y in s;
    }
  }

  /** Inserting an element with a larger key than `last` keeps every element
      before `last` in key order. */
  lemma InsertedAbove(x: nat, init: seq<nat>, last: nat, key: nat -> real)
    requires forall e :: e in init ==> key(e) >= key(last) && (key(e) == key(last) ==> e < last)
    requires key(last) < key(x)
    ensures forall e :: e in Insert(x, init, key) ==> key(e) >= key(last) && (key(e) == key(last) ==> e < last)
  {
    InsertPermutes(x, init, key);
    var front := Insert(x, init, key);
    forall e | e in front
      ensures key(e) >= key(last) && (key(e) == key(last) ==> e < last)
    {
      assert e in multiset(front);
    }
  }

  /** A list holds its front and its last element. */
  lemma MultisetSnoc(s: seq<nat>)
    requires s != []
    ensures multiset(s) == multiset(s[..|s| - 1]) + multiset{s[|s| - 1]}
  {
    assert s == s[..|s| - 1] + [s[|s| - 1]];
  }

  lemma {:induction false} SortDescPermutes(s: seq<nat>, key: nat -> real)
    ensures multiset(SortDesc(s, key)) == multiset(s)
  {
    if s != [] {
      var init, x := s[..|s| - 1], s[|s| - 1];
      SortDescPermutes(init, key);
      InsertPermutes(x, SortDesc(init, key), key);
      MultisetSnoc(s);
    }
  }

  /** Sorting a strictly increasing list of references gives a list in
      non-increasing key order in which equal keys keep their input order:
      the stability of Python's sort with reverse=True. */
  lemma {:induction false} SortDescStable(s: seq<nat>, key: nat -> real)
    requires Py.StrictlyIncreasing(s)
    ensures StablyOrdered(SortDesc(s, key), key)
    ensures multiset(SortDesc(s, key)) == multiset(s)
  {
    SortDescPermutes(s, key);
    if s != [] {
      var init := s[..|s| - 1];
      SortDescStable(init, key);
      var sorted := SortDesc(init, key);
      forall y | y in sorted ensures y < s[|s| - 1] {
        assert y in multiset(init);
        var p :| 0 <= p < |init| && init[p] == y;
      }
      InsertOrdered(s[|s| - 1], sorted, key);
    }
  }

  /** The tail of an ordered list is ordered and its head comes first. */
  lemma TailOrdered(s: seq<nat>, key: nat -> real)
    requires s != [] && StablyOrdered(s, key)
    ensures StablyOrdered(s[1..], key)
    ensures forall y :: y in s[1..] ==> key(s[0]) >= key(y) && (key(s[0]) == key(y) ==> s[0] < y)
  {
    var tail := s[1..];
    forall i, j | 0 <= i < j < |tail|
      ensures key(tail[i]) >= key(tail[j]) && (key(tail[i]) == key(tail[j]) ==> tail[i] < tail[j])
    {
      assert tail[i] == s[i + 1] && tail[j] == s[j + 1];
    }
    forall y | y in tail
      ensures key(s[0]) >= key(y) && (key(s[0]) == key(y) ==> s[0] < y)
    {
      var p :| 0 <= p < |tail| && tail[p] == y;
      assert s[p + 1] == y;
    }
  }

  /** An element placed before an ordered list keeps it ordered when none of
      the list's elements precedes it. */
  lemma ConsOrdered(x: nat, rest: seq<nat>, key: nat -> real)
    requires StablyOrdered(rest, key)
    requires forall y :: y in rest ==> key(x) >= key(y) && (key(x) == key(y) ==> x < y)
    ensures StablyOrdered([x] + rest, key)
  {
    var r := [x] + rest;
    forall i, j | 0 <= i < j < |r|
      ensures key(r[i]) >= key(r[j]) && (key(r[i]) == key(r[j]) ==> r[i] < r[j])
    {
      assert r[j] == rest[j - 1] && rest[j - 1] in rest;
      if i > 0 {
        assert r[i] == rest[i - 1];
      }
    }
  }

  /** The comprehension of line 102: keep the references whose key is above t. */
  function KeepAbove(s: seq<nat>, key: nat -> real, t: real): (r: seq<nat>)
    ensures forall x :: x in r <==> x in s && key(x) > t
    ensures StablyOrdered(s, key) ==> StablyOrdered(r, key)
  {
    if s == [] then []
    else
      var rest := KeepAbove(s[1..], key, t);
      if !StablyOrdered(s, key) then
        if key(s[0]) > t then [s[0]] + rest else rest
      else
        TailOrdered(s, key);
        if key(s[0]) > t then
          ConsOrdered(s[0], rest, key);
          [s[0]] + rest
        else rest
  }

  lemma PrefixOrdered(s: seq<nat>, key: nat -> real, n: nat)
    requires n <= |s|
    requires StablyOrdered(s, key)
    ensures StablyOrdered(s[..n], key)
  {
  }

  // ---------------------------------------------------------------------------
  // advanced_query
  // ---------------------------------------------------------------------------

  /** `if top_k:` then `[:top_k]`. */
  function CutTopK<T>(s: seq<T>, topK: Option<int>): (r: seq<T>)
    ensures topK.None? || topK.value == 0 ==> r == s
    ensures topK.Some? && topK.value > 0 ==> r == s[..if topK.value < |s| then topK.value else |s|]
    ensures topK.Some? && topK.value < 0 ==>
              |r| == (if |s| + topK.value < 0 then 0 else |s| + topK.value)
    ensures r <= s
  {
    if topK.Some? && topK.value != 0 then Py.SliceTo(s, topK.value) else s
  }

  /** The loop of lines 85-88 on a fresh copy of a hit: `file` is set only
      when the file lookup gives a non-empty record. */
  predicate FileAttached(b: Backend, h: Hit, raw: RawHit) {
    h.id == raw.id && h.entity == raw.entity && h.distance == raw.distance
    && h.file == (if Truthy(b.getFile(raw.entity.fileId)) then b.getFile(raw.entity.fileId) else None)
  }

  method AttachFiles(b: Backend, raw: seq<RawHit>) returns (all: seq<Hit>)
    ensures |all| == |raw|
    ensures forall i :: 0 <= i < |all| ==> FileAttached(b, all[i], raw[i]) && all[i].rerankScore.None?
  {
    all := seq(|raw|, i requires 0 <= i < |raw| => Hit(raw[i].id, raw[i].entity, raw[i].distance, None, None));
    var i := 0;
    while i < |all|
      invariant 0 <= i <= |all| == |raw|
      invariant forall k :: 0 <= k < |all| ==>
                  all[k].id == raw[k].id && all[k].entity == raw[k].entity && all[k].distance == raw[k].distance
                  && all[k].rerankScore.None?
      invariant forall k :: 0 <= k < i ==> FileAttached(b, all[k], raw[k])
      invariant forall k :: i <= k < |all| ==> all[k].file.None?
    {
      var file := b.getFile(all[i].entity.fileId);
      if Truthy(file) {
        all := all[i := all[i].(file := file)];
      }
      i := i + 1;
    }
  }

  /** The loop of lines 98-99: the k-th filtered dict receives the k-th score. */
  method WriteScores(all: seq<Hit>, above: seq<nat>, scores: seq<real>) returns (out: seq<Hit>)
    requires forall k :: 0 <= k < |above| ==> above[k] < |all|
    requires Py.StrictlyIncreasing(above)
    requires |scores| >= |above|
    ensures |out| == |all|
    ensures forall m :: 0 <= m < |all| ==> out[m] == all[m].(rerankScore := out[m].rerankScore)
    ensures forall k :: 0 <= k < |above| ==> out[above[k]].rerankScore == Some(scores[k])
    ensures forall m :: 0 <= m < |all| && m !in above ==> out[m].rerankScore == all[m].rerankScore
  {
    out := all;
    var k := 0;
    while k < |above|
      invariant 0 <= k <= |above|
      invariant |out| == |all|
      invariant forall m :: 0 <= m < |all| ==> out[m] == all[m].(rerankScore := out[m].rerankScore)
      invariant forall q :: 0 <= q < k ==> out[above[q]].rerankScore == Some(scores[q])
      invariant forall m :: 0 <= m < |all| && m !in above[..k] ==> out[m].rerankScore == all[m].rerankScore
    {
      out := out[above[k] := out[above[k]].(rerankScore := Some(scores[k]))];
      assert above[..k + 1] == above[..k] + [above[k]];
      k := k + 1;
    }
    assert above[..k] == above;
  }

  /** The rerank key of a reference into the hits. */
  function KeyOf(all: seq<Hit>): nat -> real {
    (x: nat) => if x < |all| then all[x].rerankScore.GetOr(0.0) else 0.0
  }

  /** Lines 101-103 on references: stable descending sort by rerank score, then
      the strict rerank threshold. */
  function RankedPicks(all: seq<Hit>, above: seq<nat>, rt: real): seq<nat> {
    KeepAbove(SortDesc(above, KeyOf(all)), KeyOf(all), rt)
  }

  lemma RankedPicksProps(all: seq<Hit>, above: seq<nat>, rt: real)
    requires Py.StrictlyIncreasing(above)
    ensures StablyOrdered(RankedPicks(all, above, rt), KeyOf(all))
    ensures forall x :: x in RankedPicks(all, above, rt) <==> x in above && KeyOf(all)(x) > rt
  {
    var key := KeyOf(all);
    SortDescStable(above, key);
    forall x ensures x in SortDesc(above, key) <==> x in above {
      assert x in SortDesc(above, key) <==> x in multiset(SortDesc(above, key));
    }
  }

  /** The dicts that the references point at. */
  function Deref(all: seq<Hit>, picks: seq<nat>): (r: seq<Hit>)
    requires forall k :: 0 <= k < |picks| ==> picks[k] < |all|
    ensures |r| == |picks| && forall k :: 0 <= k < |picks| ==> r[k] == all[picks[k]]
  {
    seq(|picks|, k requires 0 <= k < |picks| => all[picks[k]])
  }

  /** What holds of `results` on every path: distinct references into
      all_results, strictly above the distance threshold, at most top_k. */
  predicate Selected(all: seq<Hit>, res: seq<Hit>, picks: seq<nat>, s: Settings) {
    && |picks| == |res|
    && (forall k :: 0 <= k < |res| ==> picks[k] < |all| && res[k] == all[picks[k]])
    && (forall k :: 0 <= k < |res| ==> res[k].distance > s.distanceThreshold)
    && (forall i, j :: 0 <= i < j < |picks| ==> picks[i] != picks[j])
    && (s.topK.Some? && s.topK.value > 0 ==> |res| <= s.topK.value)
  }

  /** Without reranking: an order-preserving selection of the hits above the
      distance threshold, all of them when top_k is falsy, and no score. */
  predicate PlainSelection(all: seq<Hit>, picks: seq<nat>, above: seq<nat>, s: Settings) {
    && Py.StrictlyIncreasing(picks)
    && (forall i :: 0 <= i < |all| ==> all[i].rerankScore.None?)
    && ((s.topK.None? || s.topK.value == 0) ==> picks == above)
  }

  /** With reranking: the k-th hit above the distance threshold holds the k-th
      score (in all_results too), results are non-increasing in score with ties
      in all_results order, every survivor is strictly above the rerank
      threshold, and with a falsy top_k no such hit is missing. */
  predicate RankedSelection(all: seq<Hit>, res: seq<Hit>, picks: seq<nat>, above: seq<nat>,
                            scores: seq<real>, s: Settings)
    requires |scores| >= |above|
    requires forall k :: 0 <= k < |above| ==> above[k] < |all|
    requires |picks| == |res|
  {
    && (forall k :: 0 <= k < |above| ==> all[above[k]].rerankScore == Some(scores[k]))
    && (forall i :: 0 <= i < |all| ==> (all[i].rerankScore.Some? <==> all[i].distance > s.distanceThreshold))
    && (forall k :: 0 <= k < |res| ==>
          res[k].rerankScore.Some? && res[k].rerankScore.value > s.rerankThreshold)
    && (forall i, j :: 0 <= i < j < |res| ==>
          res[i].rerankScore.value >= res[j].rerankScore.value
          && (res[i].rerankScore.value == res[j].rerankScore.value ==> picks[i] < picks[j]))
    && ((s.topK.None? || s.topK.value == 0) ==>
          forall i :: 0 <= i < |all| ==>
            (i in picks <==> all[i].distance > s.distanceThreshold
                             && all[i].rerankScore.value > s.rerankThreshold))
  }

  lemma PlainOutcome(all: seq<Hit>, raw: seq<RawHit>, s: Settings, picks: seq<nat>)
    requires |all| == |raw|
    requires forall i :: 0 <= i < |all| ==> all[i].distance == raw[i].distance && all[i].rerankScore.None?
    requires picks == CutTopK(AboveDistance(raw, s.distanceThreshold), s.topK)
    ensures forall k :: 0 <= k < |picks| ==> picks[k] < |all|
    ensures Selected(all, Deref(all, picks), picks, s)
    ensures PlainSelection(all, picks, AboveDistance(raw, s.distanceThreshold), s)
  {
    AboveInAll(all, raw, s.distanceThreshold);
    PlainFrom(all, AboveDistance(raw, s.distanceThreshold), s, picks);
  }

  /** The hits above the threshold, as positions in the dicts built from them. */
  lemma AboveInAll(all: seq<Hit>, raw: seq<RawHit>, t: real)
    requires |all| == |raw|
    requires forall i :: 0 <= i < |all| ==> all[i].distance == raw[i].distance
    ensures forall k :: 0 <= k < |AboveDistance(raw, t)| ==>
              AboveDistance(raw, t)[k] < |all| && all[AboveDistance(raw, t)[k]].distance > t
  {
  }

  /** A top_k cut of increasing references to hits above the distance
      threshold, none of them scored. */
  lemma PlainFrom(all: seq<Hit>, above: seq<nat>, s: Settings, picks: seq<nat>)
    requires Py.StrictlyIncreasing(above)
    requires forall k :: 0 <= k < |above| ==> above[k] < |all| && all[above[k]].distance > s.distanceThreshold
    requires forall i :: 0 <= i < |all| ==> all[i].rerankScore.None?
    requires picks == CutTopK(above, s.topK)
    ensures forall k :: 0 <= k < |picks| ==> picks[k] < |all|
    ensures Selected(all, Deref(all, picks), picks, s)
    ensures PlainSelection(all, picks, above, s)
  {
    PrefixIncreasing(above, picks);
    IncreasingSelected(all, picks, s);
  }

  /** Increasing references to hits above the distance threshold, at most
      top_k of them, are a selection. */
  lemma IncreasingSelected(all: seq<Hit>, picks: seq<nat>, s: Settings)
    requires forall k :: 0 <= k < |picks| ==> picks[k] < |all| && all[picks[k]].distance > s.distanceThreshold
    requires Py.StrictlyIncreasing(picks)
    requires s.topK.Some? && s.topK.value > 0 ==> |picks| <= s.topK.value
    ensures Selected(all, Deref(all, picks), picks, s)
  {
  }

  /** A prefix of a strictly increasing list is one, element by element. */
  lemma PrefixIncreasing(s: seq<nat>, p: seq<nat>)
    requires Py.StrictlyIncreasing(s) && p <= s
    ensures Py.StrictlyIncreasing(p)
    ensures forall k :: 0 <= k < |p| ==> p[k] == s[k]
  {
    assert p == s[..|p|];
  }

  lemma StablyOrderedDistinct(s: seq<nat>, key: nat -> real)
    requires StablyOrdered(s, key)
    ensures forall i, j :: 0 <= i < j < |s| ==> s[i] != s[j]
  {
  }

  lemma CutRankedProps(all: seq<Hit>, above: seq<nat>, rt: real, topK: Option<int>)
    requires Py.StrictlyIncreasing(above)
    ensures var p := CutTopK(RankedPicks(all, above, rt), topK);
      && StablyOrdered(p, KeyOf(all))
      && (forall x :: x in p ==> x in above && KeyOf(all)(x) > rt)
      && ((topK.None? || topK.value == 0) ==> forall x :: x in p <==> x in above && KeyOf(all)(x) > rt)
  {
    RankedPicksProps(all, above, rt);
    var ranked := RankedPicks(all, above, rt);
    var p := CutTopK(ranked, topK);
    PrefixOrdered(ranked, KeyOf(all), |p|);
    assert p == ranked[..|p|];
    assert forall x :: x in p ==> x in ranked;
  }

  lemma ScoredAbove(all: seq<Hit>, raw: seq<RawHit>, s: Settings, scores: seq<real>)
    requires |all| == |raw|
    requires forall i :: 0 <= i < |all| ==> all[i].distance == raw[i].distance
    requires |scores| >= |AboveDistance(raw, s.distanceThreshold)|
    requires forall k :: 0 <= k < |AboveDistance(raw, s.distanceThreshold)| ==>
               all[AboveDistance(raw, s.distanceThreshold)[k]].rerankScore == Some(scores[k])
    requires forall m :: 0 <= m < |all| && m !in AboveDistance(raw, s.distanceThreshold) ==>
               all[m].rerankScore.None?
    ensures forall m :: 0 <= m < |all| ==> (all[m].rerankScore.Some? <==> all[m].distance > s.distanceThreshold)
    ensures forall x :: x in AboveDistance(raw, s.distanceThreshold) ==>
              x < |all| && all[x].distance > s.distanceThreshold
              && all[x].rerankScore.Some? && KeyOf(all)(x) == all[x].rerankScore.value
    ensures forall m :: 0 <= m < |all| && all[m].distance > s.distanceThreshold ==>
              m in AboveDistance(raw, s.distanceThreshold)
  {
    var above := AboveDistance(raw, s.distanceThreshold);
    forall m | 0 <= m < |all| ensures all[m].rerankScore.Some? <==> all[m].distance > s.distanceThreshold {
      if all[m].distance > s.distanceThreshold {
        assert m in above;
        var q :| 0 <= q < |above| && above[q] == m;
      }
    }
    forall x | x in above
      ensures x < |all| && all[x].distance > s.distanceThreshold && all[x].rerankScore.Some?
    {
      var q :| 0 <= q < |above| && above[q] == x;
    }
  }

  lemma RankedOutcome(all: seq<Hit>, raw: seq<RawHit>, s: Settings, scores: seq<real>, picks: seq<nat>)
    requires |all| == |raw|
    requires forall i :: 0 <= i < |all| ==> all[i].distance == raw[i].distance
    requires |scores| >= |AboveDistance(raw, s.distanceThreshold)|
    requires forall k :: 0 <= k < |AboveDistance(raw, s.distanceThreshold)| ==>
               all[AboveDistance(raw, s.distanceThreshold)[k]].rerankScore == Some(scores[k])
    requires forall m :: 0 <= m < |all| && m !in AboveDistance(raw, s.distanceThreshold) ==>
               all[m].rerankScore.None?
    requires picks == CutTopK(RankedPicks(all, AboveDistance(raw, s.distanceThreshold), s.rerankThreshold), s.topK)
    ensures forall k :: 0 <= k < |picks| ==> picks[k] < |all|
    ensures Selected(all, Deref(all, picks), picks, s)
    ensures RankedSelection(all, Deref(all, picks), picks, AboveDistance(raw, s.distanceThreshold), scores, s)
  {
    var above := AboveDistance(raw, s.distanceThreshold);
    ScoredAbove(all, raw, s, scores);
    CutRankedProps(all, above, s.rerankThreshold, s.topK);
    RankedSelectedFrom(all, above, s, picks);
  }

  /** The reranked selection, from the facts about the scored references. */
  lemma RankedSelectedFrom(all: seq<Hit>, above: seq<nat>, s: Settings, picks: seq<nat>)
    requires forall x :: x in above ==>
               x < |all| && all[x].distance > s.distanceThreshold
               && all[x].rerankScore.Some? && KeyOf(all)(x) == all[x].rerankScore.value
    requires StablyOrdered(picks, KeyOf(all))
    requires forall x :: x in picks ==> x in above && KeyOf(all)(x) > s.rerankThreshold
    requires (s.topK.None? || s.topK.value == 0) ==>
               forall x :: x in picks <==> x in above && KeyOf(all)(x) > s.rerankThreshold
    requires forall m :: 0 <= m < |all| ==> (all[m].rerankScore.Some? <==> all[m].distance > s.distanceThreshold)
    requires forall m :: 0 <= m < |all| && all[m].distance > s.distanceThreshold ==> m in above
    requires s.topK.Some? && s.topK.value > 0 ==> |picks| <= s.topK.value
    ensures forall k :: 0 <= k < |picks| ==> picks[k] < |all|
    ensures Selected(all, Deref(all, picks), picks, s)
    ensures forall k :: 0 <= k < |picks| ==>
              Deref(all, picks)[k].rerankScore.Some? && Deref(all, picks)[k].rerankScore.value > s.rerankThreshold
    ensures forall i, j :: 0 <= i < j < |picks| ==>
              Deref(all, picks)[i].rerankScore.value >= Deref(all, picks)[j].rerankScore.value
              && (Deref(all, picks)[i].rerankScore.value == Deref(all, picks)[j].rerankScore.value ==> picks[i] < picks[j])
    ensures (s.topK.None? || s.topK.value == 0) ==>
              forall i :: 0 <= i < |all| ==>
                (i in picks <==> all[i].distance > s.distanceThreshold
                                 && all[i].rerankScore.value > s.rerankThreshold)
  {
    StablyOrderedDistinct(picks, KeyOf(all));
    assert forall k :: 0 <= k < |picks| ==> picks[k] in picks;
  }

  /** What advanced_query answers. On success, `picks[k]` is the position
      in `all_results` of the dictionary that is `results[k]`. The only
      failure is the IndexError of a reranker that returns fewer scores
      than texts. */
  predicate Answered(b: Backend, query: string, dbId: string, p: Params, r: Result<Response>, picks: seq<nat>) {
    var s := Resolve(p);
    var raw := Search(b, query, dbId, s.maxQueryCount);
    var above := AboveDistance(raw, s.distanceThreshold);
    var reranked := WillRerank(b, raw, s.distanceThreshold);
    var scores := b.rerankScores(query, Texts(raw, above));
    && (r.Failure? <==> reranked && |scores| < |above|)
    && (r.Failure? ==> r.error == IndexError)
    && (r.Success? ==>
      var all := r.value.allResults;
      var res := r.value.results;
      && |all| == |raw|
      && (forall i :: 0 <= i < |all| ==> FileAttached(b, all[i], raw[i]))
      && Selected(all, res, picks, s)
      && (!reranked ==> PlainSelection(all, picks, above, s) && picks == CutTopK(above, s.topK))
      && (reranked ==> RankedSelection(all, res, picks, above, scores, s)
                       && picks == CutTopK(RankedPicks(all, above, s.rerankThreshold), s.topK)))
  }

  /** The reranker's IndexError. */
  lemma FailedAnswer(b: Backend, query: string, dbId: string, p: Params, s: Settings, raw: seq<RawHit>)
    requires s == Resolve(p) && raw == Search(b, query, dbId, s.maxQueryCount)
    requires WillRerank(b, raw, s.distanceThreshold)
    requires |b.rerankScores(query, Texts(raw, AboveDistance(raw, s.distanceThreshold)))| < |AboveDistance(raw, s.distanceThreshold)|
    ensures Answered(b, query, dbId, p, Failure(IndexError), [])
  {
  }

  /** The answer without reranking. */
  lemma PlainAnswer(b: Backend, query: string, dbId: string, p: Params, s: Settings, raw: seq<RawHit>,
                    all: seq<Hit>, picks: seq<nat>)
    requires s == Resolve(p) && raw == Search(b, query, dbId, s.maxQueryCount)
    requires !WillRerank(b, raw, s.distanceThreshold)
    requires |all| == |raw|
    requires forall i :: 0 <= i < |all| ==> FileAttached(b, all[i], raw[i]) && all[i].rerankScore.None?
    requires picks == CutTopK(AboveDistance(raw, s.distanceThreshold), s.topK)
    ensures forall k :: 0 <= k < |picks| ==> picks[k] < |all|
    ensures Answered(b, query, dbId, p, Success(Response(Deref(all, picks), all)), picks)
  {
    PlainOutcome(all, raw, s, picks);
  }

  /** The answer with reranking, from the hits before and after the scores
      are written. */
  lemma RankedAnswer(b: Backend, query: string, dbId: string, p: Params, s: Settings, raw: seq<RawHit>,
                     attached: seq<Hit>, all: seq<Hit>, scores: seq<real>, picks: seq<nat>)
    requires s == Resolve(p) && raw == Search(b, query, dbId, s.maxQueryCount)
    requires WillRerank(b, raw, s.distanceThreshold)
    requires scores == b.rerankScores(query, Texts(raw, AboveDistance(raw, s.distanceThreshold)))
    requires |scores| >= |AboveDistance(raw, s.distanceThreshold)|
    requires |attached| == |raw|
    requires forall i :: 0 <= i < |attached| ==> FileAttached(b, attached[i], raw[i]) && attached[i].rerankScore.None?
    requires |all| == |attached|
    requires forall m :: 0 <= m < |attached| ==> all[m] == attached[m].(rerankScore := all[m].rerankScore)
    requires forall k :: 0 <= k < |AboveDistance(raw, s.distanceThreshold)| ==>
               all[AboveDistance(raw, s.distanceThreshold)[k]].rerankScore == Some(scores[k])
    requires forall m :: 0 <= m < |attached| && m !in AboveDistance(raw, s.distanceThreshold) ==>
               all[m].rerankScore == attached[m].rerankScore
    requires picks == CutTopK(RankedPicks(all, AboveDistance(raw, s.distanceThreshold), s.rerankThreshold), s.topK)
    ensures forall k :: 0 <= k < |picks| ==> picks[k] < |all|
    ensures Answered(b, query, dbId, p, Success(Response(Deref(all, picks), all)), picks)
  {
    ScoresKeepFiles(b, raw, attached, all);
    RankedOutcome(all, raw, s, scores, picks);
  }

  /** Writing rerank scores keeps the attached files and distances. */
  lemma ScoresKeepFiles(b: Backend, raw: seq<RawHit>, attached: seq<Hit>, all: seq<Hit>)
    requires |attached| == |raw| == |all|
    requires forall i :: 0 <= i < |attached| ==> FileAttached(b, attached[i], raw[i])
    requires forall m :: 0 <= m < |attached| ==> all[m] == attached[m].(rerankScore := all[m].rerankScore)
    ensures forall i :: 0 <= i < |all| ==> FileAttached(b, all[i], raw[i]) && all[i].distance == raw[i].distance
  {
    forall i | 0 <= i < |all| ensures FileAttached(b, all[i], raw[i]) && all[i].distance == raw[i].distance {
      assert all[i] == attached[i].(rerankScore := all[i].rerankScore);
    }
  }

  /** advanced_query: search, attach the files, then either cut the hits
      above the distance threshold to top_k or rerank them. */
  method AdvancedQuery(b: Backend, query: string, dbId: string, p: Params)
    returns (r: Result<Response>, ghost picks: seq<nat>)
    ensures Answered(b, query, dbId, p, r, picks)
  {
    var s := Resolve(p);
    var raw := Search(b, query, dbId, s.maxQueryCount);
    var all := AttachFiles(b, raw);
    var above := AboveDistance(raw, s.distanceThreshold);
    var chosen: seq<nat>;
    if b.enableRerank && |above| > 0 && b.hasReranker {
      var texts := seq(|above|, k requires 0 <= k < |above| => all[above[k]].entity.text);
      assert texts == Texts(raw, above);
      var scores := b.rerankScores(query, texts);
      if |scores| < |above| {
        FailedAnswer(b, query, dbId, p, s, raw);
        return Failure(IndexError), [];
      }
      var attached := all;
      all := WriteScores(all, above, scores);
      chosen := CutTopK(RankedPicks(all, above, s.rerankThreshold), s.topK);
      RankedAnswer(b, query, dbId, p, s, raw, attached, all, scores, chosen);
    } else {
      chosen := CutTopK(above, s.topK);
      PlainAnswer(b, query, dbId, p, s, raw, all, chosen);
    }
    picks := chosen;
    r := Success(Response(Deref(all, chosen), all));
  }

  /** The parameters fixed by create_retriever: absent ones take the engine
      defaults, and top_k defaults to 10. */
  function RetrieverParams(p: Params): (q: Params)
    ensures q.distanceThreshold == Some(if p.distanceThreshold.Some? then p.distanceThreshold.value else 0.5)
    ensures q.rerankThreshold == Some(if p.rerankThreshold.Some? then p.rerankThreshold.value else 0.1)
    ensures q.maxQueryCount == Some(if p.maxQueryCount.Some? then p.maxQueryCount.value else 20)
    ensures q.topK == Some(if p.topK.Some? then p.topK.value else 10)
  {
    Params(
      Some(p.distanceThreshold.GetOr(DefaultDistanceThreshold)),
      Some(p.rerankThreshold.GetOr(DefaultRerankThreshold)),
      Some(p.maxQueryCount.GetOr(DefaultMaxQueryCount)),
      Some(p.topK.GetOr(RetrieverDefaultTopK)))
  }

  /** The closure returned by create_retriever: advanced_query with the fixed
      parameters, keeping only "results". */
  method Retrieve(b: Backend, dbId: string, p: Params, query: string) returns (r: Result<seq<Hit>>)
    ensures r.Success? ==>
              forall k :: 0 <= k < |r.value| ==> r.value[k].distance > Resolve(p).distanceThreshold
    ensures r.Success? && p.topK.None? ==> |r.value| <= 10
    ensures r.Success? && p.topK.Some? && p.topK.value > 0 ==> |r.value| <= p.topK.value
    ensures r.Failure? ==> r.error == IndexError
    ensures exists response, picks :: Answered(b, query, dbId, RetrieverParams(p), response, picks)
              && (response.Success? ==> r == Success(response.value.results))
              && (response.Failure? ==> r == Failure(response.error))
  {
    var response, picks := AdvancedQuery(b, query, dbId, RetrieverParams(p));
    if response.Failure? {
      return Failure(response.error);
    }
    r := Success(response.value.results);
  }
}
