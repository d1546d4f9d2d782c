/** The OneKE knowledge-extraction helpers: building the extraction prompts
    (optionally in schema batches), cutting a text file into overlapping
    chunks, and flattening the model's JSON answers into {h, t, r} triples.
    The model itself, its tokenizer and json.loads are left to the caller:
    parsing is a parameter and JSON is a datatype. */
module OneKE {
  import opened Wrappers
  import Py

  /** A decoded JSON value; an object keeps its members in order. */
  datatype Json =
    | JNull
    | JBool(b: bool)
    | JNum(n: real)
    | JStr(s: string)
    | JArr(elems: seq<Json>)
    | JObj(members: seq<(string, Json)>)

  // ---------------------------------------------------------------------------
  // Prompts.
  // ---------------------------------------------------------------------------

  /** EXTRACTION_TEMPLATES: English and Vietnamese templates only. */
  const ExtractionTemplates: map<string, string> := map[
    "entity_extraction_en" := "As an information mining specialist, identify and extract {target_schema} from the provided text:\nContent: {source_text}",
    "relationship_mining_en" := "As a relationship analysis expert, discover {target_schema} connections within the text:\nContent: {source_text}",
    "knowledge_synthesis_en" := "As a knowledge graph architect, synthesize {target_schema} information from the text in JSON structure:\nContent: {source_text}",
    "entity_extraction_vi" := "Với vai trò chuyên gia phân tích dữ liệu, hãy nhận diện và trích xuất {target_schema} từ nội dung:\nNội dung: {source_text}",
    "relationship_mining_vi" := "Với vai trò chuyên gia phân tích mối quan hệ, hãy khám phá các kết nối {target_schema} trong văn bản:\nNội dung: {source_text}",
    "knowledge_synthesis_vi" := "Với vai trò kiến trúc sư tri thức, hãy tổng hợp thông tin {target_schema} từ văn bản và trả về JSON:\nNội dung: {source_text}"
  ]

  /** BATCH_PROCESSING_LIMITS */
  const BatchLimits: map<string, nat> := map[
    "entity_extraction" := 6,
    "relationship_mining" := 4,
    "knowledge_synthesis" := 1
  ]

  /** The default language code of the prompt builder. */
  const DefaultLang := "zh"

  /** One instruction record, whose JSON text is the prompt. */
  datatype Prompt = Prompt(instruction: string, targetSchema: Json, sourceText: string)

  /** d[key] on an object's members (the first member with that key). */
  function Lookup(ms: seq<(string, Json)>, key: string): Json
    requires key in Py.DictKeys(ms)
  {
    if ms[0].0 == key then ms[0].1 else Lookup(ms[1..], key)
  }

  /** {key: d[key] for key in batch} */
  function SubDict(ms: seq<(string, Json)>, batch: seq<string>): seq<(string, Json)>
    requires forall i :: 0 <= i < |batch| ==> batch[i] in Py.DictKeys(ms)
  {
    seq(|batch|, i requires 0 <= i < |batch| => (batch[i], Lookup(ms, batch[i])))
  }

  /** The schema batches: a dict's keys, a list's elements or a string's
      characters cut into consecutive slices; anything else has no len(). */
  function SchemaBatches(schema: Json, size: nat): Result<seq<Json>>
    requires size > 0
  {
    match schema
    case JObj(ms) =>
      var batches := Py.Chunks(Py.DictKeys(ms), size);
      Py.ChunksFlatten(Py.DictKeys(ms), size);
      Success(seq(|batches|, i requires 0 <= i < |batches| => JObj(SubDict(ms, BatchKeysIn(ms, batches, i)))))
    case JArr(es) =>
      var batches := Py.Chunks(es, size);
      Success(seq(|batches|, i requires 0 <= i < |batches| => JArr(batches[i])))
    case JStr(s) =>
      var batches := Py.Chunks(s, size);
      Success(seq(|batches|, i requires 0 <= i < |batches| => JStr(batches[i])))
    case _ => Failure(TypeError("object has no len()"))
  }

  /** The i-th key batch, each of whose keys is a key of the dict. */
  function BatchKeysIn(ms: seq<(string, Json)>, batches: seq<seq<string>>, i: nat): (b: seq<string>)
    requires i < |batches|
    requires Py.Flatten(batches) == Py.DictKeys(ms)
    ensures b == batches[i]
    ensures forall k :: 0 <= k < |b| ==> b[k] in Py.DictKeys(ms)
  {
    forall k | 0 <= k < |batches[i]| ensures batches[i][k] in Py.DictKeys(ms) {
      InFlatten(batches, i, k);
    }
    batches[i]
  }

  lemma {:induction false} InFlatten<T>(xss: seq<seq<T>>, i: nat, k: nat)
    requires i < |xss| && k < |xss[i]|
    ensures xss[i][k] in Py.Flatten(xss)
  {
    if i == 0 {
      assert Py.Flatten(xss) == xss[0] + Py.Flatten(xss[1..]);
    } else {
      assert xss[1..][i - 1] == xss[i];
      InFlatten(xss[1..], i - 1, k);
    }
  }

  /** processed_schemas: the whole schema without batching; with batching,
      the operation must have a batch limit. */
  function ProcessedSchemas(schema: Json, op: string, batching: bool): Result<seq<Json>> {
    if !batching then Success([schema])
    else if op !in BatchLimits then Failure(KeyError(op))
    else SchemaBatches(schema, BatchLimits[op])
  }

  /** _prepare_extraction_prompts: one instruction per schema batch, each
      carrying the template for `{op}_{lang}` and the same source text; a
      missing template raises KeyError as soon as there is a batch. */
  method PreparePrompts(content: string, schema: Json, op: string, lang: string, batching: bool)
    returns (r: Result<seq<Prompt>>)
    ensures ProcessedSchemas(schema, op, batching).Failure? ==> r == Failure(ProcessedSchemas(schema, op, batching).error)
    ensures ProcessedSchemas(schema, op, batching).Success? ==>
              var ps := ProcessedSchemas(schema, op, batching).value;
              var key := op + "_" + lang;
              && (ps == [] ==> r == Success([]))
              && (ps != [] && key !in ExtractionTemplates ==> r == Failure(KeyError(key)))
              && (key in ExtractionTemplates ==>
                    r.Success? && |r.value| == |ps|
                    && forall i :: 0 <= i < |ps| ==> r.value[i] == Prompt(ExtractionTemplates[key], ps[i], content))
  {
    var processed := ProcessedSchemas(schema, op, batching);
    if processed.Failure? {
      return Failure(processed.error);
    }
    var ps := processed.value;
    var key := op + "_" + lang;
    var prompts: seq<Prompt> := [];
    var i := 0;
    while i < |ps|
      invariant 0 <= i <= |ps|
      invariant i > 0 ==> key in ExtractionTemplates
      invariant |prompts| == i
      invariant forall k :: 0 <= k < i ==> prompts[k] == Prompt(ExtractionTemplates[key], ps[k], content)
    {
      if key !in ExtractionTemplates {
        return Failure(KeyError(key));
      }
      prompts := prompts + [Prompt(ExtractionTemplates[key], ps[i], content)];
      i := i + 1;
    }
    r := Success(prompts);
  }

  /** Without batching there is exactly one prompt whenever the template exists. */
  lemma UnbatchedOnePrompt(schema: Json, op: string, lang: string)
    ensures ProcessedSchemas(schema, op, false) == Success([schema])
  {
  }

  /** The default language has no template: building prompts for it fails
      with KeyError whenever there is at least one batch. */
  lemma DefaultLangHasNoTemplate(op: string)
    ensures op + "_" + DefaultLang !in ExtractionTemplates
  {
    var key := op + "_" + DefaultLang;
    assert key[|key| - 2..] == "zh";
  }

  /** A list schema's batches are consecutive slices of at most the
      operation's limit whose concatenation is the schema. */
  lemma ListBatches(es: seq<Json>, op: string)
    requires op in BatchLimits
    ensures ProcessedSchemas(JArr(es), op, true).Success?
    ensures var ps := ProcessedSchemas(JArr(es), op, true).value;
            && (forall k :: 0 <= k < |ps| ==> ps[k].JArr? && 1 <= |ps[k].elems| <= BatchLimits[op])
            && Py.Flatten(seq(|ps|, k requires 0 <= k < |ps| => ps[k].elems)) == es
  {
    var n := BatchLimits[op];
    var ps := ProcessedSchemas(JArr(es), op, true).value;
    Py.ChunksFlatten(es, n);
    Py.ChunksSizes(es, n);
    assert seq(|ps|, k requires 0 <= k < |ps| => ps[k].elems) == Py.Chunks(es, n);
  }

  lemma {:induction false} LookupDistinct(ms: seq<(string, Json)>, i: nat)
    requires Py.DistinctKeys(ms) && i < |ms|
    ensures ms[i].0 in Py.DictKeys(ms)
    ensures Lookup(ms, ms[i].0) == ms[i].1
  {
    assert Py.DictKeys(ms)[i] == ms[i].0;
    if i > 0 {
      assert Py.DictKeys(ms[1..])[i - 1] == ms[i].0;
      LookupDistinct(ms[1..], i - 1);
    }
  }

  /** Cutting a dict's keys into batches of n and taking each batch's
      sub-dict is cutting its members into batches of n. */
  lemma DictChunks(ms: seq<(string, Json)>, n: nat)
    requires n > 0 && Py.DistinctKeys(ms)
    ensures Py.Flatten(Py.Chunks(Py.DictKeys(ms), n)) == Py.DictKeys(ms)
    ensures |Py.Chunks(Py.DictKeys(ms), n)| == |Py.Chunks(ms, n)|
    ensures forall k :: 0 <= k < |Py.Chunks(ms, n)| ==>
              SubDict(ms, BatchKeysIn(ms, Py.Chunks(Py.DictKeys(ms), n), k)) == Py.Chunks(ms, n)[k]
  {
    var keys := Py.DictKeys(ms);
    var batches := Py.Chunks(keys, n);
    Py.ChunksFlatten(keys, n);
    // Number the members: a batch of keys is then a batch of member positions.
    var idx := seq(|ms|, i requires 0 <= i < |ms| => i);
    var f := (i: int) => if 0 <= i < |ms| then ms[i] else ("", JNull);
    var g := (i: int) => if 0 <= i < |ms| then ms[i].0 else "";
    Py.ChunksMap(idx, ms, f, n);
    Py.ChunksMap(idx, keys, g, n);
    var ib := Py.Chunks(idx, n);
    var mb := Py.Chunks(ms, n);
    Py.ChunksFlatten(idx, n);
    forall k | 0 <= k < |mb| ensures SubDict(ms, BatchKeysIn(ms, batches, k)) == mb[k] {
      var b := BatchKeysIn(ms, batches, k);
      forall j | 0 <= j < |b| ensures SubDict(ms, b)[j] == mb[k][j] {
        InFlatten(ib, k, j);
        var pos := ib[k][j];
        assert b[j] == ms[pos].0 && mb[k][j] == ms[pos];
        LookupDistinct(ms, pos);
      }
    }
  }

  /** A dict schema's keys are cut in order into sub-dicts that keep the
      original values: together the batches are the dict again. */
  lemma DictBatches(ms: seq<(string, Json)>, op: string)
    requires op in BatchLimits && Py.DistinctKeys(ms)
    ensures ProcessedSchemas(JObj(ms), op, true).Success?
    ensures var ps := ProcessedSchemas(JObj(ms), op, true).value;
            && (forall k :: 0 <= k < |ps| ==> ps[k].JObj? && 1 <= |ps[k].members| <= BatchLimits[op])
            && Py.Flatten(seq(|ps|, k requires 0 <= k < |ps| => ps[k].members)) == ms
  {
    var n := BatchLimits[op];
    var ps := ProcessedSchemas(JObj(ms), op, true).value;
    var batches := Py.Chunks(Py.DictKeys(ms), n);
    DictChunks(ms, n);
    Py.ChunksSizes(ms, n);
    Py.ChunksFlatten(ms, n);
    var mb := Py.Chunks(ms, n);
    assert ps == seq(|batches|, i requires 0 <= i < |batches| => JObj(SubDict(ms, BatchKeysIn(ms, batches, i))));
    assert seq(|ps|, k requires 0 <= k < |ps| => ps[k].members) == mb;
  }

  // ---------------------------------------------------------------------------
  // Overlapping text chunks.
  // ---------------------------------------------------------------------------

  /** The text with every "\n" and "\r" removed. */
  function Clean(s: string): (r: string)
    ensures '\n' !in r && '\r' !in r
  {
    Py.WithoutChars(Py.Without(s, '\n'), '\r', '\n');
    Py.Without(Py.Without(s, '\n'), '\r')
  }

  lemma CleanAppend(a: string, b: string)
    ensures Clean(a + b) == Clean(a) + Clean(b)
  {
    Py.WithoutAppend(a, b, '\n');
    Py.WithoutAppend(Py.Without(a, '\n'), Py.Without(b, '\n'), '\r');
  }

  /** The chunks of a cleaned stream s: a window of `size` characters moved
      on by size - overlap while one fits, then the non-empty rest. */
  function ChunkSpec(s: string, size: nat, overlap: nat): seq<string>
    requires overlap < size
    decreases |s|
  {
    if |s| >= size then [s[..size]] + ChunkSpec(s[size - overlap..], size, overlap)
    else if s == [] then []
    else [s]
  }

  /** The chunks glued back, each later one without its overlap. */
  function Glue(cs: seq<string>, overlap: nat): string {
    if cs == [] then []
    else if |cs| == 1 then cs[0]
    else cs[0][..if |cs[0]| >= overlap then |cs[0]| - overlap else 0] + Glue(cs[1..], overlap)
  }

  /** Every chunk but the last has exactly `size` characters, none is empty
      or longer, and each one starts with the last `overlap` characters of
      the one before. */
  ghost predicate WellShaped(cs: seq<string>, size: nat, overlap: nat)
    requires overlap < size
  {
    && (forall k :: 0 <= k < |cs| ==> 1 <= |cs[k]| <= size)
    && (forall k :: 0 <= k < |cs| - 1 ==> |cs[k]| == size)
    && (forall j, k :: 0 <= j < k < |cs| && k == j + 1 ==>
          |cs[j]| == size && |cs[k]| >= overlap && cs[k][..overlap] == cs[j][size - overlap..])
  }

  lemma {:induction false} ChunkShape(s: string, size: nat, overlap: nat)
    requires overlap < size
    ensures WellShaped(ChunkSpec(s, size, overlap), size, overlap)
    decreases |s|
  {
    if |s| >= size {
      var rest := s[size - overlap..];
      ChunkShape(rest, size, overlap);
      var cs := ChunkSpec(s, size, overlap);
      var tail := ChunkSpec(rest, size, overlap);
      assert cs == [s[..size]] + tail;
      forall k | 0 <= k < |cs| ensures 1 <= |cs[k]| <= size {
        if k > 0 { assert cs[k] == tail[k - 1]; }
      }
      forall k | 0 <= k < |cs| - 1 ensures |cs[k]| == size {
        if k > 0 { assert cs[k] == tail[k - 1]; }
      }
      forall j, k | 0 <= j < k < |cs| && k == j + 1
        ensures |cs[j]| == size && |cs[k]| >= overlap && cs[k][..overlap] == cs[j][size - overlap..]
      {
        assert cs[k] == tail[j];
        if j > 0 {
          assert cs[j] == tail[j - 1];
        } else {
          assert |rest| >= overlap;
          assert tail[0] == (if |rest| >= size then rest[..size] else rest);
          assert tail[0][..overlap] == rest[..overlap];
          assert rest[..overlap] == s[..size][size - overlap..];
        }
      }
    }
  }

  /** Gluing the chunks gives the stream back. */
  lemma {:induction false} ChunkGlue(s: string, size: nat, overlap: nat)
    requires overlap < size
    ensures Glue(ChunkSpec(s, size, overlap), overlap) == s
    decreases |s|
  {
    if |s| >= size {
      var rest := s[size - overlap..];
      ChunkGlue(rest, size, overlap);
      var cs := ChunkSpec(s, size, overlap);
      assert cs[1..] == ChunkSpec(rest, size, overlap);
      if |cs| == 1 {
        assert rest == [];
        assert s == s[..size];
      } else {
        assert cs[0][..size - overlap] + rest == s;
      }
    }
  }

  /** Every chunk character comes from the stream. */
  lemma {:induction false} ChunkChars(s: string, size: nat, overlap: nat, k: nat, ch: char)
    requires overlap < size
    requires k < |ChunkSpec(s, size, overlap)| && ch in ChunkSpec(s, size, overlap)[k]
    ensures ch in s
    decreases |s|
  {
    if |s| >= size && k > 0 {
      var rest := s[size - overlap..];
      assert ChunkSpec(s, size, overlap)[k] == ChunkSpec(rest, size, overlap)[k - 1];
      ChunkChars(rest, size, overlap, k - 1, ch);
    }
  }

  lemma ChunkSpecStep(buffer: string, tail: string, size: nat, overlap: nat)
    requires overlap < size && |buffer| >= size
    ensures ChunkSpec(buffer + tail, size, overlap) == [buffer[..size]] + ChunkSpec(buffer[size - overlap..] + tail, size, overlap)
  {
    var s := buffer + tail;
    assert s[..size] == buffer[..size];
    assert s[size - overlap..] == buffer[size - overlap..] + tail;
  }

  /** A read cleaned by the two replace calls is its Clean text. */
  lemma CleanRead(data: string)
    ensures Py.Replace(Py.Replace(data, "\n", ""), "\r", "") == Clean(data)
  {
    Py.ReplaceCharByEmpty(data, '\n');
    Py.ReplaceCharByEmpty(Py.Replace(data, "\n", ""), '\r');
  }

  /** Moving one read from the unread text into the buffer keeps the stream. */
  lemma ReadAdvance(text: string, pos: nat, end: nat, buffer: string)
    requires pos <= end <= |text|
    ensures buffer + Clean(text[pos..]) == (buffer + Clean(text[pos..end])) + Clean(text[end..])
  {
    assert text[pos..] == text[pos..end] + text[end..];
    CleanAppend(text[pos..end], text[end..]);
  }

  /** Yielding a full window keeps the chunks still to come. */
  lemma EmitWindow(chunks: seq<string>, buffer: string, tail: string, size: nat, overlap: nat, whole: seq<string>)
    requires overlap < size && |buffer| >= size
    requires chunks + ChunkSpec(buffer + tail, size, overlap) == whole
    ensures (chunks + [buffer[..size]]) + ChunkSpec(buffer[size - overlap..] + tail, size, overlap) == whole
  {
    ChunkSpecStep(buffer, tail, size, overlap);
  }

  /** _stream_text_chunks over a file whose content is `text`: reads of
      `size` characters are cleaned and buffered, every full window is
      yielded and the buffer then keeps its last `overlap` characters; at the
      end of the file a non-empty buffer is yielded once. */
  method StreamTextChunks(text: string, size: nat, overlap: nat) returns (chunks: seq<string>)
    requires overlap < size
    ensures chunks == ChunkSpec(Clean(text), size, overlap)
  {
    ghost var whole := ChunkSpec(Clean(text), size, overlap);
    chunks := [];
    var buffer := "";
    var pos := 0;
    assert buffer + Clean(text[pos..]) == Clean(text);
    while pos < |text|
      invariant 0 <= pos <= |text|
      invariant |buffer| < size
      invariant chunks + ChunkSpec(buffer + Clean(text[pos..]), size, overlap) == whole
      decreases |text| - pos
    {
      var end := if pos + size <= |text| then pos + size else |text|;
      var data := text[pos..end];
      var cleaned := Py.Replace(Py.Replace(data, "\n", ""), "\r", "");
      CleanRead(data);
      ReadAdvance(text, pos, end, buffer);
      buffer := buffer + cleaned;
      pos := end;
      while |buffer| >= size
        invariant chunks + ChunkSpec(buffer + Clean(text[pos..]), size, overlap) == whole
        decreases |buffer|
      {
        EmitWindow(chunks, buffer, Clean(text[pos..]), size, overlap, whole);
        chunks := chunks + [buffer[..size]];
        buffer := buffer[size - overlap..];
      }
    }
    assert Clean(text[pos..]) == [] by {
      assert text[pos..] == [];
    }
    assert buffer + Clean(text[pos..]) == buffer;
    if buffer != "" {
      chunks := chunks + [buffer];
    }
  }

  /** No chunk holds a line break, and an input made only of line breaks
      yields nothing. */
  lemma ChunksHaveNoLineBreaks(text: string, size: nat, overlap: nat)
    requires overlap < size
    ensures forall k :: 0 <= k < |ChunkSpec(Clean(text), size, overlap)| ==>
              '\n' !in ChunkSpec(Clean(text), size, overlap)[k] && '\r' !in ChunkSpec(Clean(text), size, overlap)[k]
    ensures Clean(text) == [] ==> ChunkSpec(Clean(text), size, overlap) == []
  {
    var cs := ChunkSpec(Clean(text), size, overlap);
    forall k | 0 <= k < |cs| ensures '\n' !in cs[k] && '\r' !in cs[k] {
      if '\n' in cs[k] { ChunkChars(Clean(text), size, overlap, k, '\n'); }
      if '\r' in cs[k] { ChunkChars(Clean(text), size, overlap, k, '\r'); }
    }
  }

  // ---------------------------------------------------------------------------
  // From model output to triples.
  // ---------------------------------------------------------------------------

  datatype Triple = Triple(h: Json, t: Json, r: string)

  /** How one output item ended: normally, with an exception the converter
      catches (the item is skipped from there on), or with one it does not. */
  datatype Outcome = Done | Skipped | Raised(e: Exc)

  /** The triples an item appended before it ended, and how it ended. */
  datatype Step = Step(triples: seq<Triple>, outcome: Outcome)

  /** One triple per list element, or one for a scalar value. */
  function PropertyTriples(id: string, props: seq<(string, Json)>): (r: seq<Triple>)
    ensures |r| == PropertyCount(props)
    ensures forall k :: 0 <= k < |r| ==> r[k].h == JStr(id) && r[k].r in Py.DictKeys(props)
  {
    if props == [] then []
    else
      var (name, value) := props[0];
      var first := if value.JArr? then seq(|value.elems|, i requires 0 <= i < |value.elems| => Triple(JStr(id), value.elems[i], name))
                   else [Triple(JStr(id), value, name)];
      var rest := PropertyTriples(id, props[1..]);
      assert forall k :: 0 <= k < |rest| ==> rest[k].r in Py.DictKeys(props) by {
        forall k | 0 <= k < |rest| ensures rest[k].r in Py.DictKeys(props) {
          var j :| 0 <= j < |props[1..]| && Py.DictKeys(props[1..])[j] == rest[k].r;
          assert Py.DictKeys(props)[j + 1] == rest[k].r;
        }
      }
      assert Py.DictKeys(props)[0] == name;
      first + rest
  }

  /** The number of triples a property dict gives. */
  function PropertyCount(props: seq<(string, Json)>): nat {
    if props == [] then 0
    else (if props[0].1.JArr? then |props[0].1.elems| else 1) + PropertyCount(props[1..])
  }

  /** `for entity_id, entity_properties in entity_instances.items()`: a
      value without items() stops the item. */
  function EntityTriples(instances: seq<(string, Json)>): Step {
    if instances == [] then Step([], Done)
    else
      var (id, props) := instances[0];
      if !props.JObj? then Step([], Skipped)
      else
        var rest := EntityTriples(instances[1..]);
        Step(PropertyTriples(id, props.members) + rest.triples, rest.outcome)
  }

  /** knowledge_synthesis: category -> entity -> property -> value(s). */
  function SynthesisTriples(categories: seq<(string, Json)>): Step {
    if categories == [] then Step([], Done)
    else
      var instances := categories[0].1;
      if !instances.JObj? then Step([], Skipped)
      else
        var first := EntityTriples(instances.members);
        if first.outcome != Done then first
        else
          var rest := SynthesisTriples(categories[1..]);
          Step(first.triples + rest.triples, rest.outcome)
  }

  /** What `for pair_data in relation_pairs` iterates over: a list's elements,
      a dict's keys, a string's characters; other values are not iterable. */
  function Iterated(v: Json): Option<seq<Json>> {
    match v
    case JArr(es) => Some(es)
    case JObj(ms) => Some(seq(|ms|, i requires 0 <= i < |ms| => JStr(ms[i].0)))
    case JStr(s) => Some(seq(|s|, i requires 0 <= i < |s| => JStr([s[i]])))
    case _ => None
  }

  /** One triple per pair; a pair that is not a dict is a TypeError (caught),
      a dict without "subject" or "object" a KeyError (not caught). */
  function PairTriples(category: string, pairs: seq<Json>): Step {
    if pairs == [] then Step([], Done)
    else
      var p := pairs[0];
      if !p.JObj? then Step([], Skipped)
      else if "subject" !in Py.DictKeys(p.members) then Step([], Raised(KeyError("subject")))
      else if "object" !in Py.DictKeys(p.members) then Step([], Raised(KeyError("object")))
      else
        var t := Triple(Lookup(p.members, "subject"), Lookup(p.members, "object"), category);
        var rest := PairTriples(category, pairs[1..]);
        Step([t] + rest.triples, rest.outcome)
  }

  /** relationship_mining: category -> list of {subject, object} pairs. */
  function MiningTriples(categories: seq<(string, Json)>): Step {
    if categories == [] then Step([], Done)
    else
      var (category, pairs) := categories[0];
      var items := Iterated(pairs);
      if items.None? then Step([], Skipped)
      else
        var first := PairTriples(category, items.value);
        if first.outcome != Done then first
        else
          var rest := MiningTriples(categories[1..]);
          Step(first.triples + rest.triples, rest.outcome)
  }

  /** `s.strip().startswith('{') and s.strip().endswith('}')` */
  predicate BraceDelimited(s: string) {
    var t := Py.Strip(s);
    |t| > 0 && t[0] == '{' && t[|t| - 1] == '}'
  }

  /** One output item: skipped unless brace-delimited and decodable; then the
      mode's triples; an unknown mode gives none. */
  function ItemStep(item: string, mode: string, parse: string -> Option<Json>): Step {
    if !BraceDelimited(item) then Step([], Skipped)
    else
      var parsed := parse(item);
      if parsed.None? then Step([], Skipped)
      else if mode == "knowledge_synthesis" then
        if parsed.value.JObj? then SynthesisTriples(parsed.value.members) else Step([], Skipped)
      else if mode == "relationship_mining" then
        if parsed.value.JObj? then MiningTriples(parsed.value.members) else Step([], Skipped)
      else Step([], Done)
  }

  /** The per-item step of a mode and a decoder, as a function of the item. */
  function StepOf(mode: string, parse: string -> Option<Json>): string -> Step {
    item => ItemStep(item, mode, parse)
  }

  /** The converter's loop over a list of items, for any per-item step:
      caught exceptions keep the triples appended so far and move on; any
      other exception propagates. */
  function Run(items: seq<string>, step: string -> Step): Result<seq<Triple>> {
    if items == [] then Success([])
    else AfterItem(Run(items[..|items| - 1], step), step(items[|items| - 1]))
  }

  /** The converter of a mode and a decoder. */
  function Convert(items: seq<string>, mode: string, parse: string -> Option<Json>): Result<seq<Triple>> {
    Run(items, StepOf(mode, parse))
  }

  /** The state after one more item. */
  function AfterItem(sofar: Result<seq<Triple>>, step: Step): Result<seq<Triple>> {
    if sofar.Failure? then sofar
    else if step.outcome.Raised? then Failure(step.outcome.e)
    else Success(sofar.value + step.triples)
  }

  lemma Assoc<T>(a: seq<T>, b: seq<T>, c: seq<T>)
    ensures a + (b + c) == (a + b) + c
  {
  }

  lemma SplitLast<T>(b: seq<T>)
    requires b != []
    ensures b == b[..|b| - 1] + [b[|b| - 1]]
  {
  }

  lemma RunSnoc(items: seq<string>, item: string, step: string -> Step)
    ensures Run(items + [item], step) == AfterItem(Run(items, step), step(item))
  {
    assert (items + [item])[..|items|] == items;
  }

  /** The loop over one more item of a list: an uncaught exception there
      decides the whole list, otherwise its triples are appended. */
  lemma RunExtend(items: seq<string>, i: nat, step: string -> Step, structured: seq<Triple>)
    requires i < |items| && Run(items[..i], step) == Success(structured)
    ensures step(items[i]).outcome.Raised? ==> Run(items, step) == Failure(step(items[i]).outcome.e)
    ensures !step(items[i]).outcome.Raised? ==> Run(items[..i + 1], step) == Success(structured + step(items[i]).triples)
  {
    assert items[..i + 1] == items[..i] + [items[i]];
    RunSnoc(items[..i], items[i], step);
    if step(items[i]).outcome.Raised? {
      ConvertFailStays(items, step, i + 1);
    }
  }

  /** _convert_output_to_structured_format */
  method ConvertOutput(items: seq<string>, mode: string, parse: string -> Option<Json>) returns (r: Result<seq<Triple>>)
    ensures r == Convert(items, mode, parse)
  {
    ghost var f := StepOf(mode, parse);
    var structured: seq<Triple> := [];
    var i := 0;
    while i < |items|
      invariant 0 <= i <= |items|
      invariant Run(items[..i], f) == Success(structured)
    {
      RunExtend(items, i, f, structured);
      var step := ItemStep(items[i], mode, parse);
      assert step == f(items[i]);
      if step.outcome.Raised? {
        return Failure(step.outcome.e);
      }
      structured := structured + step.triples;
      i := i + 1;
    }
    assert items[..i] == items;
    r := Success(structured);
  }

  /** An uncaught exception ends the loop: once a prefix has failed, the
      whole list fails the same way. */
  lemma {:induction false} ConvertFailStays(items: seq<string>, step: string -> Step, n: nat)
    requires n <= |items| && Run(items[..n], step).Failure?
    ensures Run(items, step) == Run(items[..n], step)
    decreases |items| - n
  {
    if n < |items| {
      assert items[..n + 1][..n] == items[..n];
      ConvertFailStays(items, step, n + 1);
    } else {
      assert items[..n] == items;
    }
  }

  /** An item that is not brace-delimited, or does not decode, is skipped
      without triples. */
  lemma SkipStep(bad: string, mode: string, parse: string -> Option<Json>)
    requires !BraceDelimited(bad) || parse(bad).None?
    ensures ItemStep(bad, mode, parse) == Step([], Skipped)
  {
  }

  /** An item skipped without triples leaves the loop over the others as it
      would be without it. */
  lemma RunSkipIsolated(before: seq<string>, bad: string, after: seq<string>, step: string -> Step)
    requires step(bad) == Step([], Skipped)
    ensures Run(before + [bad] + after, step) == Run(before + after, step)
  {
    RunSnoc(before, bad, step);
    var c := Run(before, step);
    assert Run(before + [bad], step) == c by {
      if c.Success? {
        assert c.value + [] == c.value;
      }
    }
    ConvertConcat(before + [bad], after, step);
    ConvertConcat(before, after, step);
  }

  /** An item that is not brace-delimited, or does not decode, adds nothing
      and does not stop the items after it. */
  lemma SkippedItemIsolated(before: seq<string>, bad: string, after: seq<string>,
                             mode: string, parse: string -> Option<Json>)
    requires !BraceDelimited(bad) || parse(bad).None?
    ensures Convert(before + [bad] + after, mode, parse) == Convert(before + after, mode, parse)
  {
    SkipStep(bad, mode, parse);
    RunSkipIsolated(before, bad, after, StepOf(mode, parse));
  }

  /** The converter over two runs of items in a row: an uncaught exception
      in the first run wins, then one in the second, otherwise the triples
      are those of the first run followed by those of the second. */
  function Chain(x: Result<seq<Triple>>, y: Result<seq<Triple>>): Result<seq<Triple>> {
    if x.Failure? then x else if y.Failure? then y else Success(x.value + y.value)
  }

  /** Items are processed independently: running over a + b is running over
      a and b apart and chaining the results. */
  lemma {:induction false} ConvertConcat(a: seq<string>, b: seq<string>, step: string -> Step)
    ensures Run(a + b, step) == Chain(Run(a, step), Run(b, step))
    decreases |b|
  {
    if b == [] {
      assert a + b == a;
      var ca := Run(a, step);
      if ca.Success? { assert ca.value + [] == ca.value; }
    } else {
      var b0 := b[..|b| - 1];
      var last := b[|b| - 1];
      ConvertConcat(a, b0, step);
      SplitLast(b);
      Assoc(a, b0, [last]);
      RunSnoc(a + b0, last, step);
      RunSnoc(b0, last, step);
      var ca := Run(a, step);
      var cb := Run(b0, step);
      var st := step(last);
      if ca.Success? && cb.Success? && !st.outcome.Raised? {
        Assoc(ca.value, cb.value, st.triples);
      }
    }
  }

  /** In relationship_mining mode, well-formed pairs give one triple each, in
      order, with the relation set to their category. */
  lemma {:induction false} MiningOnePerPair(category: string, pairs: seq<Json>)
    requires forall k :: 0 <= k < |pairs| ==>
               pairs[k].JObj? && "subject" in Py.DictKeys(pairs[k].members) && "object" in Py.DictKeys(pairs[k].members)
    ensures PairTriples(category, pairs).outcome == Done
    ensures |PairTriples(category, pairs).triples| == |pairs|
    ensures forall k :: 0 <= k < |pairs| ==>
              PairTriples(category, pairs).triples[k]
              == Triple(Lookup(pairs[k].members, "subject"), Lookup(pairs[k].members, "object"), category)
  {
    if pairs != [] {
      MiningOnePerPair(category, pairs[1..]);
      var rest := PairTriples(category, pairs[1..]);
      var all := PairTriples(category, pairs);
      assert forall k :: 1 <= k < |pairs| ==> all.triples[k] == rest.triples[k - 1] && pairs[1..][k - 1] == pairs[k];
    }
  }

  /** In knowledge_synthesis mode, an entity whose properties are all dicts
      gives one triple per scalar value and one per list element. */
  lemma {:induction false} SynthesisCount(instances: seq<(string, Json)>)
    requires forall k :: 0 <= k < |instances| ==> instances[k].1.JObj?
    ensures EntityTriples(instances).outcome == Done
    ensures |EntityTriples(instances).triples| == EntityCount(instances)
  {
    if instances != [] {
      SynthesisCount(instances[1..]);
    }
  }

  function EntityCount(instances: seq<(string, Json)>): nat
    requires forall k :: 0 <= k < |instances| ==> instances[k].1.JObj?
  {
    if instances == [] then 0 else PropertyCount(instances[0].1.members) + EntityCount(instances[1..])
  }
}
