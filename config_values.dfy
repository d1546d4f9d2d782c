/** What the two configuration stores have in common: the JSON-like values
    they hold, the metadata kept for an item, and compare_custom_models,
    which puts back the stored API key of a known custom model whose key
    arrives as the frontend's placeholder. */
module ConfigValues {
  import opened Wrappers
  import Py

  /** A configuration value as JSON gives it. Numbers are not among the
      modelled values. */
  datatype Value =
    | VNone
    | VBool(b: bool)
    | VStr(s: string)
    | VList(elems: seq<Value>)
    | VDict(members: seq<(string, Value)>)

  /** A JSON object, its members in insertion order. */
  type Dict = seq<(string, Value)>

  /** The item a store keeps: the default with its description and
      choices, or only a default (an item created by `set`). */
  datatype Item =
    | Described(default: Value, des: Option<string>, choices: Option<seq<string>>)
    | DefaultOnly(default: Value)

  /** The key the frontend sends in place of a real API key. */
  const MockAgentKey := "this_is_mock_agent_key_in_frontend"

  /** Lists and dicts cannot be dict keys. */
  predicate Hashable(v: Value) {
    !v.VList? && !v.VDict?
  }

  /** d.get(k), None when absent. */
  function Field(d: Dict, k: string): Value {
    Py.DictGet(d, k).GetOr(VNone)
  }

  /** iter(v): a list's elements, a string's characters, a dict's keys. */
  function Iterate(v: Value): (r: Result<seq<Value>>)
    ensures r.Failure? <==> !(v.VList? || v.VStr? || v.VDict?)
    ensures v.VList? ==> r == Success(v.elems)
    ensures v.VStr? ==> r.Success? && |r.value| == |v.s|
                        && forall i :: 0 <= i < |v.s| ==> r.value[i] == VStr([v.s[i]])
    ensures v.VDict? ==> r.Success? && |r.value| == |v.members|
                         && forall i :: 0 <= i < |v.members| ==> r.value[i] == VStr(v.members[i].0)
  {
    match v
    case VList(xs) => Success(xs)
    case VStr(s) => Success(seq(|s|, i requires 0 <= i < |s| => VStr([s[i]])))
    case VDict(d) => Success(seq(|d|, i requires 0 <= i < |d| => VStr(d[i].0)))
    case _ => Failure(TypeError("object is not iterable"))
  }

  /** v[key] with a string key: only a dict holding the key answers. */
  function Subscript(v: Value, key: string): (r: Result<Value>)
    ensures r.Success? <==> v.VDict? && key in Py.DictKeys(v.members)
    ensures r.Success? ==> r.value == Field(v.members, key)
    ensures v.VDict? && r.Failure? ==> r.error == KeyError(key)
  {
    match v
    case VDict(d) =>
      (match Py.DictGet(d, key)
       case Some(x) => Success(x)
       case None => Failure(KeyError(key)))
    case VStr(_) => Failure(TypeError("string indices must be integers"))
    case VList(_) => Failure(TypeError("list indices must be integers or slices, not str"))
    case _ => Failure(TypeError("object is not subscriptable"))
  }

  /** A stored model the comprehension can read: a dict with a custom_id. */
  predicate HasId(v: Value) {
    v.VDict? && "custom_id" in Py.DictKeys(v.members)
  }

  function Id(v: Value): Value
    requires v.VDict?
  {
    Field(v.members, "custom_id")
  }

  function ApiKey(v: Value): Value
    requires v.VDict?
  {
    Field(v.members, "api_key")
  }

  /** {model["custom_id"]: model.get("api_key") for model in stored}: the
      first model without a custom_id, or whose custom_id cannot be a key,
      stops the comprehension with its exception. */
  function CurrentKeys(stored: seq<Value>): Result<seq<(Value, Value)>> {
    if stored == [] then Success([])
    else
      var n := |stored| - 1;
      match CurrentKeys(stored[..n])
      case Failure(e) => Failure(e)
      case Success(keys) =>
        match Subscript(stored[n], "custom_id")
        case Failure(e) => Failure(e)
        case Success(id) =>
          if !Hashable(id) then Failure(TypeError("unhashable type"))
          else Success(Py.DictSet(keys, id, ApiKey(stored[n])))
  }

  /** The stored custom models, as `self.get("custom_models", [])` handed
      them over, turned into the id-to-key table. */
  function StoredKeys(stored: Value): Result<seq<(Value, Value)>> {
    match Iterate(stored)
    case Failure(e) => Failure(e)
    case Success(models) => CurrentKeys(models)
  }

  /** A table for the whole list is the table for all but the last model
      with the last model's id assigned. */
  lemma CurrentKeysStep(stored: seq<Value>, keys: seq<(Value, Value)>)
    requires stored != [] && CurrentKeys(stored) == Success(keys)
    ensures CurrentKeys(stored[..|stored| - 1]).Success?
    ensures HasId(stored[|stored| - 1]) && Hashable(Id(stored[|stored| - 1]))
    ensures keys == Py.DictSet(CurrentKeys(stored[..|stored| - 1]).value, Id(stored[|stored| - 1]), ApiKey(stored[|stored| - 1]))
  {
  }

  /** The table's ids are distinct. */
  lemma {:induction false} CurrentKeysDistinct(stored: seq<Value>, keys: seq<(Value, Value)>)
    requires CurrentKeys(stored) == Success(keys)
    ensures Py.DistinctKeys(keys)
  {
    if stored != [] {
      var n := |stored| - 1;
      CurrentKeysStep(stored, keys);
      var init := CurrentKeys(stored[..n]).value;
      CurrentKeysDistinct(stored[..n], init);
      Py.DictSetDistinct(init, Id(stored[n]), ApiKey(stored[n]));
    }
  }

  /** Every stored model is a dict whose custom_id is in the table. */
  lemma {:induction false} CurrentKeysIds(stored: seq<Value>, keys: seq<(Value, Value)>)
    requires CurrentKeys(stored) == Success(keys)
    ensures forall i :: 0 <= i < |stored| ==> HasId(stored[i]) && Id(stored[i]) in Py.DictKeys(keys)
  {
    if stored != [] {
      var n := |stored| - 1;
      var init := stored[..n];
      CurrentKeysStep(stored, keys);
      var initKeys := CurrentKeys(init).value;
      CurrentKeysIds(init, initKeys);
      Py.DictSetKeys(initKeys, Id(stored[n]), ApiKey(stored[n]));
      forall i | 0 <= i < n ensures HasId(stored[i]) && Id(stored[i]) in Py.DictKeys(keys) {
        assert init[i] == stored[i];
      }
      assert HasId(stored[n]) && Id(stored[n]) in Py.DictKeys(keys);
      forall i | 0 <= i < |stored| ensures HasId(stored[i]) && Id(stored[i]) in Py.DictKeys(keys) {
        if i == n {
        }
      }
    }
  }

  /** No model after the i-th has the i-th's custom_id. */
  predicate LastWithId(stored: seq<Value>, i: nat)
    requires i < |stored| && stored[i].VDict?
  {
    forall j :: i < j < |stored| ==> !(stored[j].VDict? && Id(stored[j]) == Id(stored[i]))
  }

  /** Dropping the last model keeps the i-th the last with its id, and the
      last model has another id. */
  lemma LastWithIdInit(stored: seq<Value>, i: nat)
    requires i < |stored| - 1 && stored[i].VDict? && stored[|stored| - 1].VDict? && LastWithId(stored, i)
    ensures stored[..|stored| - 1][i] == stored[i]
    ensures LastWithId(stored[..|stored| - 1], i)
    ensures Id(stored[i]) != Id(stored[|stored| - 1])
  {
    var init := stored[..|stored| - 1];
    forall j | i < j < |init| ensures !(init[j].VDict? && Id(init[j]) == Id(init[i])) {
      assert init[j] == stored[j];
    }
  }

  /** Assigning another key leaves a key's entry alone. */
  lemma GetOtherAfterSet(d: seq<(Value, Value)>, r: seq<(Value, Value)>, k: Value, v: Value, k': Value, v': Value)
    requires r == Py.DictSet(d, k, v) && k' != k && Py.DictGet(d, k') == Some(v')
    ensures Py.DictGet(r, k') == Some(v')
  {
    Py.DictGetSet(d, k, v, k');
  }

  /** The last model with a given id gives the table its key for that id. */
  lemma {:induction false} CurrentKeysLast(stored: seq<Value>, keys: seq<(Value, Value)>, i: nat)
    requires CurrentKeys(stored) == Success(keys)
    requires i < |stored| && stored[i].VDict? && LastWithId(stored, i)
    ensures Py.DictGet(keys, Id(stored[i])) == Some(ApiKey(stored[i]))
  {
    var n := |stored| - 1;
    CurrentKeysStep(stored, keys);
    var initKeys := CurrentKeys(stored[..n]).value;
    if i < n {
      LastWithIdInit(stored, i);
      CurrentKeysLast(stored[..n], initKeys, i);
      GetOtherAfterSet(initKeys, keys, Id(stored[n]), ApiKey(stored[n]), Id(stored[i]), ApiKey(stored[i]));
    } else {
      Py.DictGetSet(initKeys, Id(stored[n]), ApiKey(stored[n]), Id(stored[i]));
    }
  }

  /** One entry of compare_custom_models' loop, once its custom_id is
      known to be hashable: the placeholder key of a known model becomes
      the stored key. */
  function Preserve(keys: seq<(Value, Value)>, m: Dict): (r: Dict)
    ensures r != m ==> Field(m, "custom_id") in Py.DictKeys(keys) && Field(m, "api_key") == VStr(MockAgentKey)
    ensures Field(m, "custom_id") in Py.DictKeys(keys) && Field(m, "api_key") == VStr(MockAgentKey) ==>
              Field(r, "api_key") == Py.DictGet(keys, Field(m, "custom_id")).value
              && Py.DictKeys(r) == Py.DictKeys(m)
    ensures forall k :: k != "api_key" ==> Field(r, k) == Field(m, k)
  {
    var id := Field(m, "custom_id");
    if id in Py.DictKeys(keys) && Field(m, "api_key") == VStr(MockAgentKey) then
      var stored := Py.DictGet(keys, id).value;
      Py.DictGetSet(m, "api_key", stored, "api_key");
      forall k ensures Field(Py.DictSet(m, "api_key", stored), k) == if k == "api_key" then stored else Field(m, k) {
        Py.DictGetSet(m, "api_key", stored, k);
      }
      Py.DictSet(m, "api_key", stored)
    else m
  }

  /** Putting the keys back twice changes nothing more, unless a stored key
      is itself the placeholder. */
  lemma PreserveIdempotent(keys: seq<(Value, Value)>, m: Dict)
    requires forall i :: 0 <= i < |keys| ==> keys[i].1 != VStr(MockAgentKey)
    ensures Preserve(keys, Preserve(keys, m)) == Preserve(keys, m)
  {
    var r := Preserve(keys, m);
    if r != m {
      var id := Field(m, "custom_id");
      var k :| 0 <= k < |keys| && keys[k].0 == id && keys[k].1 == Py.DictGet(keys, id).value && id !in Py.DictKeys(keys[..k]);
      assert Field(r, "api_key") != VStr(MockAgentKey);
    }
  }

  /** The index of the first entry whose custom_id cannot be looked up in
      the table, or the length when there is none. */
  function FirstUnhashable(models: seq<Dict>): (i: nat)
    ensures i <= |models|
    ensures forall k :: 0 <= k < i ==> Hashable(Field(models[k], "custom_id"))
    ensures i < |models| ==> !Hashable(Field(models[i], "custom_id"))
  {
    if models == [] then 0
    else if !Hashable(Field(models[0], "custom_id")) then 0
    else 1 + FirstUnhashable(models[1..])
  }

  /** The first n entries with their stored keys back, the rest as they
      were. */
  ghost function RestoredPrefix(keys: seq<(Value, Value)>, orig: seq<Dict>, n: nat): (r: seq<Dict>)
    requires n <= |orig|
  {
    seq(|orig|, k requires 0 <= k < |orig| => if k < n then Preserve(keys, orig[k]) else orig[k])
  }

  /** Restoring entry n extends the restored prefix by one. */
  lemma RestoredStep(keys: seq<(Value, Value)>, orig: seq<Dict>, n: nat)
    requires n < |orig|
    ensures RestoredPrefix(keys, orig, n)[n := Preserve(keys, orig[n])] == RestoredPrefix(keys, orig, n + 1)
  {
  }

  /** A Python list of dicts, the object compare_custom_models rewrites and
      returns. */
  class ModelList {
    var models: seq<Dict>

    constructor (models: seq<Dict>)
      ensures this.models == models
    {
      this.models := models;
    }
  }

  /** The loop of compare_custom_models: each entry in turn gets its stored
      key back; an entry whose custom_id is a list or a dict raises
      TypeError and leaves it and the entries after it as they were. */
  method RestoreKeys(keys: seq<(Value, Value)>, value: ModelList) returns (r: Result<ModelList>)
    modifies value
    ensures |value.models| == |old(value.models)|
    ensures forall i :: 0 <= i < FirstUnhashable(old(value.models)) ==> value.models[i] == Preserve(keys, old(value.models)[i])
    ensures forall i :: FirstUnhashable(old(value.models)) <= i < |value.models| ==> value.models[i] == old(value.models)[i]
    ensures FirstUnhashable(old(value.models)) < |value.models| ==> r == Failure(TypeError("unhashable type"))
    ensures FirstUnhashable(old(value.models)) == |value.models| ==> r == Success(value)
  {
    var ms := value.models;
    ghost var orig := ms;
    ghost var stop := FirstUnhashable(orig);
    var i := 0;
    while i < |ms|
      invariant i <= stop && |ms| == |orig|
      invariant ms == RestoredPrefix(keys, orig, i)
    {
      if !Hashable(Field(ms[i], "custom_id")) {
        assert i == stop;
        value.models := ms;
        return Failure(TypeError("unhashable type"));
      }
      assert i != stop;
      RestoredStep(keys, orig, i);
      ms := ms[i := Preserve(keys, ms[i])];
      i := i + 1;
    }
    value.models := ms;
    r := Success(value);
  }
}
