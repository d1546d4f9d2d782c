/** The item-based agent configuration: a dict of items, each holding a
    default (with its description and choices when added by add_item);
    get reads an item's default, set writes it, and saving writes the
    mapping of every key to its default. */
module ConfigItems {
  import opened Wrappers
  import opened ConfigValues

  /** items.get(key, {}).get("default", default) */
  function Lookup(items: map<string, Item>, key: string, default: Value): (v: Value)
    ensures key in items ==> v == items[key].default
    ensures key !in items ==> v == default
  {
    if key in items then items[key].default else default
  }

  /** The items after set(key, value): an existing item keeps its
      description and choices and takes the new default; a new key gets
      an item with only a default. */
  function SetItems(items: map<string, Item>, key: string, value: Value): (r: map<string, Item>)
    ensures r.Keys == items.Keys + {key}
    ensures r[key].default == value
    ensures key in items && items[key].Described? ==>
              r[key] == Described(value, items[key].des, items[key].choices)
    ensures key !in items ==> r[key] == DefaultOnly(value)
    ensures forall k :: k in items && k != key ==> r[k] == items[k]
  {
    if key in items then items[key := items[key].(default := value)]
    else items[key := DefaultOnly(value)]
  }

  /** {k: v["default"] for k, v in items.items()}: the mapping save writes. */
  function Saved(items: map<string, Item>): (r: map<string, Value>)
    ensures r.Keys == items.Keys
    ensures forall k :: k in r ==> r[k] == Lookup(items, k, VNone)
  {
    map k | k in items :: items[k].default
  }

  /** After set(k, v), get(k) is v whatever the fallback, every other key
      reads as before, and the saved mapping differs only at k. */
  lemma SetThenGet(items: map<string, Item>, key: string, value: Value, other: string, default: Value)
    ensures Lookup(SetItems(items, key, value), key, default) == value
    ensures other != key ==> Lookup(SetItems(items, key, value), other, default) == Lookup(items, other, default)
    ensures Saved(SetItems(items, key, value)) == Saved(items)[key := value]
  {
    assert Saved(SetItems(items, key, value)).Keys == (Saved(items)[key := value]).Keys;
  }

  /** Setting a key twice leaves what setting it the second time alone
      would. */
  lemma SetTwice(items: map<string, Item>, key: string, v1: Value, v2: Value)
    ensures SetItems(SetItems(items, key, v1), key, v2) == SetItems(items, key, v2)
  {
    if key !in items {
      assert SetItems(items, key, v1)[key] == DefaultOnly(v1);
    }
  }

  const ProviderChoices: seq<string> := ["siliconflow", "openai", "anthropic", "google", "huggingface"]

  /** The items after the first six add_item calls: the workspace, the four
      feature flags and the provider. */
  function FlagItems(m: map<string, Item>): (r: map<string, Item>)
    ensures r.Keys == m.Keys + {"workspace", "enable_rerank", "enable_kb", "enable_graph", "enable_websearch", "provider"}
    ensures Lookup(r, "workspace", VNone) == VStr("workspace")
    ensures forall k :: k in {"enable_rerank", "enable_kb", "enable_graph", "enable_websearch"} ==> Lookup(r, k, VNone) == VBool(false)
    ensures r["provider"] == Described(VStr("siliconflow"), None, Some(ProviderChoices))
    ensures forall k :: k in m && k !in {"workspace", "enable_rerank", "enable_kb", "enable_graph", "enable_websearch", "provider"} ==> r[k] == m[k]
  {
    m["workspace" := Described(VStr("workspace"), Some("Agent workspace directory"), None)]
     ["enable_rerank" := Described(VBool(false), Some("Whether to use embed reranker"), None)]
     ["enable_kb" := Described(VBool(false), Some("Whether to use knowledge base"), None)]
     ["enable_graph" := Described(VBool(false), Some("Whether to use graph"), None)]
     ["enable_websearch" := Described(VBool(false), Some("Whether to use web search"), None)]
     ["provider" := Described(VStr("siliconflow"), None, Some(ProviderChoices))]
  }

  /** The items after the last six add_item calls: the models, the local
      paths, the query mode and the device. */
  function ModelItems(m: map<string, Item>): (r: map<string, Item>)
    ensures r.Keys == m.Keys + {"model", "embed_model", "ranker", "local_paths", "query_mode", "device"}
    ensures Lookup(r, "query_mode", VNone) == VStr("off")
    ensures r["query_mode"] == Described(VStr("off"), Some("Query enhancement mode"), Some(["off", "on", "hyde"]))
    ensures Lookup(r, "embed_model", VNone) == VStr("ollama/bge-m3")
    ensures forall k :: k in m && k !in {"model", "embed_model", "ranker", "local_paths", "query_mode", "device"} ==> r[k] == m[k]
  {
    m["model" := Described(VStr("Qwen/Qwen2.5-7B-Instruct"), Some("Model name"), None)]
     ["embed_model" := Described(VStr("ollama/bge-m3"), Some("Embedding model"), None)]
     ["ranker" := Described(VStr("huggingface/bge-reranker-v2-m3"), Some("Ranking model"), None)]
     ["local_paths" := Described(VDict([]), Some("Local model paths"), None)]
     ["query_mode" := Described(VStr("off"), Some("Query enhancement mode"), Some(["off", "on", "hyde"]))]
     ["device" := Described(VStr("cuda"), Some("Compute device"), Some(["cpu", "cuda"]))]
  }

  /** The items a new configuration starts with: the workspace item's
      default is "workspace", the graph flag is off, the query mode "off",
      and the provider item keeps its choices. */
  lemma InitialItems()
    ensures var r := ModelItems(FlagItems(map[]));
      && Lookup(r, "workspace", VNone) == VStr("workspace")
      && Lookup(r, "enable_graph", VNone) == VBool(false)
      && Lookup(r, "query_mode", VNone) == VStr("off")
      && "provider" in r && r["provider"] == Described(VStr("siliconflow"), None, Some(ProviderChoices))
  {
    var f := FlagItems(map[]);
    assert "enable_graph" in {"enable_rerank", "enable_kb", "enable_graph", "enable_websearch"};
    assert Lookup(f, "enable_graph", VNone) == VBool(false);
  }

  class AgentConfig {
    /** The items, by key. */
    var items: map<string, Item>
    /** Plain attributes, apart from the items: workspace stays "saves"
        even though the "workspace" item's default is "workspace". */
    var workspace: string
    var configPath: Option<string>
    var modelPath: Option<string>
    var privatePath: Option<string>
    var models: map<string, Value>
    var embedModel: map<string, Value>
    var rankers: map<string, Value>

    /** The plain attributes as the constructor sets them: workspace "saves",
        each path kept when given and non-empty, and the three model maps
        empty. */
    ghost predicate InitialAttributes(configPath: Option<string>, modelPath: Option<string>, privatePath: Option<string>)
      reads this
    {
      && workspace == "saves"
      && this.configPath == (if configPath.Some? && configPath.value != "" then configPath else None)
      && this.modelPath == (if modelPath.Some? && modelPath.value != "" then modelPath else None)
      && this.privatePath == (if privatePath.Some? && privatePath.value != "" then privatePath else None)
      && models == map[] && embedModel == map[] && rankers == map[]
    }

    /** AgentConfig(config_path, model_path, private_path): the plain
        attributes, then the twelve items. The paths are taken as
        str(Path(p)) already gives them. */
    constructor (configPath: Option<string>, modelPath: Option<string>, privatePath: Option<string>)
      ensures InitialAttributes(configPath, modelPath, privatePath)
      ensures items == ModelItems(FlagItems(map[]))
    {
      workspace := "saves";
      this.configPath := if configPath.Some? && configPath.value != "" then configPath else None;
      this.modelPath := if modelPath.Some? && modelPath.value != "" then modelPath else None;
      this.privatePath := if privatePath.Some? && privatePath.value != "" then privatePath else None;
      models := map[];
      embedModel := map[];
      rankers := map[];
      items := map[];
      new;
      AddFlagItems();
      AddModelItems();
    }

    method AddFlagItems()
      modifies this
      ensures items == FlagItems(old(items))
      ensures workspace == old(workspace) && configPath == old(configPath)
      ensures modelPath == old(modelPath) && privatePath == old(privatePath)
      ensures models == old(models) && embedModel == old(embedModel) && rankers == old(rankers)
    {
      AddItem("workspace", VStr("workspace"), Some("Agent workspace directory"), None);
      AddItem("enable_rerank", VBool(false), Some("Whether to use embed reranker"), None);
      AddItem("enable_kb", VBool(false), Some("Whether to use knowledge base"), None);
      AddItem("enable_graph", VBool(false), Some("Whether to use graph"), None);
      AddItem("enable_websearch", VBool(false), Some("Whether to use web search"), None);
      AddItem("provider", VStr("siliconflow"), None, Some(ProviderChoices));
    }

    method AddModelItems()
      modifies this
      ensures items == ModelItems(old(items))
      ensures workspace == old(workspace) && configPath == old(configPath)
      ensures modelPath == old(modelPath) && privatePath == old(privatePath)
      ensures models == old(models) && embedModel == old(embedModel) && rankers == old(rankers)
    {
      AddItem("model", VStr("Qwen/Qwen2.5-7B-Instruct"), Some("Model name"), None);
      AddItem("embed_model", VStr("ollama/bge-m3"), Some("Embedding model"), None);
      AddItem("ranker", VStr("huggingface/bge-reranker-v2-m3"), Some("Ranking model"), None);
      AddItem("local_paths", VDict([]), Some("Local model paths"), None);
      AddItem("query_mode", VStr("off"), Some("Query enhancement mode"), Some(["off", "on", "hyde"]));
      AddItem("device", VStr("cuda"), Some("Compute device"), Some(["cpu", "cuda"]));
    }

    /** add_item(key, default, des, choices): the item is replaced outright. */
    method AddItem(key: string, default: Value, des: Option<string>, choices: Option<seq<string>>)
      modifies this
      ensures items == old(items)[key := Described(default, des, choices)]
      ensures workspace == old(workspace) && configPath == old(configPath)
      ensures modelPath == old(modelPath) && privatePath == old(privatePath)
      ensures models == old(models) && embedModel == old(embedModel) && rankers == old(rankers)
    {
      items := items[key := Described(default, des, choices)];
    }

    /** get(key, default) */
    function Get(key: string, default: Value): (v: Value)
      reads this
      ensures key in items ==> v == items[key].default
      ensures key !in items ==> v == default
    {
      Lookup(items, key, default)
    }

    /** set(key, value) */
    method Set(key: string, value: Value)
      modifies this
      ensures items == SetItems(old(items), key, value)
      ensures Get(key, VNone) == value
      ensures workspace == old(workspace) && configPath == old(configPath)
      ensures modelPath == old(modelPath) && privatePath == old(privatePath)
      ensures models == old(models) && embedModel == old(embedModel) && rankers == old(rankers)
    {
      if key in items {
        items := items[key := items[key].(default := value)];
      } else {
        items := items[key := DefaultOnly(value)];
      }
    }

    /** The mapping save writes to the configuration file. */
    function SavedMapping(): (r: map<string, Value>)
      reads this
      ensures r.Keys == items.Keys
      ensures forall k :: k in r ==> r[k] == Get(k, VNone)
    {
      Saved(items)
    }

    /** compare_custom_models(value), reading the stored models as
        get("custom_models", []). */
    method CompareCustomModels(value: ModelList) returns (r: Result<ModelList>)
      modifies value
      ensures var keys := StoredKeys(Get("custom_models", VList([])));
              keys.Failure? ==> r == Failure(keys.error) && value.models == old(value.models)
      ensures var keys := StoredKeys(Get("custom_models", VList([])));
              keys.Success? ==>
                && |value.models| == |old(value.models)|
                && (forall i :: 0 <= i < FirstUnhashable(old(value.models)) ==>
                      value.models[i] == Preserve(keys.value, old(value.models)[i]))
                && (forall i :: FirstUnhashable(old(value.models)) <= i < |value.models| ==>
                      value.models[i] == old(value.models)[i])
                && (if FirstUnhashable(old(value.models)) < |value.models| then r == Failure(TypeError("unhashable type"))
                    else r == Success(value))
    {
      var keys := StoredKeys(Get("custom_models", VList([])));
      if keys.Failure? {
        return Failure(keys.error);
      }
      r := RestoreKeys(keys.value, value);
    }
  }
}
