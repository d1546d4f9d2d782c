/** The dict-backed agent configuration: a dict whose keys are normalised
    (None is stored as ""), whose attributes read and write its entries
    (a missing one reads as None), and which keeps beside the entries a
    store of item defaults and each item's metadata. */
module ConfigsAgent {
  import opened Wrappers
  import Py
  import opened ConfigValues

  /** BaseConfig.__key: None becomes "", any other key stays itself. */
  function Key(key: Option<string>): (r: string)
    ensures r == "" <==> key.None? || key == Some("")
    ensures key.Some? ==> r == key.value
  {
    if key.None? then "" else key.value
  }

  /** The names __dict__ leaves out. */
  const Blocklist: set<string> :=
    {"_config_items", "_config_store", "model_names", "model_provider_status", "embed_model_names", "reranker_names"}

  /** Attribute names starting with '_' are the object's own attributes,
      not entries. */
  predicate Internal(name: string) {
    |name| > 0 && name[0] == '_'
  }

  /** What reading an attribute gives: an entry's value, or one of the two
      internal stores themselves. */
  datatype Attr = Plain(value: Value) | ConfigStore | ConfigItems

  /** The entries after update(other): every pair, in order, through
      __setitem__. */
  function Updated(entries: map<string, Value>, other: seq<(Option<string>, Value)>): (r: map<string, Value>)
    ensures entries.Keys <= r.Keys
    ensures other != [] ==> Key(other[|other| - 1].0) in r && r[Key(other[|other| - 1].0)] == other[|other| - 1].1
  {
    if other == [] then entries
    else
      var n := |other| - 1;
      Updated(entries, other[..n])[Key(other[n].0) := other[n].1]
  }

  /** update adds exactly the normalised keys of `other`. */
  lemma {:induction false} UpdatedDomain(entries: map<string, Value>, other: seq<(Option<string>, Value)>)
    ensures forall k :: k in Updated(entries, other) <==> k in entries || exists i :: 0 <= i < |other| && Key(other[i].0) == k
    ensures forall k :: k in entries && (forall i :: 0 <= i < |other| ==> Key(other[i].0) != k) ==>
              Updated(entries, other)[k] == entries[k]
  {
    if other != [] {
      var n := |other| - 1;
      UpdatedDomain(entries, other[..n]);
      assert forall i :: 0 <= i < n ==> other[..n][i] == other[i];
      forall k | k in Updated(entries, other) ensures k in entries || exists i :: 0 <= i < |other| && Key(other[i].0) == k {
        if k != Key(other[n].0) && k !in entries {
          var i :| 0 <= i < n && Key(other[..n][i].0) == k;
          assert Key(other[i].0) == k;
        }
      }
    }
  }

  /** A key gets the value of the last pair that normalises to it: an
      earlier pair, or a None key beside "", is overwritten. */
  lemma {:induction false} UpdatedLastWins(entries: map<string, Value>, other: seq<(Option<string>, Value)>, i: nat)
    requires i < |other|
    requires forall j :: i < j < |other| ==> Key(other[j].0) != Key(other[i].0)
    ensures Key(other[i].0) in Updated(entries, other)
    ensures Updated(entries, other)[Key(other[i].0)] == other[i].1
  {
    var n := |other| - 1;
    if i < n {
      assert other[..n][i] == other[i];
      forall j | i < j < n ensures Key(other[..n][j].0) != Key(other[..n][i].0) {
        assert other[..n][j] == other[j];
      }
      UpdatedLastWins(entries, other[..n], i);
    }
  }

  /** `str(Path(p)) if p else None` */
  function PathValue(p: Option<string>): Value {
    if p.Some? && p.value != "" then VStr(p.value) else VNone
  }

  /** The attributes AgentConfig's constructor sets before its items, the
      three paths given as the values str(Path(p)) produces. */
  function AttributeEntries(configPath: Value, modelPath: Value, privatePath: Value): map<string, Value> {
    map["workspace" := VStr("saves"), "config_path" := configPath, "model_path" := modelPath,
        "private_path" := privatePath, "models" := VDict([]), "embed_model" := VDict([]),
        "rankers" := VDict([]), "provider" := VStr("siliconflow"), "model" := VStr("Qwen/Qwen2.5-7B-Instruct")]
  }

  /** The defaults of the six feature-flag items. */
  const FlagDefaults: map<string, Value> :=
    map["workspace" := VStr("workspace"), "enable_rerank" := VBool(false), "enable_kb" := VBool(false),
        "enable_graph" := VBool(true), "enable_websearch" := VBool(false), "provider" := VStr("siliconflow")]

  /** The defaults of the six model and query items. */
  const ModelDefaults: map<string, Value> :=
    map["model" := VStr("Qwen/Qwen2.5-7B-Instruct"), "embed_model" := VStr("ollama/bge-m3"),
        "ranker" := VStr("huggingface/bge-reranker-v2-m3"), "local_paths" := VDict([]),
        "query_mode" := VStr("off"), "device" := VStr("cuda")]

  /** The twelve items, each with its default, description and choices. */
  const ItemTable: map<Option<string>, Item> :=
    map[Some("workspace") := Described(VStr("workspace"), Some("Agent workspace directory"), None),
        Some("enable_rerank") := Described(VBool(false), Some("Whether to use embed reranker"), None),
        Some("enable_kb") := Described(VBool(false), Some("Whether to use knowledge base"), None),
        Some("enable_graph") := Described(VBool(true), Some("Whether to use graph"), None),
        Some("enable_websearch") := Described(VBool(false), Some("Whether to use web search"), None),
        Some("provider") := Described(VStr("siliconflow"), None, Some(["siliconflow", "openai", "anthropic", "google", "huggingface"])),
        Some("model") := Described(VStr("Qwen/Qwen2.5-7B-Instruct"), Some("Model name"), None),
        Some("embed_model") := Described(VStr("ollama/bge-m3"), Some("Embedding model"), None),
        Some("ranker") := Described(VStr("huggingface/bge-reranker-v2-m3"), Some("Ranking model"), None),
        Some("local_paths") := Described(VDict([]), Some("Local model paths"), None),
        Some("query_mode") := Described(VStr("off"), Some("Query enhancement mode"), Some(["off", "on", "hyde"])),
        Some("device") := Described(VStr("cuda"), Some("Compute device"), Some(["cpu", "cuda"]))]

  /** The store's defaults, one per item. */
  const ItemStore: map<Option<string>, Value> :=
    map[Some("workspace") := VStr("workspace"), Some("enable_rerank") := VBool(false),
        Some("enable_kb") := VBool(false), Some("enable_graph") := VBool(true),
        Some("enable_websearch") := VBool(false), Some("provider") := VStr("siliconflow"),
        Some("model") := VStr("Qwen/Qwen2.5-7B-Instruct"), Some("embed_model") := VStr("ollama/bge-m3"),
        Some("ranker") := VStr("huggingface/bge-reranker-v2-m3"), Some("local_paths") := VDict([]),
        Some("query_mode") := VStr("off"), Some("device") := VStr("cuda")]

  /** The store holds exactly the items' keys, each with that item's default. */
  lemma StoreMatchesItems()
    ensures ItemStore.Keys == ItemTable.Keys
    ensures forall k :: k in ItemTable ==> ItemStore[k] == ItemTable[k].default
  {
    forall k | k in ItemTable
      ensures ItemStore[k] == ItemTable[k].default
    {
      if k == Some("workspace") {
      } else if k == Some("enable_rerank") {
      } else if k == Some("enable_kb") {
      } else if k == Some("enable_graph") {
      } else if k == Some("enable_websearch") {
      } else if k == Some("provider") {
      } else if k == Some("model") {
      } else if k == Some("embed_model") {
      } else if k == Some("ranker") {
      } else if k == Some("local_paths") {
      } else if k == Some("query_mode") {
      } else {
        assert k == Some("device");
      }
    }
  }

  lemma AttributesChain(configPath: Value, modelPath: Value, privatePath: Value)
    ensures map[]["workspace" := VStr("saves")]["config_path" := configPath]["model_path" := modelPath]
              ["private_path" := privatePath]["models" := VDict([])]["embed_model" := VDict([])]
              ["rankers" := VDict([])]["provider" := VStr("siliconflow")]["model" := VStr("Qwen/Qwen2.5-7B-Instruct")]
            == AttributeEntries(configPath, modelPath, privatePath)
  {
  }

  lemma FlagChain(e: map<string, Value>)
    ensures e["workspace" := VStr("workspace")]["enable_rerank" := VBool(false)]["enable_kb" := VBool(false)]
              ["enable_graph" := VBool(true)]["enable_websearch" := VBool(false)]["provider" := VStr("siliconflow")]
            == e + FlagDefaults
  {
  }

  lemma ModelChain(e: map<string, Value>)
    ensures e["model" := VStr("Qwen/Qwen2.5-7B-Instruct")]["embed_model" := VStr("ollama/bge-m3")]
              ["ranker" := VStr("huggingface/bge-reranker-v2-m3")]["local_paths" := VDict([])]
              ["query_mode" := VStr("off")]["device" := VStr("cuda")]
            == e + ModelDefaults
  {
  }

  lemma StoreChain(st: map<Option<string>, Value>)
    ensures st[Some("workspace") := VStr("workspace")][Some("enable_rerank") := VBool(false)]
              [Some("enable_kb") := VBool(false)][Some("enable_graph") := VBool(true)]
              [Some("enable_websearch") := VBool(false)][Some("provider") := VStr("siliconflow")]
              [Some("model") := VStr("Qwen/Qwen2.5-7B-Instruct")][Some("embed_model") := VStr("ollama/bge-m3")]
              [Some("ranker") := VStr("huggingface/bge-reranker-v2-m3")][Some("local_paths") := VDict([])]
              [Some("query_mode") := VStr("off")][Some("device") := VStr("cuda")]
            == st + ItemStore
  {
  }

  lemma ItemsChain(it: map<Option<string>, Item>)
    ensures it[Some("workspace") := Described(VStr("workspace"), Some("Agent workspace directory"), None)]
              [Some("enable_rerank") := Described(VBool(false), Some("Whether to use embed reranker"), None)]
              [Some("enable_kb") := Described(VBool(false), Some("Whether to use knowledge base"), None)]
              [Some("enable_graph") := Described(VBool(true), Some("Whether to use graph"), None)]
              [Some("enable_websearch") := Described(VBool(false), Some("Whether to use web search"), None)]
              [Some("provider") := Described(VStr("siliconflow"), None, Some(["siliconflow", "openai", "anthropic", "google", "huggingface"]))]
              [Some("model") := Described(VStr("Qwen/Qwen2.5-7B-Instruct"), Some("Model name"), None)]
              [Some("embed_model") := Described(VStr("ollama/bge-m3"), Some("Embedding model"), None)]
              [Some("ranker") := Described(VStr("huggingface/bge-reranker-v2-m3"), Some("Ranking model"), None)]
              [Some("local_paths") := Described(VDict([]), Some("Local model paths"), None)]
              [Some("query_mode") := Described(VStr("off"), Some("Query enhancement mode"), Some(["off", "on", "hyde"]))]
              [Some("device") := Described(VStr("cuda"), Some("Compute device"), Some(["cpu", "cuda"]))]
            == it + ItemTable
  {
  }

  /** After construction an item's default overrides the attribute of the
      same name: workspace "saves" becomes "workspace". */
  lemma WorkspaceOverridden(configPath: Value, modelPath: Value, privatePath: Value)
    ensures (AttributeEntries(configPath, modelPath, privatePath) + FlagDefaults + ModelDefaults)["workspace"]
            == VStr("workspace")
  {
    assert "workspace" !in ModelDefaults;
  }

  /** embed_model {} becomes "ollama/bge-m3". */
  lemma EmbedModelOverridden(configPath: Value, modelPath: Value, privatePath: Value)
    ensures (AttributeEntries(configPath, modelPath, privatePath) + FlagDefaults + ModelDefaults)["embed_model"]
            == VStr("ollama/bge-m3")
  {
  }

  /** The paths, which no item names, keep the values the constructor gave. */
  lemma PathsKept(configPath: Value, modelPath: Value, privatePath: Value)
    ensures var e := AttributeEntries(configPath, modelPath, privatePath) + FlagDefaults + ModelDefaults;
            e["config_path"] == configPath && e["model_path"] == modelPath && e["private_path"] == privatePath
  {
    var e := AttributeEntries(configPath, modelPath, privatePath);
    NotItemKept(e, "config_path");
    NotItemKept(e, "model_path");
    NotItemKept(e, "private_path");
  }

  lemma NotItemKept(e: map<string, Value>, k: string)
    requires k in e && k !in FlagDefaults.Keys && k !in ModelDefaults.Keys
    ensures (e + FlagDefaults + ModelDefaults)[k] == e[k]
  {
  }

  lemma UnionEmpty<K, V>(m: map<K, V>)
    ensures map[] + m == m
  {
  }

  class AgentConfig {
    /** The dict's own entries. */
    var entries: map<string, Value>
    /** _config_store: each item's default, under the key as given. */
    var store: map<Option<string>, Value>
    /** _config_items: each item's default, description and choices. */
    var items: map<Option<string>, Item>

    /** AgentConfig(config_path, model_path, private_path): the attributes
        set first, then the twelve items, whose add_item overwrites the
        earlier attribute of the same name (workspace "saves" becomes
        "workspace", embed_model {} becomes "ollama/bge-m3"). The paths are
        taken as str(Path(p)) already gives them. */
    constructor (configPath: Option<string>, modelPath: Option<string>, privatePath: Option<string>)
      ensures entries == AttributeEntries(PathValue(configPath), PathValue(modelPath), PathValue(privatePath))
                         + FlagDefaults + ModelDefaults
      ensures store == ItemStore
      ensures items == ItemTable
    {
      entries := map[];
      store := map[];
      items := map[];
      new;
      SetAttributes(configPath, modelPath, privatePath);
      AttributesChain(PathValue(configPath), PathValue(modelPath), PathValue(privatePath));
      AddItems();
      UnionEmpty(ItemStore);
      UnionEmpty(ItemTable);
    }

    /** The attributes the constructor sets before its items. */
    method SetAttributes(configPath: Option<string>, modelPath: Option<string>, privatePath: Option<string>)
      modifies this
      ensures entries == old(entries)
                          ["workspace" := VStr("saves")]
                          ["config_path" := PathValue(configPath)]
                          ["model_path" := PathValue(modelPath)]
                          ["private_path" := PathValue(privatePath)]
                          ["models" := VDict([])]
                          ["embed_model" := VDict([])]
                          ["rankers" := VDict([])]
                          ["provider" := VStr("siliconflow")]
                          ["model" := VStr("Qwen/Qwen2.5-7B-Instruct")]
      ensures store == old(store) && items == old(items)
    {
      SetAttr("workspace", VStr("saves"));
      SetAttr("config_path", PathValue(configPath));
      SetAttr("model_path", PathValue(modelPath));
      SetAttr("private_path", PathValue(privatePath));
      SetAttr("models", VDict([]));
      SetAttr("embed_model", VDict([]));
      SetAttr("rankers", VDict([]));
      SetAttr("provider", VStr("siliconflow"));
      SetAttr("model", VStr("Qwen/Qwen2.5-7B-Instruct"));
    }

    /** The constructor's twelve items: the workspace and the feature
        flags first, then the models and the query settings. */
    method AddItems()
      modifies this
      ensures entries == old(entries) + FlagDefaults + ModelDefaults
      ensures store == old(store) + ItemStore
      ensures items == old(items) + ItemTable
    {
      ghost var e0, s0, i0 := entries, store, items;
      AddFlagItems();
      FlagChain(e0);
      AddModelItems();
      ModelChain(e0 + FlagDefaults);
      StoreChain(s0);
      ItemsChain(i0);
    }

    method AddFlagItems()
      modifies this
      ensures entries == old(entries)
                          ["workspace" := VStr("workspace")]
                          ["enable_rerank" := VBool(false)]
                          ["enable_kb" := VBool(false)]
                          ["enable_graph" := VBool(true)]
                          ["enable_websearch" := VBool(false)]
                          ["provider" := VStr("siliconflow")]
      ensures store == old(store)
                          [Some("workspace") := VStr("workspace")]
                          [Some("enable_rerank") := VBool(false)]
                          [Some("enable_kb") := VBool(false)]
                          [Some("enable_graph") := VBool(true)]
                          [Some("enable_websearch") := VBool(false)]
                          [Some("provider") := VStr("siliconflow")]
      ensures items == old(items)
                          [Some("workspace") := Described(VStr("workspace"), Some("Agent workspace directory"), None)]
                          [Some("enable_rerank") := Described(VBool(false), Some("Whether to use embed reranker"), None)]
                          [Some("enable_kb") := Described(VBool(false), Some("Whether to use knowledge base"), None)]
                          [Some("enable_graph") := Described(VBool(true), Some("Whether to use graph"), None)]
                          [Some("enable_websearch") := Described(VBool(false), Some("Whether to use web search"), None)]
                          [Some("provider") := Described(VStr("siliconflow"), None, Some(["siliconflow", "openai", "anthropic", "google", "huggingface"]))]
    {
      AddItem(Some("workspace"), VStr("workspace"), Some("Agent workspace directory"), None);
      AddItem(Some("enable_rerank"), VBool(false), Some("Whether to use embed reranker"), None);
      AddItem(Some("enable_kb"), VBool(false), Some("Whether to use knowledge base"), None);
      AddItem(Some("enable_graph"), VBool(true), Some("Whether to use graph"), None);
      AddItem(Some("enable_websearch"), VBool(false), Some("Whether to use web search"), None);
      AddItem(Some("provider"), VStr("siliconflow"), None, Some(["siliconflow", "openai", "anthropic", "google", "huggingface"]));
    }

    method AddModelItems()
      modifies this
      ensures entries == old(entries)
                          ["model" := VStr("Qwen/Qwen2.5-7B-Instruct")]
                          ["embed_model" := VStr("ollama/bge-m3")]
                          ["ranker" := VStr("huggingface/bge-reranker-v2-m3")]
                          ["local_paths" := VDict([])]
                          ["query_mode" := VStr("off")]
                          ["device" := VStr("cuda")]
      ensures store == old(store)
                          [Some("model") := VStr("Qwen/Qwen2.5-7B-Instruct")]
                          [Some("embed_model") := VStr("ollama/bge-m3")]
                          [Some("ranker") := VStr("huggingface/bge-reranker-v2-m3")]
                          [Some("local_paths") := VDict([])]
                          [Some("query_mode") := VStr("off")]
                          [Some("device") := VStr("cuda")]
      ensures items == old(items)
                          [Some("model") := Described(VStr("Qwen/Qwen2.5-7B-Instruct"), Some("Model name"), None)]
                          [Some("embed_model") := Described(VStr("ollama/bge-m3"), Some("Embedding model"), None)]
                          [Some("ranker") := Described(VStr("huggingface/bge-reranker-v2-m3"), Some("Ranking model"), None)]
                          [Some("local_paths") := Described(VDict([]), Some("Local model paths"), None)]
                          [Some("query_mode") := Described(VStr("off"), Some("Query enhancement mode"), Some(["off", "on", "hyde"]))]
                          [Some("device") := Described(VStr("cuda"), Some("Compute device"), Some(["cpu", "cuda"]))]
    {
      AddItem(Some("model"), VStr("Qwen/Qwen2.5-7B-Instruct"), Some("Model name"), None);
      AddItem(Some("embed_model"), VStr("ollama/bge-m3"), Some("Embedding model"), None);
      AddItem(Some("ranker"), VStr("huggingface/bge-reranker-v2-m3"), Some("Ranking model"), None);
      AddItem(Some("local_paths"), VDict([]), Some("Local model paths"), None);
      AddItem(Some("query_mode"), VStr("off"), Some("Query enhancement mode"), Some(["off", "on", "hyde"]));
      AddItem(Some("device"), VStr("cuda"), Some("Compute device"), Some(["cpu", "cuda"]));
    }

    /** self[key]: the entry under the normalised key, None when absent. */
    function GetItem(key: Option<string>): (v: Value)
      reads this
      ensures Key(key) in entries ==> v == entries[Key(key)]
      ensures Key(key) !in entries ==> v == VNone
    {
      Get(Some(Key(key)), VNone)
    }

    /** get(key, default): dict.get on the key as given, so a None key,
        which no entry can have, always gives the default. */
    function Get(key: Option<string>, default: Value): (v: Value)
      reads this
      ensures key.None? ==> v == default
      ensures key.Some? && key.value in entries ==> v == entries[key.value]
      ensures key.Some? && key.value !in entries ==> v == default
    {
      match key
      case None => default
      case Some(k) => if k in entries then entries[k] else default
    }

    /** getattr(self, name): an entry for a public name, None when there
        is none; the object's own attribute for a name starting with '_'. */
    function GetAttr(name: string): (r: Result<Attr>)
      reads this
      ensures !Internal(name) ==> r == Success(Plain(GetItem(Some(name))))
      ensures name == "_config_store" ==> r == Success(ConfigStore)
      ensures name == "_config_items" ==> r == Success(ConfigItems)
      ensures Internal(name) && name != "_config_store" && name != "_config_items" ==> r.Failure? && r.error.AttributeError?
    {
      if !Internal(name) then Success(Plain(GetItem(Some(name))))
      else if name == "_config_store" then Success(ConfigStore)
      else if name == "_config_items" then Success(ConfigItems)
      else Failure(AttributeError("'AgentConfig' object has no attribute '" + name + "'"))
    }

    /** self[key] = value */
    method SetItem(key: Option<string>, value: Value)
      modifies this
      ensures entries == old(entries)[Key(key) := value]
      ensures store == old(store) && items == old(items)
      ensures GetItem(key) == value
    {
      entries := entries[Key(key) := value];
    }

    /** setattr(self, name, value): a public name becomes an entry; a name
        starting with '_' is set on the object and leaves the entries as
        they are. */
    method SetAttr(name: string, value: Value)
      modifies this
      ensures !Internal(name) ==> entries == old(entries)[name := value]
      ensures Internal(name) ==> entries == old(entries)
      ensures store == old(store) && items == old(items)
    {
      if !Internal(name) {
        SetItem(Some(name), value);
      }
    }

    /** __dict__: the entries without the blocklisted keys. */
    function Exported(): (r: map<string, Value>)
      reads this
      ensures forall k :: k in r <==> k in entries && k !in Blocklist
      ensures forall k :: k in r ==> r[k] == entries[k]
    {
      map k | k in entries && k !in Blocklist :: entries[k]
    }

    /** update(other): every pair through __setitem__, in order. */
    method Update(other: seq<(Option<string>, Value)>)
      modifies this
      ensures entries == Updated(old(entries), other)
      ensures store == old(store) && items == old(items)
    {
      var i := 0;
      while i < |other|
        invariant 0 <= i <= |other|
        invariant entries == Updated(old(entries), other[..i])
        invariant store == old(store) && items == old(items)
      {
        assert other[..i + 1][..i] == other[..i];
        SetItem(other[i].0, other[i].1);
        i := i + 1;
      }
      assert other[..i] == other;
    }

    /** add_item(key, default, des, choices): the store and the metadata
        under the key as given, the entry under the normalised key; an
        existing item is overwritten. */
    method AddItem(key: Option<string>, default: Value, des: Option<string>, choices: Option<seq<string>>)
      modifies this
      ensures store == old(store)[key := default]
      ensures items == old(items)[key := Described(default, des, choices)]
      ensures entries == old(entries)[Key(key) := default]
    {
      store := store[key := default];
      items := items[key := Described(default, des, choices)];
      SetItem(key, default);
    }

    /** set(key, value): the entry, and the store's default, created when
        the key has none; the metadata is kept. */
    method Set(key: Option<string>, value: Value)
      modifies this
      ensures entries == old(entries)[Key(key) := value]
      ensures store == old(store)[key := value]
      ensures items == old(items)
      ensures GetItem(key) == value
      ensures key.Some? ==> Get(key, VNone) == value
    {
      SetItem(key, value);
      store := store[key := value];
    }

    /** compare_custom_models(value): the table of stored keys is built from
        get("custom_models", []) first, and an exception there leaves the
        list as it was; then the list is rewritten in place and returned. */
    method CompareCustomModels(value: ModelList) returns (r: Result<ModelList>)
      modifies value
      ensures var keys := StoredKeys(Get(Some("custom_models"), VList([])));
              keys.Failure? ==> r == Failure(keys.error) && value.models == old(value.models)
      ensures var keys := StoredKeys(Get(Some("custom_models"), VList([])));
              keys.Success? ==>
                && |value.models| == |old(value.models)|
                && (forall i :: 0 <= i < FirstUnhashable(old(value.models)) ==>
                      value.models[i] == Preserve(keys.value, old(value.models)[i]))
                && (forall i :: FirstUnhashable(old(value.models)) <= i < |value.models| ==>
                      value.models[i] == old(value.models)[i])
                && (if FirstUnhashable(old(value.models)) < |value.models| then r == Failure(TypeError("unhashable type"))
                    else r == Success(value))
    {
      var keys := StoredKeys(Get(Some("custom_models"), VList([])));
      if keys.Failure? {
        return Failure(keys.error);
      }
      r := RestoreKeys(keys.value, value);
    }
  }
}
