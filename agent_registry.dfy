/** The agent registry's base classes: a Configuration is a keyword-only
    dataclass whose fields carry metadata; from_runnable_config builds an
    instance from the "configurable" section of a run configuration, to_dict
    lists the shown fields and the metadata of the configurable ones, and
    BaseAgent checks that its required environment variables are set.
    The environment is a parameter (the names present in os.environ). */
module AgentRegistry {
  import opened Wrappers
  import opened ConfigValues
  import Py

  // ---------------------------------------------------------------------------
  // Dataclass fields.
  // ---------------------------------------------------------------------------

  /** How a field gets its value when the constructor is not given one:
      field(default=v), field(default_factory=...) making v, a callable
      default, or none at all. */
  datatype Default =
    | Plain(value: Value)
    | Factory(made: Value)
    | CallableDefault(result: Value)
    | Required

  /** The field metadata that to_dict reads: the truth of "hide" and of
      "configurable", and "name", "options" and "description" when present. */
  datatype Meta = Meta(hide: bool, configurable: bool, name: Option<string>,
                       options: Option<seq<string>>, description: Option<string>)

  /** A dataclasses.Field: its name, its type's __name__, whether it is an
      __init__ parameter, its default and its metadata. */
  datatype FieldDecl = FieldDecl(name: string, typeName: string, init: bool, default: Default, meta: Meta)

  /** The value an instance holds in a field: data, or a callable that
      to_dict calls for its result. */
  datatype FieldVal = Data(v: Value) | Fn(result: Value)

  /** An instance: one slot per field, in field order; a field left without
      a value (no default and not an __init__ parameter) has no attribute. */
  type Instance = seq<Option<FieldVal>>

  /** The names __init__ accepts. */
  function InitNames(schema: seq<FieldDecl>): set<string> {
    set f | f in schema && f.init :: f.name
  }

  /** What a field holds when the constructor is not given it. */
  function DefaultValue(d: Default): Option<FieldVal> {
    match d
    case Plain(v) => Some(Data(v))
    case Factory(v) => Some(Data(v))
    case CallableDefault(r) => Some(Fn(r))
    case Required => None
  }

  /** The first keyword __init__ does not accept. */
  function FirstUnexpected(kw: Dict, names: set<string>): (r: Option<string>)
    ensures r.None? <==> forall k :: k in Py.DictKeys(kw) ==> k in names
    ensures r.Some? ==> r.value in Py.DictKeys(kw) && r.value !in names
  {
    if kw == [] then None
    else if kw[0].0 !in names then Some(kw[0].0)
    else FirstUnexpected(kw[1..], names)
  }

  /** The first __init__ parameter without a default that is not given. */
  function FirstUnmet(schema: seq<FieldDecl>, kw: Dict): (r: Option<string>)
    ensures r.None? <==> forall f :: f in schema && f.init && f.default.Required? ==> f.name in Py.DictKeys(kw)
    ensures r.Some? ==> r.value !in Py.DictKeys(kw)
    ensures r.Some? ==> exists i :: 0 <= i < |schema| && schema[i].name == r.value && Unmet(schema[i], kw)
                                    && forall j :: 0 <= j < i ==> !Unmet(schema[j], kw)
  {
    if schema == [] then None
    else if Unmet(schema[0], kw) then Some(schema[0].name)
    else
      var rest := FirstUnmet(schema[1..], kw);
      FirstUnmetShift(schema, kw, rest);
      rest
  }

  /** A first unmet field of the tail is a first unmet field of the whole
      when the head is met. */
  lemma FirstUnmetShift(schema: seq<FieldDecl>, kw: Dict, rest: Option<string>)
    requires schema != [] && !Unmet(schema[0], kw)
    requires rest.Some? ==> exists i :: 0 <= i < |schema[1..]| && schema[1..][i].name == rest.value && Unmet(schema[1..][i], kw)
                                        && forall j :: 0 <= j < i ==> !Unmet(schema[1..][j], kw)
    ensures rest.Some? ==> exists i :: 0 <= i < |schema| && schema[i].name == rest.value && Unmet(schema[i], kw)
                                       && forall j :: 0 <= j < i ==> !Unmet(schema[j], kw)
  {
    if rest.Some? {
      var i :| 0 <= i < |schema[1..]| && schema[1..][i].name == rest.value && Unmet(schema[1..][i], kw)
               && forall j :: 0 <= j < i ==> !Unmet(schema[1..][j], kw);
      assert schema[i + 1] == schema[1..][i];
      forall j | 0 <= j < i + 1 ensures !Unmet(schema[j], kw) {
        if j > 0 { assert schema[j] == schema[1..][j - 1]; }
      }
    }
  }

  /** An __init__ parameter without a default that the call does not give. */
  predicate Unmet(f: FieldDecl, kw: Dict) {
    f.init && f.default.Required? && f.name !in Py.DictKeys(kw)
  }

  /** The value of one field after cls(**kw). */
  function Slot(f: FieldDecl, kw: Dict): Option<FieldVal> {
    if f.init && f.name in Py.DictKeys(kw) then Some(Data(Field(kw, f.name))) else DefaultValue(f.default)
  }

  /** cls(**kw) for a keyword-only dataclass: an unexpected keyword, then a
      missing required one, raise TypeError; otherwise every __init__
      parameter that is given takes the given value and every other field
      its default. */
  function Instantiate(schema: seq<FieldDecl>, kw: Dict): (r: Result<Instance>)
    ensures r.Success? <==>
              (forall k :: k in Py.DictKeys(kw) ==> k in InitNames(schema))
              && (forall f :: f in schema && f.init && f.default.Required? ==> f.name in Py.DictKeys(kw))
    ensures r.Success? ==> |r.value| == |schema|
    ensures r.Success? ==> forall i :: 0 <= i < |schema| && schema[i].init && schema[i].name in Py.DictKeys(kw) ==>
              r.value[i] == Some(Data(Field(kw, schema[i].name)))
    ensures r.Success? ==> forall i :: 0 <= i < |schema| && !(schema[i].init && schema[i].name in Py.DictKeys(kw)) ==>
              r.value[i] == DefaultValue(schema[i].default)
    ensures r.Success? ==> forall i :: 0 <= i < |schema| && schema[i].init ==> r.value[i].Some?
  {
    var unexpected := FirstUnexpected(kw, InitNames(schema));
    var missing := FirstUnmet(schema, kw);
    if unexpected.Some? then
      Failure(TypeError("__init__() got an unexpected keyword argument '" + unexpected.value + "'"))
    else if missing.Some? then
      Failure(TypeError("__init__() missing required keyword-only argument: '" + missing.value + "'"))
    else
      var inst := seq(|schema|, i requires 0 <= i < |schema| => Slot(schema[i], kw));
      assert forall i :: 0 <= i < |schema| && schema[i].init ==> inst[i].Some? by {
        forall i | 0 <= i < |schema| && schema[i].init
          ensures inst[i].Some?
        {
          assert schema[i] in schema;
        }
      }
      Success(inst)
  }

  // ---------------------------------------------------------------------------
  // Configuration.from_runnable_config
  // ---------------------------------------------------------------------------

  /** Python truth of a value. */
  predicate Truthy(v: Value) {
    match v
    case VNone => false
    case VBool(b) => b
    case VStr(s) => s != ""
    case VList(xs) => xs != []
    case VDict(m) => m != []
  }

  /** type(v).__name__ */
  function TypeName(v: Value): string {
    match v
    case VNone => "NoneType"
    case VBool(_) => "bool"
    case VStr(_) => "str"
    case VList(_) => "list"
    case VDict(_) => "dict"
  }

  /** (config.get("configurable") or {}) if config else {} */
  function Configurable(config: Option<Dict>): (c: Value)
    ensures config.None? || config.value == [] ==> c == VDict([])
  {
    if config.None? || config.value == [] then VDict([])
    else
      var c := Field(config.value, "configurable");
      if Truthy(c) then c else VDict([])
  }

  /** {k: v for k, v in configurable.items() if k in names} */
  function Keep(m: Dict, names: set<string>): (r: Dict)
    ensures forall k :: k in Py.DictKeys(r) <==> k in Py.DictKeys(m) && k in names
  {
    if m == [] then []
    else
      var prev := Keep(m[..|m| - 1], names);
      var last := m[|m| - 1];
      assert Py.DictKeys(m) == Py.DictKeys(m[..|m| - 1]) + [last.0];
      Py.DictSetKeys(prev, last.0, last.1);
      if last.0 in names then Py.DictSet(prev, last.0, last.1) else prev
  }

  /** Configuration.from_runnable_config(config) */
  function FromRunnableConfig(schema: seq<FieldDecl>, config: Option<Dict>): (r: Result<Instance>)
    ensures config.None? || config.value == [] ==> r == Instantiate(schema, [])
    ensures r.Failure? && r.error.TypeError? ==>
              exists f :: f in schema && f.init && f.default.Required?
  {
    match Configurable(config)
    case VDict(m) =>
      var kw := Keep(m, InitNames(schema));
      var r := Instantiate(schema, kw);
      assert r.Failure? ==> exists f :: f in schema && f.init && f.default.Required? && f.name !in Py.DictKeys(kw);
      r
    case other => Failure(AttributeError("'" + TypeName(other) + "' object has no attribute 'items'"))
  }

  /** Keeping the accepted keys of a dict keeps their values. */
  lemma {:induction false} KeepGet(m: Dict, names: set<string>, k: string)
    requires Py.DistinctKeys(m)
    ensures Py.DictGet(Keep(m, names), k) == (if k in names then Py.DictGet(m, k) else None)
    decreases |m|
  {
    if m != [] {
      var init := m[..|m| - 1];
      var last := m[|m| - 1];
      Py.DistinctInit(m);
      KeepGet(init, names, k);
      assert m == init + [last];
      KeepGetStep(init, last, Keep(init, names), Keep(m, names), names, k);
    }
  }

  /** One step of KeepGet: the entry after `init` is kept, or not, by name. */
  lemma KeepGetStep(init: Dict, last: (string, Value), prev: Dict, r: Dict, names: set<string>, k: string)
    requires last.0 !in Py.DictKeys(init)
    requires Py.DictGet(prev, k) == (if k in names then Py.DictGet(init, k) else None)
    requires r == (if last.0 in names then Py.DictSet(prev, last.0, last.1) else prev)
    ensures Py.DictGet(r, k) == (if k in names then Py.DictGet(init + [last], k) else None)
  {
    if last.0 in names {
      Py.DictGetSet(prev, last.0, last.1, k);
    }
    DictGetAfter(init, last, k);
  }

  /** Looking a key up in a dict with one more key at the end. */
  lemma DictGetAfter(init: Dict, last: (string, Value), k: string)
    requires last.0 !in Py.DictKeys(init)
    ensures Py.DictGet(init + [last], k) == (if k == last.0 then Some(last.1) else Py.DictGet(init, k))
  {
    assert Py.DictSet(init, last.0, last.1) == init + [last];
    Py.DictGetSet(init, last.0, last.1, k);
  }

  /** Every __init__ field named in the configurable section takes the value
      given there; every other field, and every key that names no __init__
      field, leaves the instance at its defaults. */
  lemma FromRunnableConfigValues(schema: seq<FieldDecl>, config: Option<Dict>, m: Dict, i: nat)
    requires Configurable(config) == VDict(m) && Py.DistinctKeys(m)
    requires FromRunnableConfig(schema, config).Success?
    requires i < |schema|
    ensures FromRunnableConfig(schema, config).value[i] ==
              if schema[i].init && schema[i].name in Py.DictKeys(m) then Some(Data(Field(m, schema[i].name)))
              else DefaultValue(schema[i].default)
  {
    var names := InitNames(schema);
    var kw := Keep(m, names);
    if schema[i].init {
      assert schema[i].name in names by {
        assert schema[i] in schema;
      }
    }
    KeepGet(m, names, schema[i].name);
  }

  // ---------------------------------------------------------------------------
  // Configuration.to_dict
  // ---------------------------------------------------------------------------

  /** f.default as to_dict reports it: the plain value, the callable, or
      dataclasses.MISSING for a factory or no default. */
  datatype ItemDefault = DefaultIs(value: Value) | DefaultFn(result: Value) | Missing

  /** The metadata entry of a configurable field. */
  datatype ConfigurableItem = ConfigurableItem(typeName: string, name: string, options: seq<string>,
                                               default: ItemDefault, description: string)

  /** The dict to_dict returns: the shown fields, and under the key
      "configurable_items" (set last) the configurable ones. */
  datatype ConfigSchema = ConfigSchema(confs: seq<(string, Value)>, configurableItems: seq<(string, ConfigurableItem)>)

  /** A field to_dict shows. */
  predicate Shown(f: FieldDecl) {
    f.init && !f.meta.hide
  }

  /** A shown field's value: a callable is called. */
  function ShownValue(slot: Option<FieldVal>): Value {
    match slot
    case Some(Data(v)) => v
    case Some(Fn(r)) => r
    case None => VNone
  }

  function ItemDefaultOf(d: Default): ItemDefault {
    match d
    case Plain(v) => DefaultIs(v)
    case CallableDefault(r) => DefaultFn(r)
    case Factory(_) => Missing
    case Required => Missing
  }

  /** The configurable_items entry of a field: its name, options and
      description default to the field name, [] and "". */
  function ItemOf(f: FieldDecl): ConfigurableItem {
    ConfigurableItem(f.typeName, f.meta.name.GetOr(f.name), f.meta.options.GetOr([]),
                     ItemDefaultOf(f.default), f.meta.description.GetOr(""))
  }

  /** confs after the loop has seen the fields. */
  function Confs(fields: seq<FieldDecl>, inst: Instance): seq<(string, Value)>
    requires |fields| == |inst|
  {
    if fields == [] then []
    else
      var n := |fields| - 1;
      var prev := Confs(fields[..n], inst[..n]);
      if Shown(fields[n]) then Py.DictSet(prev, fields[n].name, ShownValue(inst[n])) else prev
  }

  /** configurable_items after the loop has seen the fields. */
  function Items(fields: seq<FieldDecl>): seq<(string, ConfigurableItem)> {
    if fields == [] then []
    else
      var n := |fields| - 1;
      var prev := Items(fields[..n]);
      if Shown(fields[n]) && fields[n].meta.configurable then Py.DictSet(prev, fields[n].name, ItemOf(fields[n])) else prev
  }

  /** cls.to_dict(), on the instance cls() builds. */
  function SchemaOf(schema: seq<FieldDecl>): Result<ConfigSchema> {
    var inst := Instantiate(schema, []);
    if inst.Failure? then Failure(inst.error)
    else Success(ConfigSchema(Confs(schema, inst.value), Items(schema)))
  }

  /** Configuration.to_dict: one pass over the fields, filling confs and
      configurable_items. */
  method ToDict(schema: seq<FieldDecl>) returns (r: Result<ConfigSchema>)
    ensures r == SchemaOf(schema)
  {
    var inst := Instantiate(schema, []);
    if inst.Failure? {
      return Failure(inst.error);
    }
    var confs: seq<(string, Value)> := [];
    var items: seq<(string, ConfigurableItem)> := [];
    for i := 0 to |schema|
      invariant confs == Confs(schema[..i], inst.value[..i])
      invariant items == Items(schema[..i])
    {
      assert schema[..i + 1][..i] == schema[..i];
      assert inst.value[..i + 1][..i] == inst.value[..i];
      var f := schema[i];
      if f.init && !f.meta.hide {
        var value := inst.value[i];
        if value.Some? && value.value.Fn? {
          confs := Py.DictSet(confs, f.name, value.value.result);
        } else {
          confs := Py.DictSet(confs, f.name, ShownValue(value));
        }
        if f.meta.configurable {
          items := Py.DictSet(items, f.name, ItemOf(f));
        }
      }
    }
    assert schema[..|schema|] == schema;
    assert inst.value[..|schema|] == inst.value;
    r := Success(ConfigSchema(confs, items));
  }

  /** to_dict shows exactly the __init__ fields that are not hidden, and
      describes exactly the shown fields that are configurable. */
  lemma SchemaKeys(fields: seq<FieldDecl>, inst: Instance, k: string)
    requires |fields| == |inst|
    ensures k in Py.DictKeys(Confs(fields, inst)) <==> exists f :: f in fields && Shown(f) && f.name == k
    ensures k in Py.DictKeys(Items(fields)) <==> exists f :: f in fields && Shown(f) && f.meta.configurable && f.name == k
  {
    ConfsKeys(fields, inst, k);
    ItemsKeys(fields, k);
  }

  /** The fields seen so far and the last one. */
  lemma FieldsSnoc(fields: seq<FieldDecl>)
    requires fields != []
    ensures forall f :: f in fields <==> f in fields[..|fields| - 1] || f == fields[|fields| - 1]
  {
    assert fields == fields[..|fields| - 1] + [fields[|fields| - 1]];
  }

  lemma {:induction false} ConfsKeys(fields: seq<FieldDecl>, inst: Instance, k: string)
    requires |fields| == |inst|
    ensures k in Py.DictKeys(Confs(fields, inst)) <==> exists f :: f in fields && Shown(f) && f.name == k
    decreases |fields|
  {
    if fields != [] {
      var n := |fields| - 1;
      ConfsKeys(fields[..n], inst[..n], k);
      Py.DictSetKeys(Confs(fields[..n], inst[..n]), fields[n].name, ShownValue(inst[n]));
      FieldsSnoc(fields);
    }
  }

  lemma {:induction false} ItemsKeys(fields: seq<FieldDecl>, k: string)
    ensures k in Py.DictKeys(Items(fields)) <==> exists f :: f in fields && Shown(f) && f.meta.configurable && f.name == k
    decreases |fields|
  {
    if fields != [] {
      var n := |fields| - 1;
      ItemsKeys(fields[..n], k);
      Py.DictSetKeys(Items(fields[..n]), fields[n].name, ItemOf(fields[n]));
      FieldsSnoc(fields);
    }
  }

  /** With distinct field names, each configurable shown field is described
      by its own metadata, with the defaults filled in. */
  lemma {:induction false} SchemaItem(fields: seq<FieldDecl>, i: nat)
    requires forall a, b :: 0 <= a < b < |fields| ==> fields[a].name != fields[b].name
    requires i < |fields| && Shown(fields[i]) && fields[i].meta.configurable
    ensures Py.DictGet(Items(fields), fields[i].name) == Some(ItemOf(fields[i]))
    decreases |fields|
  {
    var n := |fields| - 1;
    var prev := Items(fields[..n]);
    if i == n {
      Py.DictGetSet(prev, fields[n].name, ItemOf(fields[n]), fields[i].name);
    } else {
      SchemaItem(fields[..n], i);
      assert fields[..n][i] == fields[i];
      if Shown(fields[n]) && fields[n].meta.configurable {
        Py.DictGetSet(prev, fields[n].name, ItemOf(fields[n]), fields[i].name);
      }
    }
  }

  // ---------------------------------------------------------------------------
  // BaseAgent
  // ---------------------------------------------------------------------------

  /** An agent class: its name, description, required environment
      variables and tools when it declares them, and its config schema. */
  datatype AgentClass = AgentClass(name: string, description: string, requirements: Option<seq<string>>,
                                   allTools: Option<seq<string>>, configSchema: seq<FieldDecl>)

  /** The dict get_info returns. */
  datatype AgentInfo = AgentInfo(name: string, description: string, configSchema: ConfigSchema,
                                 requirements: seq<string>, allTools: seq<string>)

  /** The message check_requirements raises with. */
  function RequirementMessage(requirement: string): string {
    "No configuration " + requirement + " environment variables, please configure them in the src/.env file and restart the service"
  }

  /** get_info(): a class without requirements or tools reports []. */
  method GetInfo(cls: AgentClass) returns (r: Result<AgentInfo>)
    ensures SchemaOf(cls.configSchema).Failure? ==> r == Failure(SchemaOf(cls.configSchema).error)
    ensures SchemaOf(cls.configSchema).Success? ==>
              r == Success(AgentInfo(cls.name, cls.description, SchemaOf(cls.configSchema).value,
                                     cls.requirements.GetOr([]), cls.allTools.GetOr([])))
  {
    var schema := ToDict(cls.configSchema);
    if schema.Failure? {
      return Failure(schema.error);
    }
    r := Success(AgentInfo(cls.name, cls.description, schema.value,
                           cls.requirements.GetOr([]), cls.allTools.GetOr([])));
  }

  /** Every declared requirement is an environment variable that is set. */
  predicate RequirementsMet(requirements: Option<seq<string>>, env: set<string>) {
    requirements.None? || forall q :: q in requirements.value ==> q in env
  }

  /** check_requirements(): nothing to check without requirements; otherwise
      the first requirement missing from the environment raises ValueError. */
  method CheckRequirements(requirements: Option<seq<string>>, env: set<string>) returns (r: Result<()>)
    ensures r.Success? <==> RequirementsMet(requirements, env)
    ensures r.Failure? ==>
              requirements.Some? && exists i :: MissingAt(requirements.value, env, i)
                                                && r.error == ValueError(RequirementMessage(requirements.value[i]))
  {
    if requirements.None? || requirements.value == [] {
      return Success(());
    }
    var reqs := requirements.value;
    for i := 0 to |reqs|
      invariant forall j :: 0 <= j < i ==> reqs[j] in env
    {
      if reqs[i] !in env {
        assert MissingAt(reqs, env, i);
        assert reqs[i] in requirements.value;
        return Failure(ValueError(RequirementMessage(reqs[i])));
      }
    }
    r := Success(());
  }

  /** Requirement i is the first one the environment lacks. */
  predicate MissingAt(reqs: seq<string>, env: set<string>, i: int) {
    0 <= i < |reqs| && reqs[i] !in env && forall j :: 0 <= j < i ==> reqs[j] in env
  }
}
