/** The chatbot agent: its class attributes, its configuration schema, and
    the choice of tools for a run. The platform's tool table (get_all_tools)
    is a parameter: an ordered dict from tool name to tool. */
module ChatbotAgent {
  import opened Wrappers
  import opened ConfigValues
  import opened AgentRegistry
  import Py

  /** ChatbotConfiguration: system_prompt and model are configurable, tools
      is not and defaults to a new empty list. */
  const ChatbotSchema: seq<FieldDecl> := [
    FieldDecl("system_prompt", "str", true, Plain(VStr("You are a helpful assistant.")),
              Meta(false, true, Some("System prompt"), None, Some("Used to describe the role and behavior of the agent"))),
    FieldDecl("model", "str", true, Plain(VStr("ollama/llama3.1:8b")),
              Meta(false, true, Some("Agent model"),
                   Some(["ollama/llama3.1:8b", "ollama/llama3.1:13b", "ollama/llama3.1:70b"]),
                   Some("The driving model of the agent"))),
    FieldDecl("tools", "list", true, Factory(VList([])),
              Meta(false, false, Some("Tools"), None, Some("List of tools")))
  ]

  /** The ChatbotAgent class. */
  const Chatbot: AgentClass := AgentClass(
    "chatbot",
    "Basic chatbot that can answer questions. By default, it doesn't use any tools, but needed tools can be enabled in the configuration.",
    Some(["TAVILY_API_KEY", "ZHIPUAI_API_KEY"]), None, ChatbotSchema)

  /** [tool for tool in platform_tools.keys() if tool in tools] */
  function ToolNames(keys: seq<string>, requested: seq<Value>): (r: seq<string>)
    ensures |r| <= |keys|
    ensures forall n :: n in r <==> n in keys && VStr(n) in requested
  {
    if keys == [] then []
    else (if VStr(keys[0]) in requested then [keys[0]] else []) + ToolNames(keys[1..], requested)
  }

  /** _get_tools(tools): no tools for None, a non-list or an empty list;
      otherwise the platform's tools whose names are requested, in the
      platform's order. */
  function GetTools<T>(platform: seq<(string, T)>, tools: Value): (r: seq<T>)
    ensures !tools.VList? || tools.elems == [] ==> r == []
    ensures tools.VList? && tools.elems != [] ==> |r| == |ToolNames(Py.DictKeys(platform), tools.elems)|
    ensures forall i :: 0 <= i < |r| ==> FromPlatform(platform, tools.elems, r[i])
    ensures tools.VList? && tools.elems != [] ==>
              var names := ToolNames(Py.DictKeys(platform), tools.elems);
              forall i :: 0 <= i < |r| ==> Py.DictGet(platform, names[i]) == Some(r[i])
  {
    if !tools.VList? || tools.elems == [] then []
    else
      var names := ToolNames(Py.DictKeys(platform), tools.elems);
      var r := seq(|names|, i requires 0 <= i < |names| => Py.DictGet(platform, names[i]).value);
      ChosenFromPlatform(platform, tools.elems, names, r);
      r
  }

  /** A tool the platform holds under some requested name. */
  ghost predicate FromPlatform<T>(platform: seq<(string, T)>, requested: seq<Value>, tool: T) {
    exists name :: (name, tool) in platform && VStr(name) in requested
  }

  /** Each tool looked up under a requested platform name is the platform's
      tool for that name. */
  lemma ChosenFromPlatform<T>(platform: seq<(string, T)>, requested: seq<Value>, names: seq<string>, r: seq<T>)
    requires |r| == |names|
    requires forall i :: 0 <= i < |names| ==> VStr(names[i]) in requested
    requires forall i :: 0 <= i < |r| ==> Py.DictGet(platform, names[i]) == Some(r[i])
    ensures forall i :: 0 <= i < |r| ==> FromPlatform(platform, requested, r[i])
  {
    forall i | 0 <= i < |r|
      ensures FromPlatform(platform, requested, r[i])
    {
      var name := names[i];
      assert (name, r[i]) in platform && VStr(name) in requested;
    }
  }

  /** The positions of the platform names that are requested, in order. */
  function RequestedAt(keys: seq<string>, requested: seq<Value>): (idx: seq<nat>)
    ensures forall k :: 0 <= k < |idx| ==> idx[k] < |keys| && VStr(keys[idx[k]]) in requested
    ensures forall j :: 0 <= j < |keys| && VStr(keys[j]) in requested ==> j in idx
    ensures Py.StrictlyIncreasing(idx)
  {
    Py.Positions(keys, n => VStr(n) in requested)
  }

  function KeysAt(keys: seq<string>, idx: seq<nat>): (r: seq<string>)
    requires forall k :: 0 <= k < |idx| ==> idx[k] < |keys|
    ensures |r| == |idx| && forall k :: 0 <= k < |idx| ==> r[k] == keys[idx[k]]
  {
    seq(|idx|, k requires 0 <= k < |idx| => keys[idx[k]])
  }

  /** The chosen names are the platform's names at the requested positions:
      a subsequence of the platform's names in their order, leaving out
      exactly the names that are not requested. */
  lemma {:induction false} ToolNamesAt(keys: seq<string>, requested: seq<Value>)
    ensures ToolNames(keys, requested) == KeysAt(keys, RequestedAt(keys, requested))
    decreases |keys|
  {
    if keys != [] {
      var n := |keys|;
      var init := keys[..n - 1];
      var idx := RequestedAt(init, requested);
      ToolNamesAt(init, requested);
      ToolNamesSnoc(init, keys[n - 1], requested);
      assert init + [keys[n - 1]] == keys;
      KeysAtPrefix(keys, idx);
      if VStr(keys[n - 1]) in requested {
        KeysAtSnoc(keys, idx, n - 1);
      }
    }
  }

  lemma {:induction false} ToolNamesSnoc(keys: seq<string>, x: string, requested: seq<Value>)
    ensures ToolNames(keys + [x], requested)
            == ToolNames(keys, requested) + (if VStr(x) in requested then [x] else [])
    decreases |keys|
  {
    if keys == [] {
      assert ToolNames([x], requested) == (if VStr(x) in requested then [x] else []) + ToolNames([], requested);
    } else {
      assert (keys + [x])[1..] == keys[1..] + [x];
      ToolNamesSnoc(keys[1..], x, requested);
    }
  }

  lemma KeysAtPrefix(keys: seq<string>, idx: seq<nat>)
    requires keys != []
    requires forall k :: 0 <= k < |idx| ==> idx[k] < |keys| - 1
    ensures KeysAt(keys, idx) == KeysAt(keys[..|keys| - 1], idx)
  {
  }

  lemma KeysAtSnoc(keys: seq<string>, idx: seq<nat>, j: nat)
    requires forall k :: 0 <= k < |idx| ==> idx[k] < |keys|
    requires j < |keys|
    ensures KeysAt(keys, idx + [j]) == KeysAt(keys, idx) + [keys[j]]
  {
  }

  /** No element occurs twice. */
  predicate Distinct(s: seq<string>) {
    forall i, j :: 0 <= i < j < |s| ==> s[i] != s[j]
  }

  /** No name is listed twice when the platform's names are distinct, however
      often it is requested. */
  lemma ToolNamesDistinct(keys: seq<string>, requested: seq<Value>)
    requires Distinct(keys)
    ensures Distinct(ToolNames(keys, requested))
  {
    ToolNamesAt(keys, requested);
    var idx := RequestedAt(keys, requested);
    var r := ToolNames(keys, requested);
    forall i, j | 0 <= i < j < |r|
      ensures r[i] != r[j]
    {
      assert idx[i] < idx[j];
    }
  }

  /** The names chosen depend only on which names are requested: the order
      and the repetitions of the request do not matter. */
  lemma {:induction false} ToolNamesBySet(keys: seq<string>, a: seq<Value>, b: seq<Value>)
    requires forall n :: VStr(n) in a <==> VStr(n) in b
    ensures ToolNames(keys, a) == ToolNames(keys, b)
    decreases |keys|
  {
    if keys != [] {
      ToolNamesBySet(keys[1..], a, b);
    }
  }

  /** Requesting every platform name gives every platform name, in order. */
  lemma {:induction false} ToolNamesAll(keys: seq<string>, requested: seq<Value>)
    requires forall n :: n in keys ==> VStr(n) in requested
    ensures ToolNames(keys, requested) == keys
    decreases |keys|
  {
    if keys != [] {
      ToolNamesAll(keys[1..], requested);
      assert keys == [keys[0]] + keys[1..];
    }
  }
}
