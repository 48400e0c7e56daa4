/** The tool registry of an agent (stateful_agents/tools/tool_manager.py): an ordered list
    of tools in which registering a tool replaces the one of the same name. */
module ToolRegistry {
  import opened Seqs
  import opened Core
  import opened Tools

  function NamedAs(name: string): Tool -> bool
  {
    (t: Tool) => t.name == name
  }

  function NotNamedAs(name: string): Tool -> bool
  {
    (t: Tool) => t.name != name
  }

  /** No two tools share a name. */
  predicate UniqueNames(tools: seq<Tool>)
  {
    forall i, j :: 0 <= i < j < |tools| ==> tools[i].name != tools[j].name
  }

  /** The tool list after `register_tool(t)`: the first tool named like `t` is removed, if
      there is one, and `t` is appended. */
  function Registered(tools: seq<Tool>, t: Tool): (r: seq<Tool>)
    ensures |r| >= 1 && r[|r| - 1] == t
  {
    match FirstIndex(tools, NamedAs(t.name))
    case None => tools + [t]
    case Some(k) => RemoveAt(tools, k) + [t]
  }

  /** The tool `get_tool(name)` finds: the first one with that name. */
  function Lookup(tools: seq<Tool>, name: string): Option<Tool>
  {
    match FirstIndex(tools, NamedAs(name))
    case None => None
    case Some(k) => Some(tools[k])
  }

  /** In a registry with unique names, the only tool with a name is the one Lookup finds. */
  lemma LookupUnique(tools: seq<Tool>, k: nat)
    requires UniqueNames(tools) && k < |tools|
    ensures Lookup(tools, tools[k].name) == Some(tools[k])
  {
    var f := FirstIndex(tools, NamedAs(tools[k].name));
    assert NamedAs(tools[k].name)(tools[k]);
  }

  /** Registering keeps names unique, grows the list by one exactly when the name is new
      and puts `t` last. */
  lemma RegisterSpec(tools: seq<Tool>, t: Tool)
    requires UniqueNames(tools)
    ensures UniqueNames(Registered(tools, t))
    ensures |Registered(tools, t)| == |tools| + (if exists i :: 0 <= i < |tools| && tools[i].name == t.name then 0 else 1)
    ensures Registered(tools, t)[|Registered(tools, t)| - 1] == t
  {
    RegisterKeepsOthers(tools, t);
    var kept := Filter(tools, NotNamedAs(t.name));
    var idx := FilterEmbedding(tools, NotNamedAs(t.name));
    var r := Registered(tools, t);
    forall i, j | 0 <= i < j < |r| ensures r[i].name != r[j].name {
      if j == |r| - 1 {
        assert NotNamedAs(t.name)(kept[i]);
      } else {
        assert kept[i] == tools[idx[i]] && kept[j] == tools[idx[j]];
      }
    }
    match FirstIndex(tools, NamedAs(t.name))
    case None =>
    case Some(k) =>
      assert tools[k].name == t.name by { assert NamedAs(t.name)(tools[k]); }
  }

  /** Every other tool keeps its relative order, and the old tool of that name is gone: the
      new list is the old one without the tools named like `t`, followed by `t`. */
  lemma RegisterKeepsOthers(tools: seq<Tool>, t: Tool)
    requires UniqueNames(tools)
    ensures Registered(tools, t) == Filter(tools, NotNamedAs(t.name)) + [t]
  {
    match FirstIndex(tools, NamedAs(t.name))
    case None =>
      forall i | 0 <= i < |tools| ensures NotNamedAs(t.name)(tools[i]) {
        assert !NamedAs(t.name)(tools[i]);
      }
      FilterKeepsAll(tools, NotNamedAs(t.name));
    case Some(k) =>
      assert NamedAs(t.name)(tools[k]);
      FilterDropsOne(tools, k);
  }

  /** In a list with unique names, removing the tools named like `tools[k]` removes
      exactly position `k`. */
  lemma FilterDropsOne(tools: seq<Tool>, k: nat)
    requires UniqueNames(tools) && k < |tools|
    ensures Filter(tools, NotNamedAs(tools[k].name)) == RemoveAt(tools, k)
  {
    var keep := NotNamedAs(tools[k].name);
    forall i | 0 <= i < |tools| && i != k ensures keep(tools[i]) {
      if i < k {
        assert tools[i].name != tools[k].name;
      } else {
        assert tools[k].name != tools[i].name;
      }
    }
    FilterDropsOnly(tools, k, keep);
  }

  /** What `get_tool_schemas` returns: one schema per tool, in list order. */
  function Schemas(tools: seq<Tool>): (r: seq<Schema>)
    ensures |r| == |tools|
    ensures forall i :: 0 <= i < |tools| ==> r[i].name == tools[i].name && r[i].required == tools[i].requiredParams
  {
    seq(|tools|, i requires 0 <= i < |tools| => GetSchema(tools[i]))
  }

  /** The three built-in tools, each bound to the core memory `core`. */
  function CoreAddTool(core: CoreMemory): (t: Tool)
    ensures t.name == "core_memory_add" && t.handler == Some(CoreAdd(core))
    ensures t.requiredParams == ["key", "value"] && t.parameters.Keys == {"key", "value"}
  {
    Tool("core_memory_add", "Add or update a core memory block",
         map["key" := map["type" := "string", "description" := "Key for the memory block"],
             "value" := map["type" := "string", "description" := "Content to store in the memory block"]],
         Some(CoreAdd(core)), ["key", "value"])
  }

  function CoreGetTool(core: CoreMemory): (t: Tool)
    ensures t.name == "core_memory_get" && t.handler == Some(CoreGet(core))
    ensures t.requiredParams == ["key"] && t.parameters.Keys == {"key"}
  {
    Tool("core_memory_get", "Get a core memory block by key",
         map["key" := map["type" := "string", "description" := "Key for the memory block to retrieve"]],
         Some(CoreGet(core)), ["key"])
  }

  function CoreDeleteTool(core: CoreMemory): (t: Tool)
    ensures t.name == "core_memory_delete" && t.handler == Some(CoreDelete(core))
    ensures t.requiredParams == ["key"] && t.parameters.Keys == {"key"}
  {
    Tool("core_memory_delete", "Delete a core memory block",
         map["key" := map["type" := "string", "description" := "Key for the memory block to delete"]],
         Some(CoreDelete(core)), ["key"])
  }

  function WithMemoryTools(tools: seq<Tool>, core: CoreMemory): seq<Tool>
  {
    Registered(Registered(Registered(tools, CoreAddTool(core)), CoreGetTool(core)), CoreDeleteTool(core))
  }

  /** After `add_memory_tools(core)` on a registry with unique names, the three names find
      the three built-in tools bound to `core`, with their required parameters, and names
      stay unique. */
  lemma MemoryToolsFound(tools: seq<Tool>, core: CoreMemory)
    requires UniqueNames(tools)
    ensures UniqueNames(WithMemoryTools(tools, core))
    ensures Lookup(WithMemoryTools(tools, core), "core_memory_add") == Some(CoreAddTool(core))
    ensures Lookup(WithMemoryTools(tools, core), "core_memory_get") == Some(CoreGetTool(core))
    ensures Lookup(WithMemoryTools(tools, core), "core_memory_delete") == Some(CoreDeleteTool(core))
    ensures CoreAddTool(core).requiredParams == ["key", "value"]
    ensures CoreGetTool(core).requiredParams == ["key"] && CoreDeleteTool(core).requiredParams == ["key"]
  {
    var t1 := Registered(tools, CoreAddTool(core));
    RegisterSpec(tools, CoreAddTool(core));
    var t2 := Registered(t1, CoreGetTool(core));
    RegisterSpec(t1, CoreGetTool(core));
    var t3 := Registered(t2, CoreDeleteTool(core));
    RegisterSpec(t2, CoreDeleteTool(core));
    // Each registration keeps the earlier built-ins, whose names differ from the new one.
    var i1 := |t1| - 1;
    assert t1[i1] == CoreAddTool(core);
    KeptByRegister(t1, CoreGetTool(core), i1);
    var i2 := |t2| - 1;
    assert t2[i2] == CoreGetTool(core);
    var j1 :| 0 <= j1 < |t2| && t2[j1] == CoreAddTool(core);
    KeptByRegister(t2, CoreDeleteTool(core), j1);
    KeptByRegister(t2, CoreDeleteTool(core), i2);
    var a :| 0 <= a < |t3| && t3[a] == CoreAddTool(core);
    var g :| 0 <= g < |t3| && t3[g] == CoreGetTool(core);
    LookupUnique(t3, a);
    LookupUnique(t3, g);
    LookupUnique(t3, |t3| - 1);
  }

  /** A tool whose name differs from the registered one stays in the list. */
  lemma KeptByRegister(tools: seq<Tool>, t: Tool, k: nat)
    requires UniqueNames(tools) && k < |tools| && tools[k].name != t.name
    ensures exists j :: 0 <= j < |Registered(tools, t)| && Registered(tools, t)[j] == tools[k]
  {
    RegisterKeepsOthers(tools, t);
    var kept := Filter(tools, NotNamedAs(t.name));
    assert tools == tools[..k] + [tools[k]] + tools[k + 1..];
    FilterAppend(tools[..k] + [tools[k]], tools[k + 1..], NotNamedAs(t.name));
    FilterSnoc(tools[..k], tools[k], NotNamedAs(t.name));
    var j := |Filter(tools[..k], NotNamedAs(t.name))|;
    assert kept[j] == tools[k];
    assert Registered(tools, t)[j] == tools[k];
  }

  /** Calling `core_memory_add` with a key and no value fails on the missing `value`
      before the handler runs. */
  lemma AddWithoutValueRejected(core: CoreMemory, key: string)
    ensures Precheck(CoreAddTool(core), map["key" := key]) == Some(MissingParameter("value"))
  {
    var args := map["key" := key];
    var required := CoreAddTool(core).requiredParams;
    assert "value" != "key" by { assert "value"[0] != "key"[0]; }
    assert "value" !in args;
    assert required[1..] == ["value"];
    assert FirstMissing(["value"], args) == Some("value");
    assert FirstMissing(required, args) == Some("value");
  }

  class ToolManager {
    const agentId: string
    var tools: seq<Tool>

    constructor (agentId: string)
      ensures this.agentId == agentId && tools == []
    {
      this.agentId := agentId;
      tools := [];
    }

    method RegisterTool(t: Tool)
      modifies this
      ensures tools == Registered(old(tools), t)
      ensures UniqueNames(old(tools)) ==> UniqueNames(tools) && tools == Filter(old(tools), NotNamedAs(t.name)) + [t]
    {
      var i := 0;
      while i < |tools|
        invariant 0 <= i <= |tools| && tools == old(tools)
        invariant forall j :: 0 <= j < i ==> tools[j].name != t.name
      {
        if tools[i].name == t.name {
          assert FirstIndex(tools, NamedAs(t.name)) == Some(i) by {
            assert NamedAs(t.name)(tools[i]);
          }
          tools := tools[..i] + tools[i + 1..];
          break;
        }
        i := i + 1;
      }
      tools := tools + [t];
      if UniqueNames(old(tools)) {
        RegisterSpec(old(tools), t);
        RegisterKeepsOthers(old(tools), t);
      }
    }

    /** The first tool with that name, if any. */
    method GetTool(name: string) returns (r: Option<Tool>)
      ensures r.None? <==> forall i :: 0 <= i < |tools| ==> tools[i].name != name
      ensures r.Some? ==> r.value.name == name && r == Lookup(tools, name)
    {
      var i := 0;
      while i < |tools|
        invariant 0 <= i <= |tools|
        invariant forall j :: 0 <= j < i ==> tools[j].name != name
      {
        if tools[i].name == name {
          assert FirstIndex(tools, NamedAs(name)) == Some(i) by {
            assert NamedAs(name)(tools[i]);
          }
          return Some(tools[i]);
        }
        i := i + 1;
      }
      return None;
    }

    /** Runs the tool named `name` on `args`, or fails with NotFound. */
    method ExecuteTool(name: string, args: Args) returns (r: Result)
      modifies if Lookup(tools, name).Some? then Frame(Lookup(tools, name).value.handler) else {}
      ensures Lookup(tools, name).None? ==> r == Err(NotFound(name))
      ensures Lookup(tools, name).Some? && Precheck(Lookup(tools, name).value, args).Some? ==>
                r == Err(Precheck(Lookup(tools, name).value, args).value) &&
                unchanged(Frame(Lookup(tools, name).value.handler))
      ensures Lookup(tools, name).Some? && Precheck(Lookup(tools, name).value, args).None? ==>
                Ran(name, Lookup(tools, name).value.handler.value, args, r)
    {
      var t := GetTool(name);
      if t.None? {
        return Err(NotFound(name));
      }
      r := Execute(t.value, args);
    }

    function GetToolSchemas(): (r: seq<Schema>)
      reads this
      ensures |r| == |tools|
      ensures forall i :: 0 <= i < |tools| ==> r[i] == GetSchema(tools[i])
    {
      Schemas(tools)
    }

    /** Registers the three built-in core-memory tools bound to `core`. */
    method AddMemoryTools(core: CoreMemory)
      modifies this
      ensures tools == WithMemoryTools(old(tools), core)
      ensures UniqueNames(old(tools)) ==>
                && UniqueNames(tools)
                && Lookup(tools, "core_memory_add") == Some(CoreAddTool(core))
                && Lookup(tools, "core_memory_get") == Some(CoreGetTool(core))
                && Lookup(tools, "core_memory_delete") == Some(CoreDeleteTool(core))
    {
      RegisterTool(CoreAddTool(core));
      RegisterTool(CoreGetTool(core));
      RegisterTool(CoreDeleteTool(core));
      if UniqueNames(old(tools)) {
        MemoryToolsFound(old(tools), core);
      }
    }
  }
}
