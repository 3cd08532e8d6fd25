/** `app/tools/registry.py`: a registry that owns one mutable
    `dict[str, Tool]` and hands that same dict object to whoever asks. */
module Registry {

  import opened Options
  import opened Tools

  /** A Python `dict[str, Tool]` object. It is shared by reference: every
      holder sees every later assignment. */
  class ToolDict {
    var entries: map<string, Tool>

    /** `{}` */
    constructor ()
      ensures entries == map[]
    {
      entries := map[];
    }

    /** `d[key] = value` */
    method Set(key: string, value: Tool)
      modifies this
      ensures entries == old(entries)[key := value]
    {
      entries := entries[key := value];
    }

    /** `d.get(key)` */
    function Get(key: string): (r: Option<Tool>)
      reads this
      ensures r.Some? <==> key in entries
      ensures r.Some? ==> r.value == entries[key]
    {
      Options.Get(entries, key)
    }
  }

  class ToolRegistry {
    /** `self.tools`, assigned once in `__init__` and updated in place. */
    const tools: ToolDict

    /** `ToolRegistry()`: a registry with an empty, fresh dict. */
    constructor ()
      ensures fresh(tools) && tools.entries == map[]
    {
      tools := new ToolDict();
    }

    /** `register(tool)`: `self.tools[tool.name] = tool`; a tool registered
        under a name already present replaces the earlier one, and every
        other name keeps its entry. */
    method Register(tool: Tool)
      modifies tools
      ensures tools.entries == old(tools.entries)[tool.name := tool]
      ensures tool.name in tools.entries && tools.entries[tool.name] == tool
      ensures forall n :: n != tool.name ==>
        (n in tools.entries <==> n in old(tools.entries))
        && (n in tools.entries ==> tools.entries[n] == old(tools.entries)[n])
    {
      tools.Set(tool.name, tool);
    }

    /** `get_tool_map()`: the registry's own dict, not a copy. */
    method GetToolMap() returns (m: ToolDict)
      ensures m == tools
    {
      m := tools;
    }
  }

  /** The dict obtained from `get_tool_map()` before a registration sees
      that registration, because it is the registry's own dict. */
  method LiveToolMap(registry: ToolRegistry, tool: Tool) returns (m: ToolDict)
    modifies registry.tools
    ensures m == registry.tools
    ensures m.Get(tool.name) == Some(tool)
  {
    m := registry.GetToolMap();
    registry.Register(tool);
  }

  /** Registering two tools of the same name keeps only the second. */
  lemma RegisterLastWins(entries: map<string, Tool>, first: Tool, second: Tool)
    requires first.name == second.name
    ensures entries[first.name := first][second.name := second] == entries[second.name := second]
  {
  }
}
