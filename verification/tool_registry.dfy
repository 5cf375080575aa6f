/** The name-to-tool dictionary `{tool.name: tool for tool in tools}` built
    from the tools the MCP client lists. */
module ToolRegistry {
  import opened Wrappers
  import opened Messages

  /** What invoking a tool yields: its return value, or the message of the
      exception it raised. */
  type Tool = Args -> Result<Json, string>

  datatype NamedTool = NamedTool(name: string, invoke: Tool)

  /** True when some tool in the list is called `name`. */
  ghost predicate Listed(tools: seq<NamedTool>, name: string) {
    exists i :: 0 <= i < |tools| && tools[i].name == name
  }

  /** The position of the tool each name resolves to. Entries are inserted
      in list order, so a later tool with the same name replaces an earlier one. */
  function NameIndex(tools: seq<NamedTool>): (m: map<string, nat>)
    ensures forall name :: name in m <==> Listed(tools, name)
    ensures forall name :: name in m ==>
              m[name] < |tools| && tools[m[name]].name == name
    ensures forall name, j :: name in m && m[name] < j < |tools| ==> tools[j].name != name
    decreases |tools|
  {
    if tools == [] then map[]
    else
      var last := |tools| - 1;
      var prior := NameIndex(tools[..last]);
      assert forall i :: 0 <= i < last ==> tools[..last][i] == tools[i];
      prior[tools[last].name := last]
  }

  /** The dictionary itself: each name maps to the last listed tool of that name. */
  function NamedTools(tools: seq<NamedTool>): (named: map<string, Tool>)
    ensures forall name :: name in named <==> Listed(tools, name)
    ensures forall name, a :: name in named ==>
              named[name](a) == tools[NameIndex(tools)[name]].invoke(a)
  {
    var index := NameIndex(tools);
    map name | name in index :: tools[index[name]].invoke
  }

}
