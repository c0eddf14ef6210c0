/** The tool table of the proxy's MCP server: management tools and the prefixed tools of the children. */
module ToolTable {
  import opened Prelude
  import opened Namespace
  import opened ChildState

  datatype Handler = HandleAdd | HandleRemove | HandleReload | HandleList

  /** What a call through a registered tool does: run a management handler, or forward to (server, tool). */
  datatype Binding = Management(handler: Handler) | Proxied(server: string, tool: string)

  datatype Entry = Entry(description: string, inputSchema: string, binding: Binding)

  type Table = map<string, Entry>

  const OBJECT_SCHEMA := "{\"type\":\"object\"}"

  const ADD := "add_server"
  const REMOVE := "remove_server"
  const RELOAD := "reload_server"
  const LIST := "list_servers"

  function ManagementTools(): Table {
    map[
      ADD := Entry("Add and start a child MCP server", OBJECT_SCHEMA, Management(HandleAdd)),
      REMOVE := Entry("Stop and remove a child MCP server", OBJECT_SCHEMA, Management(HandleRemove)),
      RELOAD := Entry("Restart a child MCP server with the same config", OBJECT_SCHEMA, Management(HandleReload)),
      LIST := Entry("List all registered child MCP servers", OBJECT_SCHEMA, Management(HandleList))]
  }

  function Lookup<V>(m: map<string, V>, name: string): Option<V> {
    if name in m then Some(m[name]) else None
  }

  /** The entry a child's tool is registered under; a missing schema becomes that of an object. */
  function EntryFor(server: string, tool: Tool): Entry {
    Entry(tool.description, if tool.inputSchema.None? then OBJECT_SCHEMA else tool.inputSchema.value, Proxied(server, tool.name))
  }

  /** The table after AddTool for each tool in turn; a repeated name replaces the earlier entry. */
  function RegisterTools(table: Table, server: string, tools: seq<Tool>): Table {
    if tools == [] then table
    else RegisterTools(table, server, tools[..|tools| - 1])[PrefixTool(server, Last(tools).name) := EntryFor(server, Last(tools))]
  }

  /** The entries a server with these tools contributes. */
  function Contribution(server: string, tools: seq<Tool>): Table {
    RegisterTools(map[], server, tools)
  }

  function PrefixedNames(server: string, tools: seq<Tool>): (names: seq<string>)
    ensures |names| == |tools|
  {
    seq(|tools|, i requires 0 <= i < |tools| => PrefixTool(server, tools[i].name))
  }

  function RemoveTools(table: Table, names: seq<string>): Table {
    map n | n in table && n !in names :: table[n]
  }

  /** Registering overrides by the contribution and leaves every other entry alone. */
  lemma {:induction false} RegisterLookup(table: Table, server: string, tools: seq<Tool>, name: string)
    ensures Lookup(RegisterTools(table, server, tools), name)
         == if name in Contribution(server, tools) then Some(Contribution(server, tools)[name]) else Lookup(table, name)
    decreases |tools|
  {
    if tools != [] {
      RegisterLookup(table, server, tools[..|tools| - 1], name);
    }
  }

  /** A server contributes exactly its prefixed names, each bound to the server and the tool it is split into. */
  lemma {:induction false} ContributionNames(server: string, tools: seq<Tool>, name: string)
    ensures name in Contribution(server, tools) <==> name in PrefixedNames(server, tools)
    ensures name in Contribution(server, tools) ==>
      var b := Contribution(server, tools)[name].binding;
      b.Proxied? && b.server == server && name == PrefixTool(server, b.tool)
    decreases |tools|
  {
    if tools != [] {
      var front := tools[..|tools| - 1];
      ContributionNames(server, front, name);
      assert PrefixedNames(server, tools) == PrefixedNames(server, front) + [PrefixTool(server, Last(tools).name)];
    }
  }

  /** The last tool reported under a name is the one registered, with its description and schema. */
  lemma {:induction false} LastToolWins(server: string, tools: seq<Tool>, i: nat)
    requires i < |tools| && forall j :: i < j < |tools| ==> tools[j].name != tools[i].name
    ensures PrefixTool(server, tools[i].name) in Contribution(server, tools)
    ensures var e := Contribution(server, tools)[PrefixTool(server, tools[i].name)];
      && e.description == tools[i].description
      && (tools[i].inputSchema.Some? ==> e.inputSchema == tools[i].inputSchema.value)
      && (tools[i].inputSchema.None? ==> e.inputSchema == "{\"type\":\"object\"}")
    decreases |tools|
  {
    if i < |tools| - 1 {
      LastToolWins(server, tools[..|tools| - 1], i);
      var k := |server| + |SEPARATOR|;
      assert PrefixTool(server, Last(tools).name)[k..] == Last(tools).name && PrefixTool(server, tools[i].name)[k..] == tools[i].name;
    }
  }

  /** The names a valid server contributes split into that server. */
  lemma ContributionServer(server: string, tools: seq<Tool>, name: string)
    requires Valid(server) && name in Contribution(server, tools)
    ensures SplitTool(name).ok && SplitTool(name).server == server
    ensures Contribution(server, tools)[name].binding == Proxied(server, SplitTool(name).tool)
  {
    ContributionNames(server, tools, name);
    var b := Contribution(server, tools)[name].binding;
    SplitPrefix(server, b.tool);
  }

  /** A name whose only underscore is followed by something else contains no separator. */
  lemma NoSeparator(name: string, u: nat)
    requires u + 1 < |name| && name[u + 1] != '_'
    requires forall i :: 0 <= i < |name| && name[i] == '_' ==> i == u
    ensures !SplitTool(name).ok
  {
    forall j: nat ensures !SeparatorAt(name, j) {}
  }

  lemma ManagementNames(name: string)
    requires name in ManagementTools()
    ensures name == ADD || name == REMOVE || name == RELOAD || name == LIST
  {
  }

  /** A table in which each of the four management tools, and no other name, runs a handler, and the right one. */
  ghost predicate Managed(table: Table) {
    && "add_server" in table && table["add_server"].binding == Management(HandleAdd)
    && "remove_server" in table && table["remove_server"].binding == Management(HandleRemove)
    && "reload_server" in table && table["reload_server"].binding == Management(HandleReload)
    && "list_servers" in table && table["list_servers"].binding == Management(HandleList)
    && forall name :: name in table && table[name].binding.Management? ==> name in {"add_server", "remove_server", "reload_server", "list_servers"}
  }

  /** The management tools are exactly these four. */
  lemma FourManagementTools()
    ensures ManagementTools().Keys == {"add_server", "remove_server", "reload_server", "list_servers"}
    ensures Managed(ManagementTools())
    ensures ManagementTools()["add_server"].description == "Add and start a child MCP server"
    ensures ManagementTools()["remove_server"].description == "Stop and remove a child MCP server"
    ensures ManagementTools()["reload_server"].description == "Restart a child MCP server with the same config"
    ensures ManagementTools()["list_servers"].description == "List all registered child MCP servers"
  {
    assert ADD != REMOVE && ADD != RELOAD && ADD != LIST && REMOVE != RELOAD && REMOVE != LIST && RELOAD != LIST;
  }

  lemma NotPrefixedIf(name: string, fixed: string, u: nat)
    requires name == fixed && u + 1 < |fixed| && fixed[u + 1] != '_'
    requires forall i :: 0 <= i < |fixed| && fixed[i] == '_' ==> i == u
    ensures !SplitTool(name).ok
  {
    NoSeparator(fixed, u);
  }

  /** No management tool is ever the name of a proxied tool. */
  lemma ManagementNotPrefixed(name: string)
    requires name in ManagementTools()
    ensures !SplitTool(name).ok
  {
    ManagementNames(name);
    if name == ADD {
      NotPrefixedIf(name, ADD, 3);
    } else if name == REMOVE {
      NotPrefixedIf(name, REMOVE, 6);
    } else if name == RELOAD {
      NotPrefixedIf(name, RELOAD, 6);
    } else {
      NotPrefixedIf(name, LIST, 4);
    }
  }

  /** The fixed entries are no proxied ones and can be confused with none. */
  ghost predicate Separate(fixed: Table) {
    forall name :: name in fixed ==> !SplitTool(name).ok && fixed[name].binding.Management?
  }

  lemma ManagementBinding(name: string)
    requires name in ManagementTools()
    ensures ManagementTools()[name].binding.Management?
  {
    ManagementNames(name);
  }

  lemma ManagementSeparate()
    ensures Separate(ManagementTools())
  {
    forall name | name in ManagementTools() ensures !SplitTool(name).ok && ManagementTools()[name].binding.Management? {
      ManagementNotPrefixed(name);
      ManagementBinding(name);
    }
  }
}
