/**
 * The proxy's registry of children and its tool table, with each management handler as one step. A child is
 * identified by the order of its creation, as its pointer is in the original.
 */
module Registry {
  import opened Prelude
  import opened Namespace
  import opened ChildState
  import opened ToolTable

  datatype Config = Config(name: string, command: string, args: seq<string>, env: map<string, string>, cwd: string)

  type ChildId = nat

  datatype Record = Record(config: Config, status: Status, tools: seq<Tool>)

  /** pending: the crashed children whose onCrash callback has not run yet. */
  datatype State = State(children: map<string, ChildId>, kids: seq<Record>, table: Table, pending: set<ChildId>)

  /** What Child.Start, and the status check after it, came to. */
  datatype StartOutcome = StartFails(cancelled: bool) | Starts(tools: seq<Tool>) | StartsThenExits(tools: seq<Tool>)

  datatype Reply =
    | BadName(error: NameError)
    | AlreadyExists
    | FailedToStart
    | ExitedImmediately
    | Added(toolNames: seq<string>)
    | NotFound
    | Removed

  predicate IsError(r: Reply) {
    !r.Added? && !r.Removed?
  }

  // -- The handlers, as functions of the state --

  function AddServer(s: State, config: Config, outcome: StartOutcome): (State, Reply) {
    if !Valid(config.name) then (s, BadName(ValidateServerName(config.name).value))
    else if config.name in s.children then (s, AlreadyExists)
    else match outcome
      case StartFails(cancelled) =>
        (s.(kids := s.kids + [Record(config, if cancelled then Starting else Crashed, [])]), FailedToStart)
      case StartsThenExits(tools) =>
        (s.(kids := s.kids + [Record(config, Crashed, tools)], pending := s.pending + {|s.kids|}), ExitedImmediately)
      case Starts(tools) =>
        (s.(children := s.children[config.name := |s.kids|],
            kids := s.kids + [Record(config, Running, tools)],
            table := RegisterTools(s.table, config.name, tools)),
         Added(PrefixedNames(config.name, tools)))
  }

  function StopRecord(r: Record): Record {
    r.(status := if r.status != Crashed then Stopped else Crashed)
  }

  predicate WellFormed(s: State) {
    && (forall name :: name in s.children ==> s.children[name] < |s.kids|)
    && (forall c :: c in s.pending ==> c < |s.kids|)
  }

  function RemoveServer(s: State, name: string): (State, Reply)
    requires WellFormed(s)
  {
    if name !in s.children then (s, NotFound)
    else
      var c := s.children[name];
      (s.(children := s.children - {name},
          kids := s.kids[c := StopRecord(s.kids[c])],
          table := RemoveTools(s.table, PrefixedNames(name, s.kids[c].tools))),
       Removed)
  }

  function ReloadServer(s: State, name: string, outcome: StartOutcome): (State, Reply)
    requires WellFormed(s)
  {
    if name !in s.children then (s, NotFound)
    else AddServer(RemoveServer(s, name).0, s.kids[s.children[name]].config, outcome)
  }

  /** A running child dies; its monitor notes it and owes the proxy a callback. */
  function CrashChild(s: State, c: ChildId): Option<State> {
    if c < |s.kids| && s.kids[c].status == Running then
      Some(s.(kids := s.kids[c := s.kids[c].(status := Crashed)], pending := s.pending + {c}))
    else None
  }

  /** handleCrash, with the name its closure captured. */
  function HandleCrash(s: State, name: string, c: ChildId): State
    requires c < |s.kids|
  {
    if Lookup(s.children, name) == Some(c) then s.(table := RemoveTools(s.table, PrefixedNames(name, s.kids[c].tools))) else s
  }

  datatype ServerInfo = ServerInfo(command: string, args: seq<string>, status: Status, tools: seq<string>)

  function InfoOf(name: string, r: Record): ServerInfo {
    ServerInfo(r.config.command, r.config.args, r.status, if r.status == Running then PrefixedNames(name, r.tools) else [])
  }

  /** The entry tells the child's own status, command and arguments, and its tools by their prefixed names if it runs. */
  predicate Describes(info: ServerInfo, name: string, r: Record) {
    && info.status == r.status && info.command == r.config.command && info.args == r.config.args
    && (info.status != Running ==> info.tools == [])
    && (info.status == Running ==>
         && |info.tools| == |r.tools|
         && forall i :: 0 <= i < |r.tools| ==> info.tools[i] == PrefixTool(name, r.tools[i].name))
  }

  // -- The same handlers, updating the proxy in place --

  class Proxy {
    var children: map<string, ChildId>
    var kids: seq<Record>
    var table: Table
    var pending: set<ChildId>

    function View(): State
      reads this
    {
      State(children, kids, table, pending)
    }

    constructor ()
      ensures View() == State(map[], [], ManagementTools(), {})
    {
      children, kids, table, pending := map[], [], ManagementTools(), {};
    }

    method HandleAddServer(config: Config, outcome: StartOutcome) returns (r: Reply)
      modifies this
      ensures (View(), r) == AddServer(old(View()), config, outcome)
    {
      var name := config.name;
      var error := ValidateServerName(name);
      if error.Some? {
        return BadName(error.value);
      }
      if name in children {
        return AlreadyExists;
      }
      ghost var before := children;
      var child := |kids|;
      kids := kids + [Record(config, New, [])];
      children := children[name := child];
      // child.Start
      match outcome {
        case StartFails(cancelled) =>
          kids := kids[child := Record(config, if cancelled then Starting else Crashed, [])];
        case Starts(tools) =>
          kids := kids[child := Record(config, Running, tools)];
        case StartsThenExits(tools) =>
          kids := kids[child := Record(config, Crashed, tools)];
          pending := pending + {child};
      }
      ghost var record := kids[child];
      assert kids == old(kids) + [record];
      if outcome.StartFails? {
        children := children - {name};
        assert children == before;
        return FailedToStart;
      }
      if kids[child].status != Running {
        children := children - {name};
        assert children == before;
        return ExitedImmediately;
      }
      var tools, toolNames := outcome.tools, [];
      ghost var base := table;
      for i := 0 to |tools|
        modifies this`table
        invariant table == RegisterTools(base, name, tools[..i])
        invariant toolNames == PrefixedNames(name, tools[..i])
      {
        var nsName := PrefixTool(name, tools[i].name);
        toolNames := toolNames + [nsName];
        assert tools[..i + 1][..i] == tools[..i];
        table := table[nsName := EntryFor(name, tools[i])];
      }
      assert tools[..|tools|] == tools;
      r := Added(toolNames);
    }

    method RemoveToolsForChild(c: ChildId, name: string)
      requires c < |kids|
      modifies this`table
      ensures table == RemoveTools(old(table), PrefixedNames(name, kids[c].tools))
    {
      var tools, names := kids[c].tools, [];
      for i := 0 to |tools|
        invariant names == PrefixedNames(name, tools[..i])
      {
        names := names + [PrefixTool(name, tools[i].name)];
      }
      assert tools[..|tools|] == tools;
      if |names| > 0 {
        table := RemoveTools(table, names);
      } else {
        assert RemoveTools(table, names) == table;
      }
    }

    method HandleRemoveServer(name: string) returns (r: Reply)
      requires WellFormed(View())
      modifies this
      ensures (View(), r) == RemoveServer(old(View()), name)
    {
      if name !in children {
        return NotFound;
      }
      var child := children[name];
      children := children - {name};
      RemoveToolsForChild(child, name);
      kids := kids[child := StopRecord(kids[child])];
      r := Removed;
    }

    method HandleReloadServer(name: string, outcome: StartOutcome) returns (r: Reply)
      requires WellFormed(View())
      modifies this
      ensures (View(), r) == ReloadServer(old(View()), name, outcome)
    {
      if name !in children {
        return NotFound;
      }
      var config := kids[children[name]].config;
      r := HandleRemoveServer(name);
      if IsError(r) {
        return;
      }
      r := HandleAddServer(config, outcome);
    }

    /** The callback a crashed child owes; name is the one it was added under. */
    method HandleCrashOf(c: ChildId)
      requires c < |kids|
      modifies this
      ensures View() == HandleCrash(old(View()), old(kids[c].config.name), c).(pending := old(pending) - {c})
    {
      pending := pending - {c};
      var name := kids[c].config.name;
      if name in children && children[name] == c {
        RemoveToolsForChild(c, name);
      }
    }

    /** handleListServers; the entries come in no particular order. */
    method HandleListServers() returns (infos: map<string, ServerInfo>)
      requires WellFormed(View())
      ensures infos.Keys == children.Keys
      ensures forall name :: name in children ==> infos[name] == InfoOf(name, kids[children[name]])
      ensures forall name :: name in children ==> Describes(infos[name], name, kids[children[name]])
    {
      infos := map[];
      var todo := children.Keys;
      while todo != {}
        invariant todo <= children.Keys && infos.Keys == children.Keys - todo
        invariant forall name :: name in infos ==> infos[name] == InfoOf(name, kids[children[name]])
        decreases todo
      {
        var name :| name in todo;
        var r := kids[children[name]];
        var toolNames := [];
        if r.status == Running {
          for i := 0 to |r.tools|
            invariant toolNames == PrefixedNames(name, r.tools[..i])
          {
            toolNames := toolNames + [PrefixTool(name, r.tools[i].name)];
          }
          assert r.tools[..|r.tools|] == r.tools;
        }
        infos := infos[name := ServerInfo(r.config.command, r.config.args, r.status, toolNames)];
        todo := todo - {name};
      }
    }
  }
}
