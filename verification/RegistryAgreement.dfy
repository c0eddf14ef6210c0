/** Over every sequence of management calls, crashes and late crash callbacks the tool table follows the registry. */
module RegistryAgreement {
  import opened Prelude
  import opened Namespace
  import opened ChildState
  import opened ToolTable
  import opened Registry

  /** A child whose tools are to be found in the table. */
  predicate Live(s: State, c: ChildId)
    requires c < |s.kids|
  {
    s.kids[c].status == Running || (s.kids[c].status == Crashed && c in s.pending)
  }

  /**
   * The entry the table should hold for a name, found by splitting the name: a fixed entry for a management
   * tool, else the tool of the current child under the server part, if that child is live.
   */
  function Expected(fixed: Table, s: State, name: string): Option<Entry> {
    var sp := SplitTool(name);
    if name in fixed then Some(fixed[name])
    else if sp.ok && sp.server in s.children && s.children[sp.server] < |s.kids| && Live(s, s.children[sp.server]) then
      Lookup(Contribution(sp.server, s.kids[s.children[sp.server]].tools), name)
    else None
  }

  ghost predicate Agrees(fixed: Table, s: State) {
    forall name :: Lookup(s.table, name) == Expected(fixed, s, name)
  }

  predicate Consistent(s: State) {
    && WellFormed(s)
    && (forall name :: name in s.children ==> Valid(name) && s.kids[s.children[name]].config.name == name)
    && (forall name :: name in s.children ==> s.kids[s.children[name]].status == Running || s.kids[s.children[name]].status == Crashed)
    && (forall c :: c in s.pending ==> s.kids[c].status == Crashed)
    && (forall c :: 0 <= c < |s.kids| && s.kids[c].status == Running ==> Lookup(s.children, s.kids[c].config.name) == Some(c))
  }

  ghost predicate Inv(fixed: Table, s: State) {
    Separate(fixed) && Consistent(s) && Agrees(fixed, s)
  }

  datatype Action =
    | Add(config: Config, outcome: StartOutcome)
    | Remove(name: string)
    | Reload(name: string, outcome: StartOutcome)
    | Crash(child: ChildId)
    | Callback(child: ChildId)

  function Step(s: State, a: Action): Option<State> {
    if !WellFormed(s) then None else
    match a
    case Add(config, outcome) => Some(AddServer(s, config, outcome).0)
    case Remove(name) => Some(RemoveServer(s, name).0)
    case Reload(name, outcome) => Some(ReloadServer(s, name, outcome).0)
    case Crash(c) => CrashChild(s, c)
    case Callback(c) =>
      if c in s.pending then Some(HandleCrash(s, s.kids[c].config.name, c).(pending := s.pending - {c})) else None
  }

  // -- Each step keeps the agreement --

  /** Removing a live child's prefixed names empties exactly the entries of its server. */
  lemma RemoveLookup(table: Table, server: string, tools: seq<Tool>, name: string)
    ensures Lookup(RemoveTools(table, PrefixedNames(server, tools)), name)
         == if name in Contribution(server, tools) then None else Lookup(table, name)
  {
    ContributionNames(server, tools, name);
  }

  lemma StartedConsistent(s: State, config: Config, tools: seq<Tool>)
    requires Consistent(s)
    ensures Consistent(AddServer(s, config, Starts(tools)).0)
  {
    var s' := AddServer(s, config, Starts(tools)).0;
    if s' != s {
      forall name | name in s'.children && name != config.name ensures s'.children[name] == s.children[name] < |s.kids| {}
      forall c | 0 <= c < |s.kids| ensures s'.kids[c] == s.kids[c] {}
      forall c | 0 <= c < |s'.kids| && s'.kids[c].status == Running ensures Lookup(s'.children, s'.kids[c].config.name) == Some(c) {
        if c < |s.kids| {
          assert Lookup(s.children, s.kids[c].config.name) == Some(c);
        }
      }
    }
  }

  lemma UnstartedConsistent(s: State, config: Config, outcome: StartOutcome)
    requires Consistent(s) && !outcome.Starts?
    ensures Consistent(AddServer(s, config, outcome).0)
  {
  }

  /** A new child that is not registered changes no expected entry. */
  lemma UnusedChildExpected(fixed: Table, s: State, r: Record, pending: set<ChildId>, name: string)
    requires WellFormed(s) && (pending == s.pending || pending == s.pending + {|s.kids|})
    ensures Expected(fixed, s.(kids := s.kids + [r], pending := pending), name) == Expected(fixed, s, name)
  {
  }

  /** A new running child brings exactly its own contribution. */
  lemma NewChildExpected(fixed: Table, s: State, config: Config, tools: seq<Tool>, name: string)
    requires Separate(fixed) && Consistent(s) && Valid(config.name) && config.name !in s.children
    ensures Expected(fixed, AddServer(s, config, Starts(tools)).0, name)
         == if name in Contribution(config.name, tools) then Some(Contribution(config.name, tools)[name]) else Expected(fixed, s, name)
  {
    if name in Contribution(config.name, tools) {
      ContributionServer(config.name, tools, name);
    }
  }

  lemma AddKeepsInv(fixed: Table, s: State, config: Config, outcome: StartOutcome)
    requires Inv(fixed, s)
    ensures Inv(fixed, AddServer(s, config, outcome).0)
  {
    var s' := AddServer(s, config, outcome).0;
    if outcome.Starts? {
      StartedConsistent(s, config, outcome.tools);
    } else {
      UnstartedConsistent(s, config, outcome);
    }
    if s' != s {
      forall name ensures Lookup(s'.table, name) == Expected(fixed, s', name) {
        assert Lookup(s.table, name) == Expected(fixed, s, name);
        if outcome.Starts? {
          RegisterLookup(s.table, config.name, outcome.tools, name);
          NewChildExpected(fixed, s, config, outcome.tools, name);
        } else {
          UnusedChildExpected(fixed, s, Last(s'.kids), s'.pending, name);
        }
      }
    }
  }

  lemma RemoveConsistent(s: State, server: string)
    requires Consistent(s)
    ensures Consistent(RemoveServer(s, server).0)
  {
  }

  /** Without the child under a name, nothing it contributed is expected any more. */
  lemma RemovedExpected(fixed: Table, s: State, server: string, name: string)
    requires Separate(fixed) && Consistent(s) && server in s.children
    ensures var tools := s.kids[s.children[server]].tools;
      Expected(fixed, RemoveServer(s, server).0, name)
        == if name in Contribution(server, tools) then None else Expected(fixed, s, name)
  {
    var tools := s.kids[s.children[server]].tools;
    if name in Contribution(server, tools) {
      ContributionServer(server, tools, name);
    }
  }

  lemma RemoveKeepsInv(fixed: Table, s: State, server: string)
    requires Inv(fixed, s)
    ensures Inv(fixed, RemoveServer(s, server).0)
  {
    var s' := RemoveServer(s, server).0;
    if server in s.children {
      RemoveConsistent(s, server);
      forall name ensures Lookup(s'.table, name) == Expected(fixed, s', name) {
        assert Lookup(s.table, name) == Expected(fixed, s, name);
        RemoveLookup(s.table, server, s.kids[s.children[server]].tools, name);
        RemovedExpected(fixed, s, server, name);
      }
    }
  }

  lemma CrashKeepsInv(fixed: Table, s: State, c: ChildId)
    requires Inv(fixed, s) && CrashChild(s, c).Some?
    ensures Inv(fixed, CrashChild(s, c).value)
  {
    var s' := CrashChild(s, c).value;
    forall name ensures Lookup(s'.table, name) == Expected(fixed, s', name) {
      assert Lookup(s.table, name) == Expected(fixed, s, name);
    }
  }

  lemma CallbackKeepsInv(fixed: Table, s: State, c: ChildId)
    requires Inv(fixed, s) && Step(s, Callback(c)).Some?
    ensures Inv(fixed, Step(s, Callback(c)).value)
  {
    var s' := Step(s, Callback(c)).value;
    var server, tools := s.kids[c].config.name, s.kids[c].tools;
    forall name ensures Lookup(s'.table, name) == Expected(fixed, s', name) {
      assert Lookup(s.table, name) == Expected(fixed, s, name);
      if Lookup(s.children, server) == Some(c) {
        RemoveLookup(s.table, server, tools, name);
        if name in Contribution(server, tools) {
          ContributionServer(server, tools, name);
        }
      }
    }
  }

  lemma StepKeepsInv(fixed: Table, s: State, a: Action)
    requires Inv(fixed, s) && Step(s, a).Some?
    ensures Inv(fixed, Step(s, a).value)
  {
    match a
    case Add(config, outcome) => AddKeepsInv(fixed, s, config, outcome);
    case Remove(name) => RemoveKeepsInv(fixed, s, name);
    case Reload(name, outcome) =>
      if name in s.children {
        RemoveKeepsInv(fixed, s, name);
        AddKeepsInv(fixed, RemoveServer(s, name).0, s.kids[s.children[name]].config, outcome);
      }
    case Crash(c) => CrashKeepsInv(fixed, s, c);
    case Callback(c) => CallbackKeepsInv(fixed, s, c);
  }

  // -- Whole runs --

  ghost const INIT: State := State(map[], [], ManagementTools(), {})

  ghost predicate Reachable(s: State) {
    ReachableFrom(Step, INIT, s)
  }

  lemma InitInv(fixed: Table)
    requires Separate(fixed)
    ensures Inv(fixed, State(map[], [], fixed, {}))
  {
  }

  lemma RunKeepsInv(fixed: Table, s: State, labels: seq<Action>)
    requires Inv(fixed, s)
    ensures Run(Step, s, labels).Some? ==> Inv(fixed, Run(Step, s, labels).value)
  {
    forall t, a | Inv(fixed, t) && Step(t, a).Some? ensures Inv(fixed, Step(t, a).value) {
      StepKeepsInv(fixed, t, a);
    }
    InvariantAlongRun(Step, t => Inv(fixed, t), s, labels);
  }

  lemma ReachableInv(s: State)
    requires Reachable(s)
    ensures Inv(ManagementTools(), s)
  {
    ManagementSeparate();
    InitInv(ManagementTools());
    var labels: seq<Action> :| Run(Step, INIT, labels) == Some(s);
    RunKeepsInv(ManagementTools(), INIT, labels);
  }

  /**
   * After any sequence of management calls, crashes and arbitrarily late callbacks the table holds, under every
   * name, what splitting the name and asking the registry gives; in particular the four management tools.
   */
  lemma TableAgreesWithRegistry(s: State, name: string)
    requires Reachable(s)
    ensures WellFormed(s)
    ensures Lookup(s.table, name) == Expected(ManagementTools(), s, name)
    ensures name in s.children ==> s.kids[s.children[name]].config.name == name
  {
    ReachableInv(s);
  }

  /** The child a name is split into, or no name of that server at all. */
  predicate OfServer(name: string, server: string) {
    SplitTool(name).ok && SplitTool(name).server == server
  }

  /** Registering, removing and crashing one server leaves every entry of the others as it was. */
  lemma OtherServersUntouched(s: State, a: Action, server: string, name: string)
    requires Reachable(s) && Step(s, a).Some? && !OfServer(name, server)
    requires match a
      case Add(config, _) => config.name == server
      case Remove(n) => n == server
      case Reload(n, _) => n == server
      case Crash(c) => true
      case Callback(c) => c < |s.kids| && s.kids[c].config.name == server
    ensures Lookup(Step(s, a).value.table, name) == Lookup(s.table, name)
  {
    ReachableInv(s);
    match a
    case Add(config, outcome) => AddLeavesOthers(s, config, outcome, name);
    case Remove(n) => RemoveLeavesOthers(s, n, name);
    case Reload(n, outcome) =>
      if n in s.children {
        RemoveLeavesOthers(s, n, name);
        AddLeavesOthers(RemoveServer(s, n).0, s.kids[s.children[n]].config, outcome, name);
      }
    case Crash(_) =>
    case Callback(c) =>
      if Lookup(s.children, server) == Some(c) {
        LeavesOthers(s.table, server, s.kids[c].tools, name);
      }
  }

  lemma LeavesOthers(table: Table, server: string, tools: seq<Tool>, name: string)
    requires Valid(server) && !OfServer(name, server)
    ensures Lookup(RemoveTools(table, PrefixedNames(server, tools)), name) == Lookup(table, name)
    ensures Lookup(RegisterTools(table, server, tools), name) == Lookup(table, name)
  {
    RemoveLookup(table, server, tools, name);
    RegisterLookup(table, server, tools, name);
    if name in Contribution(server, tools) {
      ContributionServer(server, tools, name);
    }
  }

  lemma AddLeavesOthers(s: State, config: Config, outcome: StartOutcome, name: string)
    requires !OfServer(name, config.name)
    ensures Lookup(AddServer(s, config, outcome).0.table, name) == Lookup(s.table, name)
  {
    if Valid(config.name) && outcome.Starts? {
      LeavesOthers(s.table, config.name, outcome.tools, name);
    }
  }

  lemma RemoveLeavesOthers(s: State, server: string, name: string)
    requires Consistent(s) && !OfServer(name, server)
    ensures Lookup(RemoveServer(s, server).0.table, name) == Lookup(s.table, name)
  {
    if server in s.children {
      LeavesOthers(s.table, server, s.kids[s.children[server]].tools, name);
    }
  }

  /** The entries other than server's are the same, and so are the other servers' children. */
  ghost predicate SameElsewhere(s: State, s': State, server: string) {
    && s'.children - {server} == s.children - {server}
    && |s.kids| <= |s'.kids|
    && (forall c :: 0 <= c < |s.kids| && Lookup(s.children, server) != Some(c) ==> s'.kids[c] == s.kids[c])
    && (forall name :: !OfServer(name, server) ==> Lookup(s'.table, name) == Lookup(s.table, name))
  }

  lemma AddElsewhere(s: State, config: Config, outcome: StartOutcome)
    requires WellFormed(s)
    ensures SameElsewhere(s, AddServer(s, config, outcome).0, config.name)
  {
    forall name | !OfServer(name, config.name) ensures Lookup(AddServer(s, config, outcome).0.table, name) == Lookup(s.table, name) {
      AddLeavesOthers(s, config, outcome, name);
    }
  }

  lemma RemoveElsewhere(s: State, server: string)
    requires Consistent(s)
    ensures SameElsewhere(s, RemoveServer(s, server).0, server)
  {
    forall name | !OfServer(name, server) ensures Lookup(RemoveServer(s, server).0.table, name) == Lookup(s.table, name) {
      RemoveLeavesOthers(s, server, name);
    }
  }

  /**
   * Reloading: an unknown name changes nothing; otherwise the old child is stopped, a successful start puts a
   * fresh child with the old configuration under the name, a failed one removes the name with all its tools,
   * and nothing else changes.
   */
  lemma ReloadRefinesReplace(s: State, server: string, outcome: StartOutcome)
    requires Reachable(s) && WellFormed(s)
    ensures server !in s.children ==> ReloadServer(s, server, outcome) == (s, NotFound)
    ensures server in s.children ==>
      var (s', r) := ReloadServer(s, server, outcome);
      && SameElsewhere(s, s', server)
      && s'.kids[s.children[server]].status in {Stopped, Crashed}
      && (outcome.Starts? <==> r.Added?)
      && (outcome.Starts? ==>
          && s'.children == s.children[server := |s.kids|]
          && s'.kids[|s.kids|] == Record(s.kids[s.children[server]].config, Running, outcome.tools))
      && (!outcome.Starts? ==>
          && s'.children == s.children - {server}
          && forall name :: OfServer(name, server) ==> Lookup(s'.table, name).None?)
  {
    ReachableInv(s);
    if server in s.children {
      var mid := RemoveServer(s, server).0;
      var config := s.kids[s.children[server]].config;
      RemoveKeepsInv(ManagementTools(), s, server);
      RemoveElsewhere(s, server);
      AddElsewhere(mid, config, outcome);
      AddKeepsInv(ManagementTools(), mid, config, outcome);
      ReplaceExactly(s, server, outcome);
    }
  }

  lemma ReplaceExactly(s: State, server: string, outcome: StartOutcome)
    requires Consistent(s) && server in s.children
    ensures var (s', r) := ReloadServer(s, server, outcome);
      && s'.kids[s.children[server]].status in {Stopped, Crashed}
      && (outcome.Starts? <==> r.Added?)
      && (outcome.Starts? ==>
          && s'.children == s.children[server := |s.kids|]
          && s'.kids[|s.kids|] == Record(s.kids[s.children[server]].config, Running, outcome.tools))
      && (!outcome.Starts? ==> s'.children == s.children - {server})
  {
    assert (s.children - {server})[server := |s.kids|] == s.children[server := |s.kids|];
  }

  /** A callback that makes its check after its child was replaced by a reload leaves the replacement's tools alone. */
  lemma LateCallbackAfterReload(s: State, server: string, outcome: StartOutcome)
    requires Reachable(s) && WellFormed(s) && server in s.children && s.children[server] in s.pending
    ensures var s' := ReloadServer(s, server, outcome).0;
      && Step(s', Callback(s.children[server])).Some?
      && Step(s', Callback(s.children[server])).value == s'.(pending := s'.pending - {s.children[server]})
  {
    ReachableInv(s);
    RemoveKeepsInv(ManagementTools(), s, server);
    AddKeepsInv(ManagementTools(), RemoveServer(s, server).0, s.kids[s.children[server]].config, outcome);
  }

  // -- What the handlers answer --

  /** The names an add answers with: one per tool, in order, each of which splits into server and tool and is registered. */
  predicate Names(s: State, server: string, tools: seq<Tool>, toolNames: seq<string>) {
    && |toolNames| == |tools|
    && forall i :: 0 <= i < |tools| ==> SplitTool(toolNames[i]) == Split(server, tools[i].name, true) && toolNames[i] in s.table
  }

  /** An add succeeds exactly for a valid, free name and a child that starts and keeps running; else it says why. */
  lemma AddAnswers(s: State, config: Config, outcome: StartOutcome)
    requires Reachable(s)
    ensures var (s', r) := AddServer(s, config, outcome);
      && (r.Added? <==> Valid(config.name) && config.name !in s.children && outcome.Starts?)
      && (r.BadName? <==> !Valid(config.name)) && (r.BadName? ==> Some(r.error) == ValidateServerName(config.name))
      && (r.AlreadyExists? <==> Valid(config.name) && config.name in s.children)
      && (r.FailedToStart? <==> Valid(config.name) && config.name !in s.children && outcome.StartFails?)
      && (r.ExitedImmediately? <==> Valid(config.name) && config.name !in s.children && outcome.StartsThenExits?)
      && (IsError(r) ==> s'.children == s.children && s'.table == s.table)
      && (r.Added? ==>
           && Names(s', config.name, outcome.tools, r.toolNames)
           && Lookup(s'.children, config.name) == Some(|s.kids|) && |s'.kids| == |s.kids| + 1
           && s'.kids[|s.kids|] == Record(config, Running, outcome.tools))
  {
    var (s', r) := AddServer(s, config, outcome);
    if r.Added? {
      forall i | 0 <= i < |outcome.tools|
        ensures SplitTool(r.toolNames[i]) == Split(config.name, outcome.tools[i].name, true) && r.toolNames[i] in s'.table
      {
        SplitPrefix(config.name, outcome.tools[i].name);
        ContributionNames(config.name, outcome.tools, r.toolNames[i]);
        RegisterLookup(s.table, config.name, outcome.tools, r.toolNames[i]);
        assert Lookup(s'.table, r.toolNames[i]).Some?;
      }
    }
  }

  /** A child created in vain is kept as what it came to: crashed, or left starting by a cancelled Start. */
  lemma VainAddLeavesRecord(s: State, config: Config, outcome: StartOutcome)
    requires Reachable(s) && Valid(config.name) && config.name !in s.children && !outcome.Starts?
    ensures var s' := AddServer(s, config, outcome).0;
      && |s'.kids| == |s.kids| + 1 && s'.kids[..|s.kids|] == s.kids
      && var r := s'.kids[|s.kids|];
         && r.config == config && r.tools == (if outcome.StartsThenExits? then outcome.tools else [])
         && r.status == (if outcome == StartFails(true) then Starting else Crashed)
         && (|s.kids| in s'.pending <==> outcome.StartsThenExits?)
  {
    ReachableInv(s);
  }

  /** Removing or reloading a name nobody is registered under is an error and changes nothing. */
  lemma UnknownNameAnswers(s: State, name: string, outcome: StartOutcome)
    requires Reachable(s) && WellFormed(s)
    ensures RemoveServer(s, name).1.NotFound? <==> name !in s.children
    ensures RemoveServer(s, name).1.Removed? <==> name in s.children
    ensures ReloadServer(s, name, outcome).1.NotFound? <==> name !in s.children
    ensures name !in s.children ==> RemoveServer(s, name).0 == s && ReloadServer(s, name, outcome).0 == s
  {
  }

  /** A removal takes the tools of the name, and no other, out of the table. */
  lemma RemoveEmpties(s: State, name: string)
    requires Reachable(s) && WellFormed(s) && name in s.children
    ensures var s' := RemoveServer(s, name).0;
      && (forall n :: SplitTool(n).ok && SplitTool(n).server == name ==> n !in s'.table)
      && (forall n :: !(SplitTool(n).ok && SplitTool(n).server == name) ==> Lookup(s'.table, n) == Lookup(s.table, n))
  {
    ReachableInv(s);
    RemoveKeepsInv(ManagementTools(), s, name);
    var s' := RemoveServer(s, name).0;
    forall n | SplitTool(n).ok && SplitTool(n).server == name ensures n !in s'.table {
      assert Lookup(s'.table, n) == Expected(ManagementTools(), s', n);
      if n in ManagementTools() {
        ManagementNotPrefixed(n);
      }
    }
    forall n | !(SplitTool(n).ok && SplitTool(n).server == name) ensures Lookup(s'.table, n) == Lookup(s.table, n) {
      if n in PrefixedNames(name, s.kids[s.children[name]].tools) {
        var i :| 0 <= i < |s.kids[s.children[name]].tools| && n == PrefixTool(name, s.kids[s.children[name]].tools[i].name);
        SplitPrefix(name, s.kids[s.children[name]].tools[i].name);
      }
    }
  }

  /** It takes the name out of the registry and stops the child, unless that has crashed, and touches no other. */
  lemma RemoveAnswers(s: State, name: string)
    requires WellFormed(s) && name in s.children
    ensures var s', c := RemoveServer(s, name).0, s.children[name];
      && name !in s'.children && (forall other :: other != name ==> Lookup(s'.children, other) == Lookup(s.children, other))
      && |s'.kids| == |s.kids| && (forall k :: 0 <= k < |s.kids| && k != c ==> s'.kids[k] == s.kids[k])
      && s'.kids[c].config == s.kids[c].config && s'.kids[c].tools == s.kids[c].tools
      && s'.kids[c].status == (if s.kids[c].status == Crashed then Crashed else Stopped)
  {
  }

  /** In every reachable state the four management tools are registered, run their handlers, and are the only such. */
  lemma ManagementStays(s: State)
    requires Reachable(s)
    ensures Managed(s.table)
  {
    FourManagementTools();
    ManagementStaysAt(s, "add_server");
    ManagementStaysAt(s, "remove_server");
    ManagementStaysAt(s, "reload_server");
    ManagementStaysAt(s, "list_servers");
    forall name | name in s.table && name !in ManagementTools() ensures s.table[name].binding.Proxied? {
      OthersAreProxied(s, name);
    }
  }

  lemma ManagementStaysAt(s: State, name: string)
    requires Reachable(s) && name in ManagementTools()
    ensures Lookup(s.table, name) == Some(ManagementTools()[name])
  {
    ReachableInv(s);
    assert Lookup(s.table, name) == Expected(ManagementTools(), s, name);
  }

  lemma OthersAreProxied(s: State, name: string)
    requires Reachable(s) && name in s.table && name !in ManagementTools()
    ensures s.table[name].binding.Proxied?
  {
    ReachableInv(s);
    assert Lookup(s.table, name) == Expected(ManagementTools(), s, name);
    var server := SplitTool(name).server;
    ContributionNames(server, s.kids[s.children[server]].tools, name);
  }

  /** Nobody is registered under the empty name, and no tool is bound to it. */
  lemma NoEmptyServer(s: State)
    requires Reachable(s)
    ensures "" !in s.children
    ensures forall name :: name in s.table && s.table[name].binding.Proxied? ==> s.table[name].binding.server != ""
  {
    ReachableInv(s);
    EmptyNameRefused();
    FourManagementTools();
    forall name | name in s.table && s.table[name].binding.Proxied? ensures s.table[name].binding.server != "" {
      assert Lookup(s.table, name) == Expected(ManagementTools(), s, name);
      if name in ManagementTools() {
        ManagementBinding(name);
      } else {
        var server := SplitTool(name).server;
        ContributionNames(server, s.kids[s.children[server]].tools, name);
      }
    }
  }

  // -- Listing --

  /** A registered child that crashes is listed as crashed from then on, without tools, its callback run or not. */
  lemma CrashIsListed(s: State, server: string)
    requires Reachable(s) && WellFormed(s) && server in s.children && s.kids[s.children[server]].status == Running
    ensures Step(s, Crash(s.children[server])).Some?
    ensures var s', c := Step(s, Crash(s.children[server])).value, s.children[server];
      && Lookup(s'.children, server) == Some(c) && c in s'.pending
      && InfoOf(server, s'.kids[c]).status == Crashed && InfoOf(server, s'.kids[c]).tools == []
      && Step(s', Callback(c)).Some? && InfoOf(server, Step(s', Callback(c)).value.kids[c]).status == Crashed
  {
  }

  /** The tools list_servers shows. */
  ghost predicate Listed(s: State, name: string)
    requires WellFormed(s)
  {
    exists server :: server in s.children && name in InfoOf(server, s.kids[s.children[server]]).tools
  }

  /** A crashed child whose callback is still due and whose tools are therefore still registered. */
  predicate Lingering(s: State, server: string)
    requires WellFormed(s)
  {
    server in s.children && s.children[server] in s.pending && s.kids[s.children[server]].tools != []
  }

  /** list_servers shows exactly the registered proxied tools if and only if no crashed child lingers. */
  lemma ListingIsTheTable(s: State)
    requires Reachable(s) && WellFormed(s)
    ensures (forall server :: server in s.children ==> !Lingering(s, server))
       <==> (forall name :: Listed(s, name) <==> name in s.table && name !in ManagementTools())
  {
    ReachableInv(s);
    forall name ensures Listed(s, name) ==> name in s.table && name !in ManagementTools() {
      if Listed(s, name) {
        ListedIsRegistered(ManagementTools(), s, name);
      }
    }
    forall name | name in s.table && name !in ManagementTools() ensures Listed(s, name) || exists server :: Lingering(s, server) {
      RegisteredIsListed(ManagementTools(), s, name);
    }
    forall server | Lingering(s, server) ensures exists name :: name in s.table && name !in ManagementTools() && !Listed(s, name) {
      var name := LingeringIsNotListed(ManagementTools(), s, server);
    }
  }

  lemma ListedIsRegistered(fixed: Table, s: State, name: string)
    requires Inv(fixed, s) && Listed(s, name)
    ensures name in s.table && name !in fixed
  {
    var server :| server in s.children && name in InfoOf(server, s.kids[s.children[server]]).tools;
    var tools := s.kids[s.children[server]].tools;
    ContributionNames(server, tools, name);
    ContributionServer(server, tools, name);
    assert Lookup(s.table, name) == Expected(fixed, s, name);
  }

  lemma RegisteredIsListed(fixed: Table, s: State, name: string)
    requires Inv(fixed, s) && name in s.table && name !in fixed
    ensures Listed(s, name) || exists server :: Lingering(s, server)
  {
    assert Lookup(s.table, name) == Expected(fixed, s, name);
    var server := SplitTool(name).server;
    var r := s.kids[s.children[server]];
    ContributionNames(server, r.tools, name);
    if r.status == Running {
      assert name in InfoOf(server, r).tools;
    } else {
      assert Lingering(s, server);
    }
  }

  lemma LingeringIsNotListed(fixed: Table, s: State, server: string) returns (name: string)
    requires Inv(fixed, s) && Lingering(s, server)
    ensures name in s.table && name !in fixed && !Listed(s, name)
  {
    var tools := s.kids[s.children[server]].tools;
    name := PrefixTool(server, tools[0].name);
    assert PrefixedNames(server, tools)[0] == name;
    ContributionNames(server, tools, name);
    ContributionServer(server, tools, name);
    assert Lookup(s.table, name) == Expected(fixed, s, name);
    if Listed(s, name) {
      var other :| other in s.children && name in InfoOf(other, s.kids[s.children[other]]).tools;
      ContributionNames(other, s.kids[s.children[other]].tools, name);
      ContributionServer(other, s.kids[s.children[other]].tools, name);
    }
  }
}
