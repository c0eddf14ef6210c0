/**
 * The two models of the proxy are of one program: a handler that nothing disturbs, taking one turn after another at
 * the grain of the locks, has the effect of the handler taken as one step.
 */
module ProxyRefinement {
  import opened Prelude
  import opened Namespace
  import opened ChildState
  import opened ToolTable
  import opened Registry
  import opened ProxyInterleaving
  import opened ProxySafety

  function Seen(kid: Kid): Record {
    Record(kid.config, kid.status, kid.tools)
  }

  /** The state that the steps of whole handlers know of a world. */
  predicate Abstracts(w: World, s: State) {
    && w.children == s.children && w.table == s.table && |w.kids| == |s.kids|
    && forall id :: 0 <= id < |w.kids| ==> Seen(w.kids[id]) == s.kids[id]
  }

  lemma First(w: World, a: Action) returns (w': World)
    requires Step(w, a).Some?
    ensures w' == Step(w, a).value && Run(Step, w, [a]) == Some(w')
  {
    w' := Step(w, a).value;
    assert Run(Step, w', []) == Some(w');
  }

  // -- Turns of one thread --

  /** n turns of the same thread. */
  function Turns(t: nat, n: nat): (labels: seq<Action>)
    ensures |labels| == n
  {
    seq(n, _ => Go(t))
  }

  /** The thread at the registration loop adds the tools from..upto, one per turn. */
  lemma {:induction false} RegisterTurns(w: World, t: nat, server: string, id: ChildId, found: seq<Tool>, from: nat, upto: nat)
    returns (end: World)
    requires t < |w.threads| && from <= upto <= |found| && w.threads[t] == AddingTools(server, id, found, from)
    ensures Run(Step, w, Turns(t, upto - from)) == Some(end)
    ensures end.table == RegisterTools(w.table, server, found[from..upto])
    ensures end.threads == w.threads[t := AddingTools(server, id, found, upto)]
    ensures end.children == w.children && end.kids == w.kids && end.delivered == w.delivered
    decreases upto - from
  {
    if from == upto {
      end := w;
      assert w.threads[t := AddingTools(server, id, found, upto)] == w.threads;
      assert Turns(t, 0) == [];
    } else {
      var w' := AddTool(w, t, server, id, found, from);
      FirstTurn(t, upto - from);
      end := RegisterTurns(w', t, server, id, found, from + 1, upto);
      RegisterFirst(w.table, server, found[from..upto]);
      assert found[from..upto][1..] == found[from + 1..upto];
      assert w'.threads[t := AddingTools(server, id, found, upto)] == w.threads[t := AddingTools(server, id, found, upto)];
    }
  }

  lemma FirstTurn(t: nat, n: nat)
    requires n > 0
    ensures Turns(t, n)[0] == Go(t) && Turns(t, n)[1..] == Turns(t, n - 1)
  {
  }

  /** Registering from the front, one tool and then the others. */
  lemma {:induction false} RegisterFirst(table: Table, server: string, tools: seq<Tool>)
    requires tools != []
    ensures RegisterTools(table, server, tools)
         == RegisterTools(table[PrefixTool(server, tools[0].name) := EntryFor(server, tools[0])], server, tools[1..])
    decreases |tools|
  {
    if |tools| == 1 {
      assert tools[..0] == [] && tools[1..] == [];
    } else {
      var front := tools[..|tools| - 1];
      RegisterFirst(table, server, front);
      assert front[1..] == tools[1..][..|tools| - 2];
      assert Last(tools[1..]) == Last(tools);
    }
  }

  // -- Adding --

  /** What the environment does to the new child during Start, and what Start returns. */
  function StartLabels(t: nat, id: ChildId, outcome: StartOutcome): seq<Action> {
    match outcome
    case StartFails(cancelled) =>
      [KidChanges(id, if cancelled then Starting else Crashed, [], false), StartReturns(t, None)]
    case Starts(tools) => [KidChanges(id, Running, tools, true), StartReturns(t, Some(tools))]
    case StartsThenExits(tools) => [KidChanges(id, Crashed, tools, true), StartReturns(t, Some(tools))]
  }

  /** How many turns the handler takes after Start has returned. */
  function TurnsLeft(outcome: StartOutcome): nat {
    match outcome
    case StartFails(_) => 1
    case StartsThenExits(_) => 2
    case Starts(tools) => |tools| + 2
  }

  function AddLabels(s: State, t: nat, config: Config, outcome: StartOutcome): seq<Action> {
    if !Valid(config.name) || config.name in s.children then [Go(t)]
    else [Go(t)] + StartLabels(t, |s.kids|, outcome) + Turns(t, TurnsLeft(outcome))
  }

  /** The world when Start has returned. */
  function StartReturned(w: World, t: nat, config: Config, outcome: StartOutcome): World
    requires t < |w.threads|
  {
    var id := |w.kids|;
    var kid := match outcome
      case StartFails(cancelled) => Kid(config, if cancelled then Starting else Crashed, [], false)
      case Starts(tools) => Kid(config, Running, tools, true)
      case StartsThenExits(tools) => Kid(config, Crashed, tools, true);
    var pc := if outcome.StartFails? then AddUndoing(config.name, id) else AddChecking(config.name, id, outcome.tools);
    w.(children := w.children[config.name := id], kids := w.kids + [kid], threads := w.threads[t := pc], h := w.h.(adders := w.h.adders[id := t]))
  }

  lemma AddStarted(w: World, s: State, t: nat, config: Config, outcome: StartOutcome) returns (end: World)
    requires Abstracts(w, s) && t < |w.threads| && w.threads[t] == AddCalled(config)
    requires Valid(config.name) && config.name !in s.children
    ensures end == StartReturned(w, t, config, outcome)
    ensures Run(Step, w, [Go(t)] + StartLabels(t, |s.kids|, outcome)) == Some(end)
  {
    var labels := StartLabels(t, |s.kids|, outcome);
    var w1 := First(w, Go(t));
    var w2 := Then(Step, w, [Go(t)], w1, labels[0]);
    end := Then(Step, w, [Go(t)] + [labels[0]], w2, labels[1]);
    assert [Go(t)] + [labels[0]] + [labels[1]] == [Go(t)] + labels;
    var returned := StartReturned(w, t, config, outcome);
    assert end.kids == returned.kids;
    assert end.threads == returned.threads;
  }

  /** The delete by name takes back the insertion. */
  lemma UndoTurns(w: World, s: State, t: nat, config: Config, n: nat) returns (end: World)
    requires t < |w.threads| && config.name !in s.children && w.children == s.children[config.name := |s.kids|]
    requires n == 1 || n == 2
    requires n == 1 ==> w.threads[t] == AddUndoing(config.name, |s.kids|)
    requires n == 2 ==>
      && w.threads[t].AddChecking? && w.threads[t].server == config.name
      && w.threads[t].id < |w.kids| && w.kids[w.threads[t].id].status != Running
    ensures Run(Step, w, Turns(t, n)) == Some(end)
    ensures end.children == s.children && end.threads == w.threads[t := Finished]
    ensures end.table == w.table && end.kids == w.kids && end.delivered == w.delivered
  {
    end := First(w, Go(t));
    if n == 1 {
      assert Turns(t, n) == [Go(t)];
    } else {
      end := Then(Step, w, [Go(t)], end, Go(t));
      assert Turns(t, n) == [Go(t)] + [Go(t)];
    }
    assert end.children == s.children;
    assert end.threads == w.threads[t := Finished];
  }

  /** The status check, the registrations, and the return. */
  lemma RegisteringTurns(w: World, t: nat, server: string, id: ChildId, tools: seq<Tool>) returns (end: World)
    requires t < |w.threads| && w.threads[t] == AddChecking(server, id, tools) && id < |w.kids| && w.kids[id].status == Running
    ensures Run(Step, w, Turns(t, |tools| + 2)) == Some(end)
    ensures end.table == RegisterTools(w.table, server, tools) && end.threads == w.threads[t := Finished]
    ensures end.children == w.children && end.kids == w.kids && end.delivered == w.delivered
  {
    var w1 := First(w, Go(t));
    var w2 := RegisterTurns(w1, t, server, id, tools, 0, |tools|);
    assert tools[0..|tools|] == tools;
    RunConcat(Step, w, [Go(t)], Turns(t, |tools|));
    end := Then(Step, w, [Go(t)] + Turns(t, |tools|), w2, Go(t));
    TurnsBetween(t, |tools|);
    assert end.threads == w.threads[t := Finished];
  }

  lemma TurnsBetween(t: nat, n: nat)
    ensures Turns(t, n + 2) == [Go(t)] + Turns(t, n) + [Go(t)]
  {
  }

  /** The turns after Start has returned. */
  lemma AddEnds(w: World, s: State, t: nat, config: Config, outcome: StartOutcome, started: World) returns (end: World)
    requires Abstracts(w, s) && t < |w.threads| && Valid(config.name) && config.name !in s.children
    requires started == StartReturned(w, t, config, outcome)
    ensures Run(Step, started, Turns(t, TurnsLeft(outcome))) == Some(end)
    ensures Abstracts(end, AddServer(s, config, outcome).0)
    ensures end.threads == w.threads[t := Finished] && end.delivered == w.delivered
  {
    match outcome
    case StartFails(_) => end := UndoTurns(started, s, t, config, 1);
    case StartsThenExits(_) => end := UndoTurns(started, s, t, config, 2);
    case Starts(tools) => end := RegisteringTurns(started, t, config.name, |s.kids|, tools);
  }

  lemma AddAlone(w: World, s: State, t: nat, config: Config, outcome: StartOutcome) returns (end: World)
    requires Abstracts(w, s) && t < |w.threads| && w.threads[t] == AddCalled(config)
    ensures Run(Step, w, AddLabels(s, t, config, outcome)) == Some(end)
    ensures Abstracts(end, AddServer(s, config, outcome).0)
    ensures end.threads == w.threads[t := Finished] && end.delivered == w.delivered
  {
    if !Valid(config.name) || config.name in s.children {
      end := First(w, Go(t));
    } else {
      var started := AddStarted(w, s, t, config, outcome);
      end := AddEnds(w, s, t, config, outcome, started);
      RunConcat(Step, w, [Go(t)] + StartLabels(t, |s.kids|, outcome), Turns(t, TurnsLeft(outcome)));
    }
  }

  // -- Removing --

  /** child.Stop, at the end of the removal. */
  function Stopping(r: Record, id: ChildId): Action {
    KidChanges(id, StopRecord(r).status, r.tools, false)
  }

  function RemoveLabels(s: State, t: nat, server: string): seq<Action>
    requires WellFormed(s)
  {
    if server !in s.children then [Go(t)]
    else [Go(t)] + [Go(t)] + [Stopping(s.kids[s.children[server]], s.children[server])] + [Go(t)]
  }

  /** What a removal goes on to: the second half of a reload, if it is part of one that found its server. */
  function Next(s: State, server: string, reload: Option<Config>): Pc {
    if server in s.children && reload.Some? then AddCalled(reload.value) else Finished
  }

  lemma RemoveAlone(w: World, s: State, t: nat, server: string, reload: Option<Config>) returns (end: World)
    requires Abstracts(w, s) && WellFormed(s) && t < |w.threads| && w.threads[t] == RemoveCalled(server, reload)
    ensures Run(Step, w, RemoveLabels(s, t, server)) == Some(end)
    ensures Abstracts(end, RemoveServer(s, server).0)
    ensures end.threads == w.threads[t := Next(s, server, reload)] && end.delivered == w.delivered
  {
    end := First(w, Go(t));
    if server in s.children {
      var stopping := Stopping(s.kids[s.children[server]], s.children[server]);
      assert Seen(w.kids[s.children[server]]) == s.kids[s.children[server]];
      end := Then(Step, w, [Go(t)], end, Go(t));
      end := Then(Step, w, [Go(t)] + [Go(t)], end, stopping);
      end := Then(Step, w, [Go(t)] + [Go(t)] + [stopping], end, Go(t));
      assert end.threads == w.threads[t := Next(s, server, reload)];
    }
  }

  // -- Reloading --

  function ReloadLabels(s: State, t: nat, server: string, outcome: StartOutcome): seq<Action>
    requires WellFormed(s)
  {
    if server !in s.children then [Go(t)]
    else [Go(t)] + RemoveLabels(s, t, server) + AddLabels(RemoveServer(s, server).0, t, s.kids[s.children[server]].config, outcome)
  }

  lemma ReloadAlone(w: World, s: State, t: nat, server: string, outcome: StartOutcome) returns (end: World)
    requires Abstracts(w, s) && WellFormed(s) && t < |w.threads| && w.threads[t] == ReloadCalled(server)
    ensures Run(Step, w, ReloadLabels(s, t, server, outcome)) == Some(end)
    ensures Abstracts(end, ReloadServer(s, server, outcome).0)
    ensures end.threads == w.threads[t := Finished] && end.delivered == w.delivered
  {
    end := First(w, Go(t));
    if server in s.children {
      var config := s.kids[s.children[server]].config;
      assert Seen(w.kids[s.children[server]]) == s.kids[s.children[server]];
      var removed := RemoveAlone(end, s, t, server, Some(config));
      RunConcat(Step, w, [Go(t)], RemoveLabels(s, t, server));
      end := AddAlone(removed, RemoveServer(s, server).0, t, config, outcome);
      RunConcat(Step, w, [Go(t)] + RemoveLabels(s, t, server), AddLabels(RemoveServer(s, server).0, t, config, outcome));
    }
  }

  // -- The crash callback --

  lemma CrashAlone(w: World, s: State, t: nat, server: string, id: ChildId) returns (end: World)
    requires Abstracts(w, s) && id < |s.kids| && t < |w.threads| && w.threads[t] == CrashNoted(server, id)
    ensures Run(Step, w, Turns(t, 2)) == Some(end)
    ensures Abstracts(end, HandleCrash(s, server, id))
    ensures end.threads == w.threads[t := Finished] && end.delivered == w.delivered
  {
    var w1 := First(w, Go(t));
    assert Seen(w.kids[id]) == s.kids[id];
    end := Then(Step, w, [Go(t)], w1, Go(t));
    assert Turns(t, 2) == [Go(t)] + [Go(t)];
    assert end.threads == w.threads[t := Finished];
  }

  // -- A tool call --

  /** The world after an undisturbed call that asks for this tool of this server. */
  function Called(w: World, t: nat, name: string, server: string, tool: string): World
    requires t < |w.threads| && (server in w.children ==> w.children[server] < |w.kids|)
  {
    var served := server in w.children && w.kids[w.children[server]].hasSession;
    w.(threads := w.threads[t := Finished],
       delivered := if served then w.delivered + [Delivery(t, name, w.children[server], tool)] else w.delivered)
  }

  function CallTurns(w: World, server: string): nat {
    if server in w.children then 3 else 2
  }

  lemma BoundCall(w: World, t: nat, name: string, server: string, tool: string)
    requires t < |w.threads| && w.threads[t] == ToolBound(name, server, tool)
    requires server in w.children ==> w.children[server] < |w.kids|
    ensures Run(Step, w, Turns(t, CallTurns(w, server) - 1)) == Some(Called(w, t, name, server, tool))
  {
    var w1 := First(w, Go(t));
    if server in w.children {
      var end := Then(Step, w, [Go(t)], w1, Go(t));
      assert Turns(t, 2) == [Go(t)] + [Go(t)];
      assert end.threads == w.threads[t := Finished];
    } else {
      assert Turns(t, 1) == [Go(t)];
    }
  }

  lemma BoundByName(w: World, name: string)
    requires Reachable(w) && name in w.table && name !in ManagementTools()
    ensures w.table[name].binding == Proxied(SplitTool(name).server, SplitTool(name).tool)
    ensures SplitTool(name).server in w.children ==> w.children[SplitTool(name).server] < |w.kids|
  {
    ReachableInv(w);
    RoutingByClosureIsByName(w, name);
  }

  /**
   * A call under a registered proxied name reaches the session of the child stored under the server part of the
   * name, if there is one, and asks it for the tool part.
   */
  lemma CallAlone(w: World, t: nat, name: string)
    requires Reachable(w) && t < |w.threads| && w.threads[t] == ToolCalled(name)
    requires name in w.table && name !in ManagementTools()
    ensures var split := SplitTool(name);
      && (split.server in w.children ==> w.children[split.server] < |w.kids|)
      && Run(Step, w, Turns(t, CallTurns(w, split.server))) == Some(Called(w, t, name, split.server, split.tool))
  {
    var split := SplitTool(name);
    BoundByName(w, name);
    var w1 := First(w, Go(t));
    assert w1 == Move(w, t, ToolBound(name, split.server, split.tool));
    BoundCall(w1, t, name, split.server, split.tool);
    RunConcat(Step, w, [Go(t)], Turns(t, CallTurns(w, split.server) - 1));
    assert Turns(t, CallTurns(w, split.server)) == [Go(t)] + Turns(t, CallTurns(w, split.server) - 1);
    assert w1.threads[t := Finished] == w.threads[t := Finished];
  }
}
