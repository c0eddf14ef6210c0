/** What holds of the proxy's routing and tool table at every interleaving. */
module ProxySafety {
  import opened Prelude
  import opened Namespace
  import opened ChildState
  import opened ToolTable
  import opened Registry
  import opened ProxyInterleaving

  lemma InitInv(fixed: Table)
    requires Separate(fixed)
    ensures Inv(fixed, World(map[], [], fixed, [], [], NO_HISTORY))
  {
  }

  lemma RunKeepsInv(fixed: Table, w: World, labels: seq<Action>)
    requires Inv(fixed, w)
    ensures Run(Step, w, labels).Some? ==> Inv(fixed, Run(Step, w, labels).value)
  {
    forall v, a | Inv(fixed, v) && Step(v, a).Some? ensures Inv(fixed, Step(v, a).value) {
      StepKeepsInv(fixed, v, a);
    }
    InvariantAlongRun(Step, v => Inv(fixed, v), w, labels);
  }

  lemma ReachableInv(w: World)
    requires Reachable(w)
    ensures Inv(ManagementTools(), w)
  {
    ManagementSeparate();
    InitInv(ManagementTools());
    var labels: seq<Action> :| Run(Step, INIT, labels) == Some(w);
    RunKeepsInv(ManagementTools(), INIT, labels);
  }

  /** Every name but the four management tools is bound to the very server and tool it is split into. */
  lemma RoutingByClosureIsByName(w: World, name: string)
    requires Reachable(w) && name in w.table && name !in ManagementTools()
    ensures w.table[name].binding.Proxied?
    ensures var b := w.table[name].binding;
      Valid(b.server) && name == PrefixTool(b.server, b.tool) && SplitTool(name) == Split(b.server, b.tool, true)
  {
    ReachableInv(w);
    SplitPrefix(w.table[name].binding.server, w.table[name].binding.tool);
  }

  /** A bound call looks up the child currently stored under the server part of the name called. */
  lemma CallLooksUpByName(w: World, t: nat)
    requires Reachable(w) && t < |w.threads| && w.threads[t].ToolBound?
    ensures var pc := w.threads[t];
      SplitTool(pc.name) == Split(pc.server, pc.tool, true)
      && Step(w, Go(t)) == Some(Move(w, t,
           match Lookup(w.children, SplitTool(pc.name).server)
           case Some(id) => ToolRouted(pc.name, SplitTool(pc.name).server, SplitTool(pc.name).tool, id)
           case None => Finished))
  {
    ReachableInv(w);
    assert PcOk(w.kids, w.threads[t]);
    SplitPrefix(w.threads[t].server, w.threads[t].tool);
  }

  /** Whatever reaches a session was called under the name of that child and of the tool asked for. */
  lemma DeliveredByName(w: World, k: nat)
    requires Reachable(w) && k < |w.delivered|
    ensures w.delivered[k].child < |w.kids|
    ensures SplitTool(w.delivered[k].name) == Split(w.kids[w.delivered[k].child].config.name, w.delivered[k].tool, true)
  {
    ReachableInv(w);
    assert DeliveryOk(w.kids, w.delivered[k]);
    SplitPrefix(w.kids[w.delivered[k].child].config.name, w.delivered[k].tool);
  }

  /** The lookup step of the call of thread t, under this name, finding this child under the server part of the name. */
  predicate LooksUp(w: World, a: Action, t: nat, name: string, id: ChildId) {
    && a == Go(t) && t < |w.threads| && w.threads[t].ToolBound? && w.threads[t].name == name
    && Lookup(w.children, SplitTool(name).server) == Some(id)
  }

  /** The call of thread t, under this name, has been, or is about to be, forwarded to this child. */
  predicate Forwarded(w: World, t: nat, name: string, id: ChildId) {
    || (exists k :: 0 <= k < |w.delivered| && w.delivered[k].thread == t && w.delivered[k].name == name && w.delivered[k].child == id)
    || (t < |w.threads| && w.threads[t].ToolRouted? && w.threads[t].name == name && w.threads[t].id == id)
  }

  /** Only a lookup routes a call, to the child it finds. */
  lemma TurnRoutes(w: World, t: nat)
    requires t < |w.threads| && GoNext(w, t).Some? && |GoNext(w, t).value.threads| == |w.threads|
    ensures var pc, pc' := w.threads[t], GoNext(w, t).value.threads[t];
      pc'.ToolRouted? ==> pc.ToolBound? && pc'.name == pc.name && Lookup(w.children, pc.server) == Some(pc'.id)
  {
    if !w.threads[t].ToolBound? {
      OthersRouteNothing(w, t);
    }
  }

  lemma OthersRouteNothing(w: World, t: nat)
    requires t < |w.threads| && GoNext(w, t).Some? && |GoNext(w, t).value.threads| == |w.threads| && !w.threads[t].ToolBound?
    ensures !GoNext(w, t).value.threads[t].ToolRouted?
  {
  }

  /** Only a routed call is delivered, to its child. */
  lemma TurnDelivers(w: World, t: nat)
    requires t < |w.threads| && GoNext(w, t).Some?
    ensures var w', pc := GoNext(w, t).value, w.threads[t];
      w'.delivered == w.delivered || (pc.ToolRouted? && w'.delivered == w.delivered + [Delivery(t, pc.name, pc.id, pc.tool)])
  {
  }

  lemma ForwardedBecause(w: World, a: Action, t: nat, name: string, id: ChildId)
    requires Inv(ManagementTools(), w) && Step(w, a).Some? && Forwarded(Step(w, a).value, t, name, id)
    ensures Forwarded(w, t, name, id) || LooksUp(w, a, t, name, id)
  {
    if a.Go? {
      TurnMoves(w, a.thread);
      TurnRoutes(w, a.thread);
      TurnDelivers(w, a.thread);
      assert PcOk(w.kids, w.threads[a.thread]);
      if w.threads[a.thread].ToolBound? {
        SplitPrefix(w.threads[a.thread].server, w.threads[a.thread].tool);
      }
    }
  }

  lemma {:induction false} ForwardedAfterLookup(w: World, labels: seq<Action>, t: nat, name: string, id: ChildId)
    requires Inv(ManagementTools(), w) && Run(Step, w, labels).Some? && Forwarded(Run(Step, w, labels).value, t, name, id)
    ensures Forwarded(w, t, name, id) || Somewhere(Step, w, labels, (v, a) => LooksUp(v, a, t, name, id))
    decreases |labels|
  {
    if labels != [] {
      var w' := Step(w, labels[0]).value;
      StepKeepsInv(ManagementTools(), w, labels[0]);
      ForwardedAfterLookup(w', labels[1..], t, name, id);
      if Forwarded(w', t, name, id) {
        ForwardedBecause(w, labels[0], t, name, id);
      }
    }
  }

  /** In every run, the child a call was delivered to was stored under the server part of the name when that very call looked it up. */
  lemma DeliveredToRegistered(labels: seq<Action>, k: nat)
    requires Run(Step, INIT, labels).Some? && k < |Run(Step, INIT, labels).value.delivered|
    ensures var d := Run(Step, INIT, labels).value.delivered[k];
      Somewhere(Step, INIT, labels, (v, a) => LooksUp(v, a, d.thread, d.name, d.child))
  {
    ManagementSeparate();
    InitInv(ManagementTools());
    var d := Run(Step, INIT, labels).value.delivered[k];
    ForwardedAfterLookup(INIT, labels, d.thread, d.name, d.child);
  }

  /** The management tools are in the table at every moment, unchanged. */
  lemma ManagementToolsStay(w: World, name: string)
    requires Reachable(w) && name in ManagementTools()
    ensures Lookup(w.table, name) == Some(ManagementTools()[name])
  {
    ReachableInv(w);
  }

  /** All four of them, each running its handler, and no other name runs one. */
  lemma ManagementStays(w: World)
    requires Reachable(w)
    ensures Managed(w.table)
  {
    FourManagementTools();
    ReachableInv(w);
    ManagementToolsStay(w, "add_server");
    ManagementToolsStay(w, "remove_server");
    ManagementToolsStay(w, "reload_server");
    ManagementToolsStay(w, "list_servers");
    forall name | name in w.table && name !in ManagementTools() ensures w.table[name].binding.Proxied? {
      assert EntryOk(name, w.table[name]);
    }
  }

  /** At no moment is a child registered under the empty name, or a tool bound to it. */
  lemma NoEmptyServer(w: World)
    requires Reachable(w)
    ensures "" !in w.children
    ensures forall name :: name in w.table && w.table[name].binding.Proxied? ==> w.table[name].binding.server != ""
  {
    EmptyNameRefused();
    FourManagementTools();
    ReachableInv(w);
    assert "" in w.children ==> KidNamed(w.kids, w.children[""], "");
    forall name | name in w.table && w.table[name].binding.Proxied? ensures w.table[name].binding.server != "" {
      if name in ManagementTools() {
        ManagementToolsStay(w, name);
        ManagementBinding(name);
      } else {
        assert EntryOk(name, w.table[name]);
      }
    }
  }

  /** The server a handler or a crash callback works for. */
  function ServerOf(pc: Pc): Option<string> {
    match pc
    case AddCalled(config) => Some(config.name)
    case AddStarting(server, _) => Some(server)
    case AddChecking(server, _, _) => Some(server)
    case AddUndoing(server, _) => Some(server)
    case AddingTools(server, _, _, _) => Some(server)
    case RemoveCalled(server, _) => Some(server)
    case RemovingTools(server, _, _) => Some(server)
    case CrashDecided(server, _, _) => Some(server)
    case _ => None
  }

  /** No step for one server touches a tool or the registered child of another. */
  lemma OtherServersUntouched(w: World, a: Action, server: string)
    requires Reachable(w) && Step(w, a).Some?
    requires a.Go? && a.thread < |w.threads| ==> ServerOf(w.threads[a.thread]) != Some(server)
    ensures Lookup(Step(w, a).value.children, server) == Lookup(w.children, server)
    ensures forall name :: SplitTool(name).ok && SplitTool(name).server == server ==> Lookup(Step(w, a).value.table, name) == Lookup(w.table, name)
  {
    ReachableInv(w);
    if a.Go? {
      assert PcOk(w.kids, w.threads[a.thread]);
      GoLeavesOthers(w, a.thread, server);
    }
  }

  lemma GoLeavesOthers(w: World, t: nat, server: string)
    requires t < |w.threads| && GoNext(w, t).Some? && PcOk(w.kids, w.threads[t]) && ServerOf(w.threads[t]) != Some(server)
    ensures Lookup(GoNext(w, t).value.children, server) == Lookup(w.children, server)
    ensures forall name :: SplitTool(name).ok && SplitTool(name).server == server ==> Lookup(GoNext(w, t).value.table, name) == Lookup(w.table, name)
  {
    match w.threads[t]
    case AddingTools(other, _, found, done) =>
      if done < |found| {
        SplitPrefix(other, found[done].name);
      }
    case RemovingTools(other, id, _) => NamesOf(other, w.kids[id].tools);
    case CrashDecided(other, id, _) => NamesOf(other, w.kids[id].tools);
    case _ =>
  }

  lemma NamesOf(server: string, tools: seq<Tool>)
    requires Valid(server)
    ensures forall name :: name in PrefixedNames(server, tools) ==> SplitTool(name).ok && SplitTool(name).server == server
  {
    forall name | name in PrefixedNames(server, tools) ensures SplitTool(name).ok && SplitTool(name).server == server {
      var i :| 0 <= i < |tools| && name == PrefixTool(server, tools[i].name);
      SplitPrefix(server, tools[i].name);
    }
  }
}
