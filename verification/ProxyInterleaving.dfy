/**
 * The proxy under full interleaving: every critical section of the registry's mutex, every update of the tool
 * table and every read of a child is one step, for any number of handlers, callbacks and tool calls at once.
 */
module ProxyInterleaving {
  import opened Prelude
  import opened Namespace
  import opened ChildState
  import opened ToolTable
  import opened Registry

  /** A child as the proxy sees it; hasSession stands for a non-nil Session(). */
  datatype Kid = Kid(config: Config, status: Status, tools: seq<Tool>, hasSession: bool)

  /** A tool call that reached a session: its thread, the name called, and the child and tool it was forwarded to. */
  datatype Delivery = Delivery(thread: nat, name: string, child: ChildId, tool: string)

  datatype Pc =
    | AddCalled(config: Config)
    | AddStarting(server: string, id: ChildId)
    | AddChecking(server: string, id: ChildId, found: seq<Tool>)
    | AddUndoing(server: string, id: ChildId)
    | AddingTools(server: string, id: ChildId, found: seq<Tool>, done: nat)
    | RemoveCalled(server: string, reload: Option<Config>)
    | RemovingTools(server: string, id: ChildId, reload: Option<Config>)
    | RemoveStopping(id: ChildId, reload: Option<Config>)
    | ReloadCalled(server: string)
    | CrashNoted(server: string, id: ChildId)
    | CrashDecided(server: string, id: ChildId, isCurrent: bool)
    | ToolCalled(name: string)
    | ToolBound(name: string, server: string, tool: string)
    | ToolRouted(name: string, server: string, tool: string, id: ChildId)
    | Finished

  /**
   * History. dropped: the children whose registration a removal or an undo has taken. adders, removers: the thread
   * that added a child, and the one whose removal dropped it. swept: the children whose tools their crash callback
   * has taken; cleared: those whose tools a callback or a removal has. stopped: those a removal has stopped.
   * owners: the child each tool was last registered for.
   */
  datatype History = History(
    dropped: set<ChildId>,
    adders: map<ChildId, nat>,
    removers: map<ChildId, nat>,
    swept: set<ChildId>,
    cleared: set<ChildId>,
    stopped: set<ChildId>,
    owners: map<string, ChildId>)

  const NO_HISTORY := History({}, map[], map[], {}, {}, {}, map[])

  /** delivered: the tool calls that reached a session. */
  datatype World = World(
    children: map<string, ChildId>,
    kids: seq<Kid>,
    table: Table,
    threads: seq<Pc>,
    delivered: seq<Delivery>,
    h: History)

  datatype Action =
    | Begin(pc: Pc)
    | KidChanges(id: ChildId, status: Status, tools: seq<Tool>, hasSession: bool)
    | StartReturns(thread: nat, found: Option<seq<Tool>>)
    | Go(thread: nat)

  function Move(w: World, t: nat, pc: Pc): World
    requires t < |w.threads|
  {
    w.(threads := w.threads[t := pc])
  }

  /** A call that begins: a handler, a tool call, or the crash callback of a child under the name it was added. */
  predicate MayBegin(w: World, pc: Pc) {
    match pc
    case AddCalled(_) => true
    case RemoveCalled(_, reload) => reload.None?
    case ReloadCalled(_) => true
    case ToolCalled(_) => true
    case CrashNoted(server, id) => id < |w.kids| && w.kids[id].config.name == server
    case _ => false
  }

  /** delete(p.children, server). */
  function Unregister(w: World, server: string): World {
    if server in w.children then
      w.(children := w.children - {server}, h := w.h.(dropped := w.h.dropped + {w.children[server]}))
    else w
  }

  /** removeToolsForChild. */
  function TakeTools(w: World, server: string, id: ChildId): World
    requires id < |w.kids|
  {
    w.(table := RemoveTools(w.table, PrefixedNames(server, w.kids[id].tools)), h := w.h.(cleared := w.h.cleared + {id}))
  }

  function GoNext(w: World, t: nat): Option<World>
    requires t < |w.threads|
  {
    match w.threads[t]
    case AddCalled(config) => Some(AddEnter(w, t, config))
    case AddChecking(server, id, found) =>
      if id >= |w.kids| then None
      else Some(Move(w, t, if w.kids[id].status != Running then AddUndoing(server, id) else AddingTools(server, id, found, 0)))
    case AddUndoing(server, _) => Some(Move(Unregister(w, server), t, Finished))
    case AddingTools(server, id, found, done) => Some(AddTool(w, t, server, id, found, done))
    case RemoveCalled(server, reload) => Some(RemoveEnter(w, t, server, reload))
    case RemovingTools(server, id, reload) =>
      if id >= |w.kids| then None
      else Some(Move(TakeTools(w, server, id), t, RemoveStopping(id, reload)))
    case RemoveStopping(id, reload) =>
      Some(Move(w.(h := w.h.(stopped := w.h.stopped + {id})), t, if reload.Some? then AddCalled(reload.value) else Finished))
    case ReloadCalled(server) => Some(ReloadEnter(w, t, server))
    case CrashNoted(server, id) => Some(Move(w, t, CrashDecided(server, id, Lookup(w.children, server) == Some(id))))
    case CrashDecided(server, id, isCurrent) =>
      if !isCurrent then Some(Move(w, t, Finished))
      else if id >= |w.kids| then None
      else Some(Move(Sweep(w, server, id), t, Finished))
    case ToolCalled(name) =>
      Some(Move(w, t, if name in w.table && w.table[name].binding.Proxied?
                      then ToolBound(name, w.table[name].binding.server, w.table[name].binding.tool) else Finished))
    case ToolBound(name, server, tool) =>
      Some(Move(w, t, if server in w.children then ToolRouted(name, server, tool, w.children[server]) else Finished))
    case ToolRouted(name, server, tool, id) =>
      if id >= |w.kids| then None
      else Some(Move(if w.kids[id].hasSession then w.(delivered := w.delivered + [Delivery(t, name, id, tool)]) else w, t, Finished))
    case AddStarting(_, _) => None
    case Finished => None
  }

  /** The same, by a crash callback. */
  function Sweep(w: World, server: string, id: ChildId): World
    requires id < |w.kids|
  {
    var w' := TakeTools(w, server, id);
    w'.(h := w'.h.(swept := w'.h.swept + {id}))
  }

  /** Lines 116-136. */
  function AddEnter(w: World, t: nat, config: Config): World
    requires t < |w.threads|
  {
    if !Valid(config.name) || config.name in w.children then Move(w, t, Finished)
    else Move(w.(children := w.children[config.name := |w.kids|], kids := w.kids + [Kid(config, New, [], false)],
                 h := w.h.(adders := w.h.adders[|w.kids| := t])),
              t, AddStarting(config.name, |w.kids|))
  }

  /** One turn of the loop of lines 156-171. */
  function AddTool(w: World, t: nat, server: string, id: ChildId, found: seq<Tool>, done: nat): World
    requires t < |w.threads|
  {
    if done < |found| then
      var name := PrefixTool(server, found[done].name);
      Move(w.(table := w.table[name := EntryFor(server, found[done])], h := w.h.(owners := w.h.owners[name := id])),
           t, AddingTools(server, id, found, done + 1))
    else Move(w, t, Finished)
  }

  /** Lines 181-188. */
  function RemoveEnter(w: World, t: nat, server: string, reload: Option<Config>): World
    requires t < |w.threads|
  {
    if server !in w.children then Move(w, t, Finished)
    else
      var w', id := Unregister(w, server), w.children[server];
      Move(w'.(h := w'.h.(removers := w'.h.removers[id := t])), t, RemovingTools(server, id, reload))
  }

  /** Lines 198-205. */
  function ReloadEnter(w: World, t: nat, server: string): World
    requires t < |w.threads|
  {
    if server !in w.children || w.children[server] >= |w.kids| then Move(w, t, Finished)
    else Move(w, t, RemoveCalled(server, Some(w.kids[w.children[server]].config)))
  }

  function Step(w: World, a: Action): Option<World> {
    match a
    case Begin(pc) => if MayBegin(w, pc) then Some(w.(threads := w.threads + [pc])) else None
    case KidChanges(id, status, tools, hasSession) =>
      if id < |w.kids| then Some(w.(kids := w.kids[id := Kid(w.kids[id].config, status, tools, hasSession)])) else None
    case StartReturns(t, found) =>
      if t < |w.threads| && w.threads[t].AddStarting? then
        Some(Move(w, t, if found.None? then AddUndoing(w.threads[t].server, w.threads[t].id)
                        else AddChecking(w.threads[t].server, w.threads[t].id, found.value)))
      else None
    case Go(t) => if t < |w.threads| then GoNext(w, t) else None
  }

  ghost const INIT: World := World(map[], [], ManagementTools(), [], [], NO_HISTORY)

  ghost predicate Reachable(w: World) {
    ReachableFrom(Step, INIT, w)
  }

  /** A turn moves its own thread, and at most adds a child. */
  lemma TurnMoves(w: World, t: nat)
    requires t < |w.threads| && GoNext(w, t).Some?
    ensures var w' := GoNext(w, t).value;
      && |w'.threads| == |w.threads| && w'.threads == w.threads[t := w'.threads[t]]
      && |w.kids| <= |w'.kids| && w'.kids[..|w.kids|] == w.kids
  {
  }

  // -- The invariant --

  predicate KidNamed(kids: seq<Kid>, id: ChildId, server: string) {
    id < |kids| && kids[id].config.name == server && Valid(server)
  }

  predicate Routed(name: string, server: string, tool: string) {
    Valid(server) && name == PrefixTool(server, tool)
  }

  predicate PcOk(kids: seq<Kid>, pc: Pc) {
    match pc
    case AddStarting(server, id) => KidNamed(kids, id, server)
    case AddChecking(server, id, _) => KidNamed(kids, id, server)
    case AddUndoing(server, id) => KidNamed(kids, id, server)
    case AddingTools(server, id, _, _) => KidNamed(kids, id, server)
    case RemoveCalled(server, reload) => reload.Some? ==> reload.value.name == server
    case RemovingTools(server, id, reload) => KidNamed(kids, id, server) && (reload.Some? ==> reload.value.name == server)
    case CrashNoted(server, id) => KidNamed(kids, id, server)
    case CrashDecided(server, id, _) => KidNamed(kids, id, server)
    case ToolBound(name, server, tool) => Routed(name, server, tool)
    case ToolRouted(name, server, tool, id) => Routed(name, server, tool) && KidNamed(kids, id, server)
    case _ => true
  }

  predicate EntryOk(name: string, e: Entry) {
    e.binding.Proxied? && Routed(name, e.binding.server, e.binding.tool)
  }

  predicate DeliveryOk(kids: seq<Kid>, d: Delivery) {
    d.child < |kids| && Routed(d.name, kids[d.child].config.name, d.tool)
  }

  ghost predicate TableOk(fixed: Table, table: Table) {
    && (forall name :: name in fixed ==> Lookup(table, name) == Some(fixed[name]))
    && (forall name :: name in table && name !in fixed ==> EntryOk(name, table[name]))
  }

  ghost predicate Inv(fixed: Table, w: World) {
    && TableOk(fixed, w.table)
    && Separate(fixed)
    && (forall server :: server in w.children ==> KidNamed(w.kids, w.children[server], server))
    && (forall id :: 0 <= id < |w.kids| ==> Valid(w.kids[id].config.name))
    && (forall t :: 0 <= t < |w.threads| ==> PcOk(w.kids, w.threads[t]))
    && (forall k :: 0 <= k < |w.delivered| ==> DeliveryOk(w.kids, w.delivered[k]))
  }

  lemma AddToolKeepsTable(fixed: Table, table: Table, server: string, tool: Tool)
    requires Separate(fixed) && TableOk(fixed, table) && Valid(server)
    ensures TableOk(fixed, table[PrefixTool(server, tool.name) := EntryFor(server, tool)])
  {
    SplitPrefix(server, tool.name);
  }

  lemma RemoveKeepsTable(fixed: Table, table: Table, server: string, tools: seq<Tool>)
    requires Separate(fixed) && TableOk(fixed, table) && Valid(server)
    ensures TableOk(fixed, RemoveTools(table, PrefixedNames(server, tools)))
  {
    forall i | 0 <= i < |tools| ensures SplitTool(PrefixTool(server, tools[i].name)).ok {
      SplitPrefix(server, tools[i].name);
    }
  }

  /** A step that creates no child keeps the invariant if the new table, position and delivery are in order. */
  lemma Moved(fixed: Table, w: World, w': World, t: nat)
    requires Inv(fixed, w) && t < |w.threads| && |w'.threads| == |w.threads|
    requires w'.kids == w.kids && w'.threads == w.threads[t := w'.threads[t]]
    requires PcOk(w.kids, w'.threads[t])
    requires w'.children == w.children || exists server :: w'.children == w.children - {server}
    requires w'.table == w.table || TableOk(fixed, w'.table)
    requires w'.delivered == w.delivered || (w'.delivered != [] && w'.delivered == w.delivered + [Last(w'.delivered)] && DeliveryOk(w.kids, Last(w'.delivered)))
    ensures Inv(fixed, w')
  {
  }

  lemma AddEnterKeepsInv(fixed: Table, w: World, t: nat, config: Config)
    requires Inv(fixed, w) && t < |w.threads|
    ensures Inv(fixed, AddEnter(w, t, config))
  {
    var w' := AddEnter(w, t, config);
    forall k | 0 <= k < |w'.threads| ensures PcOk(w'.kids, w'.threads[k]) {
      if k != t {
        assert PcOk(w.kids, w.threads[k]);
      }
    }
    forall k | 0 <= k < |w'.delivered| ensures DeliveryOk(w'.kids, w'.delivered[k]) {
      assert DeliveryOk(w.kids, w.delivered[k]);
    }
  }

  predicate TouchesTable(pc: Pc) {
    pc.AddingTools? || pc.RemovingTools? || pc.CrashDecided?
  }

  lemma TableStepKeepsInv(fixed: Table, w: World, t: nat)
    requires Inv(fixed, w) && t < |w.threads| && TouchesTable(w.threads[t]) && GoNext(w, t).Some?
    ensures Inv(fixed, GoNext(w, t).value)
  {
    assert PcOk(w.kids, w.threads[t]);
    match w.threads[t]
    case AddingTools(server, _, found, done) =>
      if done < |found| {
        AddToolKeepsTable(fixed, w.table, server, found[done]);
      }
      Moved(fixed, w, GoNext(w, t).value, t);
    case RemovingTools(server, id, _) =>
      RemoveKeepsTable(fixed, w.table, server, w.kids[id].tools);
      Moved(fixed, w, GoNext(w, t).value, t);
    case CrashDecided(server, id, _) =>
      RemoveKeepsTable(fixed, w.table, server, w.kids[id].tools);
      Moved(fixed, w, GoNext(w, t).value, t);
  }

  lemma ToolStepKeepsInv(fixed: Table, w: World, t: nat)
    requires Inv(fixed, w) && t < |w.threads| && GoNext(w, t).Some?
    requires w.threads[t].ToolCalled? || w.threads[t].ToolBound? || w.threads[t].ToolRouted?
    ensures Inv(fixed, GoNext(w, t).value)
  {
    assert PcOk(w.kids, w.threads[t]);
    Moved(fixed, w, GoNext(w, t).value, t);
  }

  lemma OtherStepKeepsInv(fixed: Table, w: World, t: nat)
    requires Inv(fixed, w) && t < |w.threads| && GoNext(w, t).Some? && !TouchesTable(w.threads[t])
    requires !w.threads[t].AddCalled? && !w.threads[t].ToolCalled? && !w.threads[t].ToolBound? && !w.threads[t].ToolRouted?
    ensures Inv(fixed, GoNext(w, t).value)
  {
    assert PcOk(w.kids, w.threads[t]);
    Moved(fixed, w, GoNext(w, t).value, t);
  }

  lemma GoKeepsInv(fixed: Table, w: World, t: nat)
    requires Inv(fixed, w) && t < |w.threads| && GoNext(w, t).Some?
    ensures Inv(fixed, GoNext(w, t).value)
  {
    if w.threads[t].AddCalled? {
      AddEnterKeepsInv(fixed, w, t, w.threads[t].config);
    } else if TouchesTable(w.threads[t]) {
      TableStepKeepsInv(fixed, w, t);
    } else if w.threads[t].ToolCalled? || w.threads[t].ToolBound? || w.threads[t].ToolRouted? {
      ToolStepKeepsInv(fixed, w, t);
    } else {
      OtherStepKeepsInv(fixed, w, t);
    }
  }

  lemma StepKeepsInv(fixed: Table, w: World, a: Action)
    requires Inv(fixed, w) && Step(w, a).Some?
    ensures Inv(fixed, Step(w, a).value)
  {
    match a
    case Go(t) => GoKeepsInv(fixed, w, t);
    case Begin(_) =>
    case KidChanges(_, _, _, _) =>
    case StartReturns(t, _) => assert PcOk(w.kids, w.threads[t]);
  }
}
