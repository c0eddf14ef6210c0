/**
 * A complete account of what can go wrong between overlapping calls for one server: as long as no step touches what
 * another child has registered, the tool table follows the registry, whatever overlaps.
 */
module ProxyAccount {
  import opened Prelude
  import opened Namespace
  import opened ChildState
  import opened ToolTable
  import opened Registry
  import opened ProxyInterleaving
  import opened ProxySafety
  import opened ProxyRegistration

  predicate WorksFor(pc: Pc, server: string) {
    || ServerOf(pc) == Some(server)
    || (pc.ReloadCalled? && pc.server == server)
    || (pc.CrashNoted? && pc.server == server)
    || (pc.RemoveStopping? && pc.reload.Some? && pc.reload.value.name == server)
  }

  /** Nothing for this server is under way. */
  predicate Free(w: World, server: string) {
    forall t :: 0 <= t < |w.threads| ==> !WorksFor(w.threads[t], server)
  }

  /** Start is over; from here on a child's tools are fixed. */
  predicate Settled(kid: Kid) {
    kid.status != New && kid.status != Starting
  }

  /** What a child of this server may become: its status moves forward, and its tools are fixed once it is settled. */
  predicate KidMay(kid: Kid, status: Status, tools: seq<Tool>) {
    NoLater(kid.status, status) && (Settled(kid) ==> tools == kid.tools)
  }

  /** The children of this server behave as children do: a callback comes only after the crash, and Start returns what it set. */
  predicate Honest(w: World, a: Action, server: string) {
    match a
    case Begin(pc) => pc.CrashNoted? && pc.server == server && pc.id < |w.kids| ==> w.kids[pc.id].status == Crashed
    case KidChanges(id, status, tools, _) =>
      id < |w.kids| && w.kids[id].config.name == server ==> KidMay(w.kids[id], status, tools)
    case StartReturns(t, found) =>
      t < |w.threads| && w.threads[t].AddStarting? && w.threads[t].server == server && found.Some? ==>
        w.threads[t].id < |w.kids| && Settled(w.kids[w.threads[t].id]) && found.value == w.kids[w.threads[t].id].tools
    case Go(_) => true
  }

  // -- The steps that do harm --

  /** Taking the tools of this child would take one that another child has registered. */
  ghost predicate TakesAnothers(w: World, server: string, id: ChildId) {
    id < |w.kids| && exists name :: name in PrefixedNames(server, w.kids[id].tools) && name in w.table && Lookup(w.h.owners, name) != Some(id)
  }

  /**
   * A turn for this server that unregisters another child, that takes a tool another child has registered, that
   * registers a tool when the child's tools have already been taken, or that, for a child no longer registered,
   * replaces a tool another child has registered.
   */
  ghost predicate Hits(w: World, a: Action, server: string) {
    a.Go? && a.thread < |w.threads| && ServerOf(w.threads[a.thread]) == Some(server) &&
    match w.threads[a.thread]
    case AddUndoing(_, id) => server in w.children && w.children[server] != id
    case RemovingTools(_, id, _) => TakesAnothers(w, server, id)
    case CrashDecided(_, id, true) => TakesAnothers(w, server, id)
    case AddingTools(_, id, found, done) =>
      done < |found| &&
      var name := PrefixTool(server, found[done].name);
      id in w.h.cleared || (name in w.table && Lookup(w.h.owners, name) != Some(id) && Lookup(w.children, server) != Some(id))
    case _ => false
  }

  ghost predicate Harmless(w: World, labels: seq<Action>, server: string)
    decreases |labels|
  {
    labels != [] ==>
      && Honest(w, labels[0], server) && !Hits(w, labels[0], server) && Step(w, labels[0]).Some?
      && Harmless(Step(w, labels[0]).value, labels[1..], server)
  }

  // -- Who has registered what --

  predicate OfServer(name: string, server: string) {
    SplitTool(name).ok && SplitTool(name).server == server
  }

  /** The tools of the registered child, unless its crash callback has run. */
  function Expected(w: World, server: string): Table {
    if server in w.children && w.children[server] < |w.kids| && w.children[server] !in w.h.swept
    then Contribution(server, w.kids[w.children[server]].tools) else map[]
  }

  /** The thread is adding this child. */
  predicate Adds(pc: Pc, server: string, id: ChildId) {
    match pc
    case AddStarting(s, i) => s == server && i == id
    case AddChecking(s, i, _) => s == server && i == id
    case AddUndoing(s, i) => s == server && i == id
    case AddingTools(s, i, _, _) => s == server && i == id
    case _ => false
  }

  /** The tools that the thread which added a child has registered so far. */
  function Registered(pc: Pc, kid: Kid): seq<Tool> {
    match pc
    case AddingTools(_, _, found, done) => if done <= |found| then found[..done] else found
    case Finished => kid.tools
    case _ => []
  }

  ghost predicate Present(w: World, server: string, id: ChildId, tools: seq<Tool>) {
    forall name :: name in Contribution(server, tools) ==>
      Lookup(w.table, name) == Some(Contribution(server, tools)[name]) && Lookup(w.h.owners, name) == Some(id)
  }

  ghost predicate OwnsNothing(w: World, server: string, id: ChildId) {
    forall name :: OfServer(name, server) && name in w.table ==> Lookup(w.h.owners, name) != Some(id)
  }

  /** The removal that dropped this child has yet to take its tools. */
  predicate AwaitsRemoval(w: World, server: string, id: ChildId) {
    && id in w.h.removers && w.h.removers[id] < |w.threads|
    && var pc := w.threads[w.h.removers[id]];
       pc.RemovingTools? && pc.server == server && pc.id == id
  }

  /** A child of this server: who is adding it, who is removing it, and what of it is in the table. */
  ghost predicate KidAcc(w: World, server: string, id: ChildId)
    requires id < |w.kids|
  {
    && id in w.h.adders && w.h.adders[id] < |w.threads|
    && var pc := w.threads[w.h.adders[id]];
    && (pc == Finished || Adds(pc, server, id))
    && (Lookup(w.children, server) == Some(id) || id in w.h.dropped)
    && (id in w.h.dropped && id !in w.h.cleared ==> AwaitsRemoval(w, server, id) || (pc == Finished && OwnsNothing(w, server, id)))
    && (Lookup(w.children, server) == Some(id) ==>
         (pc == Finished ==> Settled(w.kids[id])) && (id !in w.h.cleared ==> Present(w, server, id, Registered(pc, w.kids[id]))))
  }

  /** An entry of this server: it is one of its owner's tools, which nobody has taken. */
  ghost predicate EntryAcc(w: World, server: string, name: string) {
    && name in w.h.owners
    && var o := w.h.owners[name];
    && o < |w.kids| && w.kids[o].config.name == server && Settled(w.kids[o]) && o !in w.h.cleared
    && name in Contribution(server, w.kids[o].tools)
    && o in w.h.adders && w.h.adders[o] < |w.threads|
    && (w.threads[w.h.adders[o]] == Finished || w.threads[w.h.adders[o]].AddingTools?)
  }

  predicate AddedBy(w: World, t: nat, id: ChildId) {
    id < |w.kids| && id in w.h.adders && w.h.adders[id] == t
  }

  predicate ThreadAcc(w: World, server: string, t: nat, pc: Pc) {
    match pc
    case AddStarting(s, id) => s == server ==> AddedBy(w, t, id)
    case AddChecking(s, id, found) => s == server ==> AddedBy(w, t, id) && Settled(w.kids[id]) && found == w.kids[id].tools
    case AddUndoing(s, id) => s == server ==> AddedBy(w, t, id)
    case AddingTools(s, id, found, done) =>
      s == server ==> AddedBy(w, t, id) && Settled(w.kids[id]) && found == w.kids[id].tools && done <= |found|
    case CrashNoted(s, id) => s == server ==> id < |w.kids| && w.kids[id].status == Crashed
    case CrashDecided(s, id, _) => s == server ==> id < |w.kids| && w.kids[id].status == Crashed
    case _ => true
  }

  predicate ClearedOk(w: World, server: string) {
    && (forall id :: id in w.h.cleared ==> id < |w.kids|) && (forall id :: id in w.h.swept ==> id < |w.kids|)
    && (forall id :: 0 <= id < |w.kids| && w.kids[id].config.name == server ==>
         && (id in w.h.cleared ==> id in w.h.swept || id in w.h.dropped)
         && (id in w.h.swept ==> id in w.h.cleared && w.kids[id].status == Crashed))
  }

  ghost predicate Account(w: World, server: string) {
    && (forall id :: 0 <= id < |w.kids| && w.kids[id].config.name == server ==> KidAcc(w, server, id))
    && (forall name :: OfServer(name, server) && name in w.table ==> EntryAcc(w, server, name))
    && (forall t :: 0 <= t < |w.threads| ==> ThreadAcc(w, server, t, w.threads[t]))
    && ClearedOk(w, server)
  }

  // -- Steps that leave the account of this server alone --

  /** The thread is adding a child of this server, or about to take the tools of one. */
  predicate Holds(pc: Pc, server: string) {
    (pc.AddStarting? || pc.AddChecking? || pc.AddUndoing? || pc.AddingTools? || pc.RemovingTools?) && pc.server == server
  }

  predicate KidKept(kid: Kid, kid': Kid, server: string) {
    && kid'.config == kid.config
    && (kid.config.name == server ==> (Settled(kid) ==> Settled(kid') && kid'.tools == kid.tools) && (kid.status == Crashed ==> kid'.status == Crashed))
  }

  predicate SameHistory(h: History, h': History, id: ChildId) {
    && (id in h'.dropped <==> id in h.dropped) && (id in h'.cleared <==> id in h.cleared) && (id in h'.swept <==> id in h.swept)
    && (id in h'.adders <==> id in h.adders) && (id in h.adders ==> h'.adders[id] == h.adders[id])
    && (id in h'.removers <==> id in h.removers) && (id in h.removers ==> h'.removers[id] == h.removers[id])
  }

  /** As far as this server goes the two worlds are the same, but for a child's progress. */
  ghost predicate SameFor(w: World, w': World, server: string) {
    && Lookup(w'.children, server) == Lookup(w.children, server)
    && (forall name :: OfServer(name, server) ==>
         Lookup(w'.table, name) == Lookup(w.table, name) && Lookup(w'.h.owners, name) == Lookup(w.h.owners, name))
    && |w.kids| <= |w'.kids|
    && (forall id :: 0 <= id < |w.kids| ==> KidKept(w.kids[id], w'.kids[id], server))
    && (forall id :: |w.kids| <= id < |w'.kids| ==> w'.kids[id].config.name != server)
    && (forall id :: 0 <= id < |w.kids| && w.kids[id].config.name == server ==> SameHistory(w.h, w'.h, id))
    && (forall id :: id in w'.h.cleared ==> id < |w'.kids|) && (forall id :: id in w'.h.swept ==> id < |w'.kids|)
  }

  /** Only a thread that holds nothing of this server has moved, or one has been added. */
  ghost predicate BystandersMove(w: World, w': World, server: string) {
    && |w.threads| <= |w'.threads|
    && (forall t :: 0 <= t < |w.threads| ==> w'.threads[t] == w.threads[t] || (w.threads[t] != Finished && !Holds(w.threads[t], server)))
    && (forall t :: 0 <= t < |w'.threads| ==>
         (t < |w.threads| && w'.threads[t] == w.threads[t]) || (ThreadAcc(w', server, t, w'.threads[t]) && !Holds(w'.threads[t], server)))
  }

  predicate ThreadsOk(w: World) {
    forall t :: 0 <= t < |w.threads| ==> PcOk(w.kids, w.threads[t])
  }

  lemma ContributionOfServer(server: string, tools: seq<Tool>)
    requires Valid(server)
    ensures forall name :: name in Contribution(server, tools) ==> OfServer(name, server)
  {
    forall name | name in Contribution(server, tools) ensures OfServer(name, server) {
      ContributionServer(server, tools, name);
    }
  }

  lemma KidStays(w: World, w': World, server: string, id: ChildId)
    requires Valid(server) && SameFor(w, w', server) && BystandersMove(w, w', server)
    requires id < |w.kids| && w.kids[id].config.name == server && KidAcc(w, server, id)
    ensures KidAcc(w', server, id)
  {
    assert SameHistory(w.h, w'.h, id) && KidKept(w.kids[id], w'.kids[id], server);
    var pc := w.threads[w.h.adders[id]];
    assert w'.threads[w.h.adders[id]] == pc;
    if id in w.h.dropped && id !in w.h.cleared && !AwaitsRemoval(w, server, id) {
      assert OwnsNothing(w', server, id) by {
        forall name | OfServer(name, server) && name in w'.table ensures Lookup(w'.h.owners, name) != Some(id) {
          assert Lookup(w'.table, name) == Lookup(w.table, name);
        }
      }
    }
    if Lookup(w.children, server) == Some(id) && id !in w.h.cleared {
      assert Registered(pc, w'.kids[id]) == Registered(pc, w.kids[id]);
      ContributionOfServer(server, Registered(pc, w.kids[id]));
      assert Present(w', server, id, Registered(pc, w.kids[id]));
    }
  }

  lemma SameKeepsAccount(w: World, w': World, server: string)
    requires Valid(server) && Account(w, server) && SameFor(w, w', server) && BystandersMove(w, w', server) && ThreadsOk(w)
    ensures Account(w', server)
  {
    forall id | 0 <= id < |w'.kids| && w'.kids[id].config.name == server ensures KidAcc(w', server, id) {
      assert id < |w.kids| && KidKept(w.kids[id], w'.kids[id], server);
      KidStays(w, w', server, id);
    }
    forall name | OfServer(name, server) && name in w'.table ensures EntryAcc(w', server, name) {
      assert Lookup(w'.table, name) == Lookup(w.table, name) && EntryAcc(w, server, name);
      var o := w.h.owners[name];
      assert Lookup(w'.h.owners, name) == Some(o) && SameHistory(w.h, w'.h, o) && KidKept(w.kids[o], w'.kids[o], server);
    }
    forall t | 0 <= t < |w'.threads| ensures ThreadAcc(w', server, t, w'.threads[t]) {
      if t < |w.threads| && w'.threads[t] == w.threads[t] {
        ThreadStays(w, w', server, t);
      }
    }
    forall id | 0 <= id < |w'.kids| && w'.kids[id].config.name == server
      ensures (id in w'.h.cleared ==> id in w'.h.swept || id in w'.h.dropped)
           && (id in w'.h.swept ==> id in w'.h.cleared && w'.kids[id].status == Crashed)
    {
      assert KidKept(w.kids[id], w'.kids[id], server) && SameHistory(w.h, w'.h, id);
    }
  }

  lemma ThreadStays(w: World, w': World, server: string, t: nat)
    requires SameFor(w, w', server) && t < |w.threads| && ThreadAcc(w, server, t, w.threads[t]) && PcOk(w.kids, w.threads[t])
    ensures ThreadAcc(w', server, t, w.threads[t])
  {
  }

  /** A turn that touches neither registry, table, nor the account of anybody. */
  predicate Idles(w: World, pc: Pc) {
    match pc
    case AddCalled(config) => !Valid(config.name) || config.name in w.children
    case RemoveCalled(server, _) => server !in w.children
    case CrashDecided(_, _, isCurrent) => !isCurrent
    case _ => pc.ReloadCalled? || pc.CrashNoted? || pc.RemoveStopping? || pc.ToolCalled? || pc.ToolBound? || pc.ToolRouted?
  }

  lemma IdleTurnKeeps(w: World, t: nat)
    requires t < |w.threads| && Idles(w, w.threads[t]) && GoNext(w, t).Some?
    ensures var w' := GoNext(w, t).value;
      w'.children == w.children && w'.table == w.table && w'.kids == w.kids && w'.h == w.h.(stopped := w'.h.stopped)
  {
  }

  lemma IdleTurnMoves(w: World, t: nat, server: string)
    requires t < |w.threads| && Idles(w, w.threads[t]) && GoNext(w, t).Some? && |GoNext(w, t).value.threads| == |w.threads|
    requires ThreadAcc(w, server, t, w.threads[t])
    ensures var pc' := GoNext(w, t).value.threads[t]; !Holds(pc', server) && ThreadAcc(w, server, t, pc')
  {
  }

  lemma IdleTurn(w: World, t: nat, server: string)
    requires t < |w.threads| && Idles(w, w.threads[t]) && GoNext(w, t).Some? && ThreadAcc(w, server, t, w.threads[t])
    requires ClearedOk(w, server)
    ensures SameFor(w, GoNext(w, t).value, server) && BystandersMove(w, GoNext(w, t).value, server)
  {
    TurnMoves(w, t);
    IdleTurnKeeps(w, t);
    IdleTurnMoves(w, t, server);
  }

  /** A turn that works for another server. */
  predicate ForAnother(pc: Pc, server: string) {
    ServerOf(pc).Some? && ServerOf(pc) != Some(server) && !pc.CrashNoted?
  }

  lemma OthersTurnOwners(w: World, t: nat, server: string)
    requires t < |w.threads| && ForAnother(w.threads[t], server) && GoNext(w, t).Some? && PcOk(w.kids, w.threads[t])
    ensures forall name :: OfServer(name, server) ==> Lookup(GoNext(w, t).value.h.owners, name) == Lookup(w.h.owners, name)
  {
    if w.threads[t].AddingTools? && w.threads[t].done < |w.threads[t].found| {
      SplitPrefix(w.threads[t].server, w.threads[t].found[w.threads[t].done].name);
    } else {
      assert GoNext(w, t).value.h.owners == w.h.owners;
    }
  }

  lemma OthersTurnHistory(w: World, t: nat, server: string, id: ChildId)
    requires t < |w.threads| && ForAnother(w.threads[t], server) && GoNext(w, t).Some? && PcOk(w.kids, w.threads[t]) && ChildrenNamed(w)
    requires id < |w.kids| && w.kids[id].config.name == server
    ensures SameHistory(w.h, GoNext(w, t).value.h, id)
  {
  }

  lemma OthersTurnMoves(w: World, t: nat, server: string)
    requires t < |w.threads| && ForAnother(w.threads[t], server) && GoNext(w, t).Some? && |GoNext(w, t).value.threads| == |w.threads|
    ensures var w' := GoNext(w, t).value;
      && !Holds(w'.threads[t], server) && ThreadAcc(w', server, t, w'.threads[t])
  {
  }

  lemma OthersTurnKids(w: World, t: nat, server: string)
    requires t < |w.threads| && ForAnother(w.threads[t], server) && GoNext(w, t).Some? && PcOk(w.kids, w.threads[t]) && ClearedOk(w, server)
    ensures var w' := GoNext(w, t).value;
      && (forall id :: |w.kids| <= id < |w'.kids| ==> w'.kids[id].config.name != server)
      && (forall id :: id in w'.h.cleared ==> id < |w.kids|) && (forall id :: id in w'.h.swept ==> id < |w.kids|)
  {
  }

  lemma OthersTurn(w: World, t: nat, server: string)
    requires t < |w.threads| && ForAnother(w.threads[t], server) && GoNext(w, t).Some? && PcOk(w.kids, w.threads[t])
    requires ClearedOk(w, server) && ChildrenNamed(w)
    ensures SameFor(w, GoNext(w, t).value, server) && BystandersMove(w, GoNext(w, t).value, server)
  {
    GoLeavesOthers(w, t, server);
    TurnMoves(w, t);
    OthersTurnOwners(w, t, server);
    OthersTurnMoves(w, t, server);
    OthersTurnKids(w, t, server);
    forall id | 0 <= id < |w.kids| && w.kids[id].config.name == server ensures SameHistory(w.h, GoNext(w, t).value.h, id) {
      OthersTurnHistory(w, t, server, id);
    }
  }

  // -- Steps for this server --

  /** A step that moves thread t and may register or drop a child, but leaves the table alone. */
  ghost predicate TableKept(w: World, w': World, t: nat) {
    && t < |w.threads| && |w'.threads| == |w.threads| && w'.threads == w.threads[t := w'.threads[t]]
    && w'.table == w.table && w'.h.owners == w.h.owners && w'.h.cleared == w.h.cleared && w'.h.swept == w.h.swept
    && |w.kids| <= |w'.kids| && (forall id :: 0 <= id < |w.kids| ==> w'.kids[id] == w.kids[id])
    && (forall id :: 0 <= id < |w.kids| && id in w.h.adders ==> id in w'.h.adders && w'.h.adders[id] == w.h.adders[id])
    && w.h.dropped <= w'.h.dropped
  }

  /** What is left to show of such a step: the children, and the thread that moved. */
  lemma TableKeptAccount(w: World, w': World, t: nat, server: string)
    requires Account(w, server) && TableKept(w, w', t)
    requires w.threads[t] != Finished && (w.threads[t].AddingTools? ==> w'.threads[t] == Finished)
    requires forall id :: 0 <= id < |w'.kids| && w'.kids[id].config.name == server ==>
      KidAcc(w', server, id) && (|w.kids| <= id ==> id !in w'.h.cleared && id !in w'.h.swept)
    requires ThreadAcc(w', server, t, w'.threads[t])
    ensures Account(w', server)
  {
    forall name | OfServer(name, server) && name in w'.table ensures EntryAcc(w', server, name) {
      assert EntryAcc(w, server, name);
    }
    forall k | 0 <= k < |w'.threads| ensures ThreadAcc(w', server, k, w'.threads[k]) {
      if k != t {
        assert ThreadAcc(w, server, k, w.threads[k]);
      }
    }
  }

  /** The account of a child that a step leaving the table alone does not concern. */
  lemma KidUntouched(w: World, w': World, t: nat, server: string, id: ChildId)
    requires TableKept(w, w', t) && id < |w.kids| && KidAcc(w, server, id)
    requires w.h.adders[id] != t && (AwaitsRemoval(w, server, id) ==> w.h.removers[id] != t)
    requires Lookup(w'.children, server) == Some(id) ==> Lookup(w.children, server) == Some(id)
    requires Lookup(w.children, server) == Some(id) ==> Lookup(w'.children, server) == Some(id)
    requires (id in w'.h.dropped <==> id in w.h.dropped)
    requires id in w.h.removers ==> id in w'.h.removers && w'.h.removers[id] == w.h.removers[id]
    ensures KidAcc(w', server, id)
  {
    if Present(w, server, id, Registered(w.threads[w.h.adders[id]], w.kids[id])) {
      assert Present(w', server, id, Registered(w.threads[w.h.adders[id]], w.kids[id]));
    }
  }

  lemma EnterKeepsAccount(w: World, t: nat, config: Config)
    requires Valid(config.name) && Account(w, config.name) && RegistrationInv(w) && config.name !in w.children
    requires t < |w.threads| && w.threads[t] == AddCalled(config)
    ensures Account(AddEnter(w, t, config), config.name)
  {
    var w', server := AddEnter(w, t, config), config.name;
    assert TableKept(w, w', t);
    forall id | 0 <= id < |w'.kids| && w'.kids[id].config.name == server ensures KidAcc(w', server, id) {
      if id < |w.kids| {
        assert KidAcc(w, server, id);
        KidUntouched(w, w', t, server, id);
      } else {
        assert Present(w', server, id, []);
      }
    }
    TableKeptAccount(w, w', t, server);
  }

  /** Start returns, or its result is looked at; nothing has been registered yet. */
  lemma AddMovesKeepsAccount(w: World, t: nat, server: string, id: ChildId, pc: Pc)
    requires Account(w, server) && t < |w.threads|
    requires (w.threads[t].AddStarting? || w.threads[t].AddChecking?) && Adds(w.threads[t], server, id)
    requires Adds(pc, server, id) && ThreadAcc(w, server, t, pc) && (pc.AddingTools? ==> pc.done == 0)
    ensures Account(Move(w, t, pc), server)
  {
    var w' := Move(w, t, pc);
    forall i | 0 <= i < |w'.kids| && w'.kids[i].config.name == server ensures KidAcc(w', server, i) {
      assert KidAcc(w, server, i);
      if w.h.adders[i] == t {
        assert Registered(pc, w.kids[i]) == [];
      } else {
        KidUntouched(w, w', t, server, i);
      }
    }
    TableKeptAccount(w, w', t, server);
  }

  /** An undo that takes its own child's registration, or none. */
  lemma UndoKeepsAccount(w: World, t: nat, server: string, id: ChildId)
    requires Account(w, server) && RegistrationInv(w) && t < |w.threads| && w.threads[t] == AddUndoing(server, id)
    requires id < |w.kids| && w.kids[id].config.name == server && !Hits(w, Go(t), server)
    ensures Account(GoNext(w, t).value, server)
  {
    var w' := GoNext(w, t).value;
    assert RegistrationOk(w, w.threads[t]) && ThreadAcc(w, server, t, w.threads[t]);
    forall i | 0 <= i < |w'.kids| && w'.kids[i].config.name == server ensures KidAcc(w', server, i) {
      assert KidAcc(w, server, i);
      if i == id {
        OwnsNothingYet(w, server, id);
        assert OwnsNothing(w', server, id);
      } else {
        KidUntouched(w, w', t, server, i);
      }
    }
    TableKeptAccount(w, w', t, server);
  }

  /** As long as the thread that adds a child has not come to its loop, no entry is that child's. */
  lemma OwnsNothingYet(w: World, server: string, id: ChildId)
    requires Account(w, server) && id in w.h.adders && w.h.adders[id] < |w.threads| && w.threads[w.h.adders[id]].AddUndoing?
    ensures OwnsNothing(w, server, id)
  {
    forall name | OfServer(name, server) && name in w.table ensures Lookup(w.h.owners, name) != Some(id) {
      assert EntryAcc(w, server, name);
    }
  }

  lemma RemoveEnterKeepsAccount(w: World, t: nat, server: string, reload: Option<Config>)
    requires Account(w, server) && RegistrationInv(w) && ChildrenNamed(w) && server in w.children
    requires t < |w.threads| && w.threads[t] == RemoveCalled(server, reload)
    ensures Account(GoNext(w, t).value, server)
  {
    var w', id := GoNext(w, t).value, w.children[server];
    forall i | 0 <= i < |w'.kids| && w'.kids[i].config.name == server ensures KidAcc(w', server, i) {
      assert KidAcc(w, server, i);
      if i == id {
        assert AwaitsRemoval(w', server, id);
      } else {
        KidUntouched(w, w', t, server, i);
      }
    }
    TableKeptAccount(w, w', t, server);
  }

  /** The loop is over. */
  lemma LoopEndsKeepsAccount(w: World, t: nat, server: string, id: ChildId, found: seq<Tool>)
    requires Account(w, server) && t < |w.threads| && w.threads[t] == AddingTools(server, id, found, |found|)
    ensures Account(GoNext(w, t).value, server)
  {
    var w' := GoNext(w, t).value;
    assert ThreadAcc(w, server, t, w.threads[t]);
    assert found[..|found|] == found;
    forall i | 0 <= i < |w'.kids| && w'.kids[i].config.name == server ensures KidAcc(w', server, i) {
      assert KidAcc(w, server, i);
      if w.h.adders[i] == t {
        assert Registered(Finished, w.kids[i]) == Registered(w.threads[t], w.kids[i]);
        assert Present(w, server, i, found) ==> Present(w', server, i, found);
        assert OwnsNothing(w, server, i) ==> OwnsNothing(w', server, i);
      } else {
        KidUntouched(w, w', t, server, i);
      }
    }
    TableKeptAccount(w, w', t, server);
  }

  /** One turn of the loop, for a child whose tools have not been taken. */
  lemma RegisterKeepsAccount(w: World, t: nat, server: string, id: ChildId, found: seq<Tool>, done: nat)
    requires Valid(server) && Account(w, server) && t < |w.threads| && w.threads[t] == AddingTools(server, id, found, done) && done < |found|
    requires id < |w.kids| && w.kids[id].config.name == server && !Hits(w, Go(t), server)
    ensures Account(GoNext(w, t).value, server)
  {
    var w', name := GoNext(w, t).value, PrefixTool(server, found[done].name);
    assert ThreadAcc(w, server, t, w.threads[t]) && KidAcc(w, server, id);
    SplitPrefix(server, found[done].name);
    assert PrefixedNames(server, found)[done] == name;
    ContributionNames(server, found, name);
    OwnKidKept(w, w', t, server, id, found, done);
    forall i | 0 <= i < |w'.kids| && w'.kids[i].config.name == server ensures KidAcc(w', server, i) {
      assert KidAcc(w, server, i);
      if i != id {
        OtherKidKept(w, w', t, server, id, i, name);
      }
    }
    EntriesKeptByRegistering(w, w', t, server, id, name);
    ThreadsKeptByRegistering(w, w', t, server, id);
  }

  lemma ThreadsKeptByRegistering(w: World, w': World, t: nat, server: string, id: ChildId)
    requires Account(w, server) && t < |w.threads| && w.threads[t].AddingTools? && Adds(w.threads[t], server, id)
    requires w.threads[t].done < |w.threads[t].found| && GoNext(w, t) == Some(w')
    ensures forall k :: 0 <= k < |w'.threads| ==> ThreadAcc(w', server, k, w'.threads[k])
  {
    forall k | 0 <= k < |w'.threads| ensures ThreadAcc(w', server, k, w'.threads[k]) {
      assert ThreadAcc(w, server, k, w.threads[k]);
    }
  }

  lemma EntriesKeptByRegistering(w: World, w': World, t: nat, server: string, id: ChildId, name: string)
    requires Account(w, server) && t < |w.threads| && w.threads[t].AddingTools? && Adds(w.threads[t], server, id)
    requires w.threads[t].done < |w.threads[t].found| && GoNext(w, t) == Some(w') && name == PrefixTool(server, w.threads[t].found[w.threads[t].done].name)
    requires id < |w.kids| && w.kids[id].config.name == server && id !in w.h.cleared && name in Contribution(server, w.kids[id].tools)
    ensures forall n :: OfServer(n, server) && n in w'.table ==> EntryAcc(w', server, n)
  {
    assert ThreadAcc(w, server, t, w.threads[t]);
    forall n | OfServer(n, server) && n in w'.table ensures EntryAcc(w', server, n) {
      if n != name {
        assert EntryAcc(w, server, n);
      }
    }
  }

  lemma OwnKidKept(w: World, w': World, t: nat, server: string, id: ChildId, found: seq<Tool>, done: nat)
    requires t < |w.threads| && w.threads[t] == AddingTools(server, id, found, done) && done < |found| && GoNext(w, t) == Some(w')
    requires id < |w.kids| && w.kids[id].config.name == server && AddedBy(w, t, id) && id !in w.h.cleared && KidAcc(w, server, id)
    ensures KidAcc(w', server, id)
  {
    if Lookup(w.children, server) == Some(id) {
      RegisteredIsPresent(w, w', t, server, id, found, done);
    }
  }

  lemma RegisteredIsPresent(w: World, w': World, t: nat, server: string, id: ChildId, found: seq<Tool>, done: nat)
    requires t < |w.threads| && w.threads[t] == AddingTools(server, id, found, done) && done < |found|
    requires GoNext(w, t) == Some(w') && Present(w, server, id, found[..done])
    ensures Present(w', server, id, found[..done + 1])
  {
    assert found[..done + 1][..done] == found[..done] && Last(found[..done + 1]) == found[done];
    forall name | name in Contribution(server, found[..done + 1])
      ensures Lookup(w'.table, name) == Some(Contribution(server, found[..done + 1])[name]) && Lookup(w'.h.owners, name) == Some(id)
    {
      if name != PrefixTool(server, found[done].name) {
        assert Lookup(w.table, name) == Some(Contribution(server, found[..done])[name]);
      }
    }
  }

  /** A registered child keeps its entries, and a child without entries gets none, when one for id is put in. */
  lemma OtherKidKept(w: World, w': World, t: nat, server: string, id: ChildId, i: ChildId, name: string)
    requires Account(w, server) && t < |w.threads| && w.threads[t].AddingTools? && Adds(w.threads[t], server, id)
    requires w.threads[t].done < |w.threads[t].found| && GoNext(w, t) == Some(w') && name == PrefixTool(server, w.threads[t].found[w.threads[t].done].name)
    requires !Hits(w, Go(t), server) && i != id && i < |w.kids| && w.kids[i].config.name == server && KidAcc(w, server, i)
    ensures KidAcc(w', server, i)
  {
    assert ThreadAcc(w, server, t, w.threads[t]);
    var tools := Registered(w.threads[w.h.adders[i]], w.kids[i]);
    assert Lookup(w.children, server) == Some(i) && Present(w, server, i, tools) ==> Present(w', server, i, tools);
    assert OwnsNothing(w, server, i) ==> OwnsNothing(w', server, i);
  }

  /** A removal of tools, all of which are this child's own. */
  ghost predicate TakesOwn(w: World, w': World, t: nat, server: string, id: ChildId) {
    && id < |w.kids| && w.kids[id].config.name == server
    && t < |w.threads| && |w'.threads| == |w.threads| && w'.threads == w.threads[t := w'.threads[t]]
    && w'.kids == w.kids && w'.children == w.children
    && w'.table == RemoveTools(w.table, PrefixedNames(server, w.kids[id].tools)) && !TakesAnothers(w, server, id)
    && w'.h == w.h.(cleared := w.h.cleared + {id}, swept := w'.h.swept)
  }

  lemma TakenEntriesKept(w: World, w': World, t: nat, server: string, id: ChildId, name: string)
    requires Account(w, server) && TakesOwn(w, w', t, server, id) && OfServer(name, server)
    requires w.threads[t] != Finished && !w.threads[t].AddingTools?
    ensures name in w'.table ==> EntryAcc(w', server, name)
    ensures name in w.table && name in w.h.owners && w.h.owners[name] != id ==> name in w'.table && w'.table[name] == w.table[name]
  {
    if name in w.table {
      assert EntryAcc(w, server, name);
      ContributionNames(server, w.kids[id].tools, name);
    }
  }

  lemma TakenKidKept(w: World, w': World, t: nat, server: string, id: ChildId, i: ChildId)
    requires Valid(server) && Account(w, server) && TakesOwn(w, w', t, server, id)
    requires w.threads[t].CrashDecided? || (w.threads[t].RemovingTools? && w.threads[t].id == id)
    requires i < |w.kids| && w.kids[i].config.name == server && KidAcc(w, server, i)
    ensures KidAcc(w', server, i)
  {
    if i != id {
      var tools := Registered(w.threads[w.h.adders[i]], w.kids[i]);
      ContributionOfServer(server, tools);
      if Present(w, server, i, tools) {
        forall name | name in Contribution(server, tools)
          ensures Lookup(w'.table, name) == Some(Contribution(server, tools)[name]) && Lookup(w'.h.owners, name) == Some(i)
        {
          assert Lookup(w.table, name) == Some(Contribution(server, tools)[name]);
          TakenEntriesKept(w, w', t, server, id, name);
        }
        assert Present(w', server, i, tools);
      }
      assert OwnsNothing(w, server, i) ==> OwnsNothing(w', server, i);
    }
  }

  lemma TakingKeepsAccount(w: World, w': World, t: nat, server: string, id: ChildId)
    requires Valid(server) && Account(w, server) && TakesOwn(w, w', t, server, id)
    requires (w.threads[t].CrashDecided? && w'.h.swept == w.h.swept + {id} && w.kids[id].status == Crashed)
          || (w.threads[t].RemovingTools? && w.threads[t].id == id && w'.h.swept == w.h.swept && id in w.h.dropped)
    requires !Holds(w'.threads[t], server) && ThreadAcc(w', server, t, w'.threads[t])
    ensures Account(w', server)
  {
    forall i | 0 <= i < |w'.kids| && w'.kids[i].config.name == server ensures KidAcc(w', server, i) {
      assert KidAcc(w, server, i);
      TakenKidKept(w, w', t, server, id, i);
    }
    forall name | OfServer(name, server) && name in w'.table ensures EntryAcc(w', server, name) {
      TakenEntriesKept(w, w', t, server, id, name);
    }
    forall k | 0 <= k < |w'.threads| ensures ThreadAcc(w', server, k, w'.threads[k]) {
      if k != t {
        assert ThreadAcc(w, server, k, w.threads[k]);
      }
    }
  }

  // -- Every step --

  lemma AddTurnKeepsAccount(w: World, t: nat, server: string)
    requires Known(w) && Account(w, server) && t < |w.threads| && ServerOf(w.threads[t]) == Some(server)
    requires w.threads[t].AddCalled? || w.threads[t].AddChecking? || w.threads[t].AddUndoing? || w.threads[t].AddingTools?
    requires !Idles(w, w.threads[t]) && !Hits(w, Go(t), server) && GoNext(w, t).Some?
    ensures Account(GoNext(w, t).value, server)
  {
    assert PcOk(w.kids, w.threads[t]) && ThreadAcc(w, server, t, w.threads[t]);
    match w.threads[t]
    case AddCalled(config) => EnterKeepsAccount(w, t, config);
    case AddChecking(_, id, _) => AddMovesKeepsAccount(w, t, server, id, GoNext(w, t).value.threads[t]);
    case AddUndoing(_, id) => UndoKeepsAccount(w, t, server, id);
    case AddingTools(_, id, found, done) =>
      if done < |found| { RegisterKeepsAccount(w, t, server, id, found, done); } else { LoopEndsKeepsAccount(w, t, server, id, found); }
  }

  lemma TakeTurnKeepsAccount(w: World, t: nat, server: string)
    requires Known(w) && Account(w, server) && t < |w.threads| && ServerOf(w.threads[t]) == Some(server)
    requires w.threads[t].RemovingTools? || w.threads[t].CrashDecided?
    requires !Idles(w, w.threads[t]) && !Hits(w, Go(t), server) && GoNext(w, t).Some?
    ensures Account(GoNext(w, t).value, server)
  {
    assert PcOk(w.kids, w.threads[t]) && ThreadAcc(w, server, t, w.threads[t]) && RegistrationOk(w, w.threads[t]);
    TakingKeepsAccount(w, GoNext(w, t).value, t, server, w.threads[t].id);
  }

  lemma TurnKeepsAccount(w: World, t: nat, server: string)
    requires Valid(server) && Known(w) && Account(w, server) && t < |w.threads| && !Hits(w, Go(t), server) && GoNext(w, t).Some?
    ensures Account(GoNext(w, t).value, server)
  {
    var pc := w.threads[t];
    assert PcOk(w.kids, pc) && ThreadAcc(w, server, t, pc);
    if Idles(w, pc) {
      IdleTurn(w, t, server);
      SameKeepsAccount(w, GoNext(w, t).value, server);
    } else if ForAnother(pc, server) {
      OthersTurn(w, t, server);
      SameKeepsAccount(w, GoNext(w, t).value, server);
    } else if pc.RemoveCalled? {
      RemoveEnterKeepsAccount(w, t, server, pc.reload);
    } else if pc.RemovingTools? || pc.CrashDecided? {
      TakeTurnKeepsAccount(w, t, server);
    } else {
      AddTurnKeepsAccount(w, t, server);
    }
  }

  lemma BeginKeepsAccount(w: World, pc: Pc, server: string)
    requires Valid(server) && ThreadsOk(w) && Account(w, server) && MayBegin(w, pc) && Honest(w, Begin(pc), server)
    ensures Account(Step(w, Begin(pc)).value, server)
  {
    var w' := Step(w, Begin(pc)).value;
    assert !Holds(pc, server) && ThreadAcc(w', server, |w.threads|, pc);
    assert SameFor(w, w', server);
    SameKeepsAccount(w, w', server);
  }

  lemma ChangeKeepsAccount(w: World, a: Action, server: string)
    requires Valid(server) && ThreadsOk(w) && Account(w, server) && Honest(w, a, server) && a.KidChanges? && Step(w, a).Some?
    ensures Account(Step(w, a).value, server)
  {
    var w' := Step(w, a).value;
    assert forall id :: 0 <= id < |w.kids| ==> KidKept(w.kids[id], w'.kids[id], server);
    assert SameFor(w, w', server);
    SameKeepsAccount(w, w', server);
  }

  lemma ReturnKeepsAccount(w: World, t: nat, found: Option<seq<Tool>>, server: string)
    requires Valid(server) && Known(w) && Account(w, server) && Honest(w, StartReturns(t, found), server) && Step(w, StartReturns(t, found)).Some?
    ensures Account(Step(w, StartReturns(t, found)).value, server)
  {
    var w' := Step(w, StartReturns(t, found)).value;
    assert PcOk(w.kids, w.threads[t]) && ThreadAcc(w, server, t, w.threads[t]);
    if w.threads[t].server == server {
      AddMovesKeepsAccount(w, t, server, w.threads[t].id, w'.threads[t]);
    } else {
      ReturnElsewhere(w, t, found, server);
    }
  }

  lemma ReturnElsewhere(w: World, t: nat, found: Option<seq<Tool>>, server: string)
    requires Valid(server) && ThreadsOk(w) && Account(w, server) && t < |w.threads| && w.threads[t].AddStarting? && w.threads[t].server != server
    ensures Account(Step(w, StartReturns(t, found)).value, server)
  {
    var w' := Step(w, StartReturns(t, found)).value;
    assert SameFor(w, w', server);
    SameKeepsAccount(w, w', server);
  }

  lemma StepKeepsAccount(w: World, a: Action, server: string)
    requires Valid(server) && Known(w) && Account(w, server) && Honest(w, a, server) && !Hits(w, a, server) && Step(w, a).Some?
    ensures Account(Step(w, a).value, server)
  {
    match a
    case Go(t) => TurnKeepsAccount(w, t, server);
    case StartReturns(t, found) => ReturnKeepsAccount(w, t, found, server);
    case Begin(pc) => BeginKeepsAccount(w, pc, server);
    case KidChanges(_, _, _, _) => ChangeKeepsAccount(w, a, server);
  }

  // -- Whole runs --

  lemma {:induction false} HarmlessKeepsAccount(w: World, labels: seq<Action>, server: string)
    requires Valid(server) && Known(w) && Account(w, server) && Harmless(w, labels, server)
    ensures Run(Step, w, labels).Some?
    ensures Known(Run(Step, w, labels).value) && Account(Run(Step, w, labels).value, server)
    decreases |labels|
  {
    if labels != [] {
      StepKeepsKnown(w, labels[0]);
      StepKeepsAccount(w, labels[0], server);
      HarmlessKeepsAccount(Step(w, labels[0]).value, labels[1..], server);
    }
  }

  lemma InitAccount(server: string)
    ensures Known(INIT) && Account(INIT, server)
  {
    ManagementSeparate();
    InitInv(ManagementTools());
  }

  /** What the table holds of this server, what the registry says it should, and that a running child is not left out. */
  ghost predicate Agrees(w: World, server: string) {
    && (server in w.children ==> w.children[server] < |w.kids|)
    && (forall name :: OfServer(name, server) ==> Lookup(w.table, name) == Lookup(Expected(w, server), name))
    && (server in w.children && w.kids[w.children[server]].status == Running ==> w.children[server] !in w.h.swept)
  }

  /** When nothing is under way, an entry is that of the registered child. */
  lemma EntryOfRegistered(w: World, server: string, name: string)
    requires Account(w, server) && Free(w, server) && OfServer(name, server) && name in w.table
    ensures Lookup(w.table, name) == Lookup(Expected(w, server), name)
  {
    assert EntryAcc(w, server, name);
    var o := w.h.owners[name];
    assert KidAcc(w, server, o);
    assert w.threads[w.h.adders[o]] == Finished;
    assert !AwaitsRemoval(w, server, o);
    assert Lookup(w.children, server) == Some(o);
  }

  lemma FreeAgrees(w: World, server: string)
    requires Known(w) && Account(w, server) && Free(w, server)
    ensures Agrees(w, server)
  {
    assert server in w.children ==> KidNamed(w.kids, w.children[server], server);
    forall name | OfServer(name, server) ensures Lookup(w.table, name) == Lookup(Expected(w, server), name) {
      if name in w.table {
        EntryOfRegistered(w, server, name);
      } else if name in Expected(w, server) {
        assert KidAcc(w, server, w.children[server]);
        assert w.threads[w.h.adders[w.children[server]]] == Finished;
      }
    }
  }

  /** No tool and no child has an invalid server name. */
  lemma InvalidAgrees(w: World, server: string)
    requires Known(w) && !Valid(server)
    ensures Agrees(w, server)
  {
    forall name | OfServer(name, server) ensures name !in w.table {
      if name in w.table {
        assert EntryOk(name, w.table[name]);
        SplitPrefix(w.table[name].binding.server, w.table[name].binding.tool);
      }
    }
  }

  /**
   * In every run, however calls and callbacks for this server and any other overlap: if no step has hit another
   * child's registration or tools, then whenever nothing for this server is under way the table holds of it
   * exactly the tools of its registered child, up to the moment that child's crash callback has run.
   */
  lemma AgreesUnlessHit(labels: seq<Action>, server: string)
    requires Harmless(INIT, labels, server)
    ensures Run(Step, INIT, labels).Some?
    ensures Free(Run(Step, INIT, labels).value, server) ==> Agrees(Run(Step, INIT, labels).value, server)
  {
    InitAccount(server);
    if Valid(server) {
      HarmlessKeepsAccount(INIT, labels, server);
      var w := Run(Step, INIT, labels).value;
      if Free(w, server) {
        FreeAgrees(w, server);
      }
    } else {
      HarmlessRuns(INIT, labels, server);
      InvalidAgrees(Run(Step, INIT, labels).value, server);
    }
  }

  lemma {:induction false} HarmlessRuns(w: World, labels: seq<Action>, server: string)
    requires Known(w) && Harmless(w, labels, server)
    ensures Run(Step, w, labels).Some? && Known(Run(Step, w, labels).value)
    decreases |labels|
  {
    if labels != [] {
      StepKeepsKnown(w, labels[0]);
      HarmlessRuns(Step(w, labels[0]).value, labels[1..], server);
    }
  }
}
