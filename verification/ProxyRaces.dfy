/** Where overlapping steps for one server defeat the proxy, each race with its exact condition and a run. */
module ProxyRaces {
  import opened Prelude
  import opened Namespace
  import opened ChildState
  import opened ToolTable
  import opened Registry
  import opened ProxyInterleaving
  import opened ProxySafety
  import opened ProxyRefinement
  import opened ProxyRegistration

  // -- A failed add that outlives its child --

  ghost predicate Unregisters(w: World, w': World, id: ChildId) {
    exists server :: Lookup(w.children, server) == Some(id) && Lookup(w'.children, server) != Some(id)
  }

  /**
   * The deletes of lines 141 and 149 go by name. They unregister a child that is not the add's own if and only if
   * the own registration has been taken and the name given out again: if the name then is another child's.
   */
  lemma UndoHitsAnotherIff(w: World, t: nat, server: string, id: ChildId)
    requires Reachable(w) && t < |w.threads| && w.threads[t] == AddUndoing(server, id)
    ensures Step(w, Go(t)).Some?
    ensures var w' := Step(w, Go(t)).value;
      && ((exists c :: c != id && Unregisters(w, w', c)) <==> id in w.h.dropped && server in w.children)
      && ((exists c :: c != id && Unregisters(w, w', c)) <==> Lookup(w.children, server) != None && Lookup(w.children, server) != Some(id))
  {
    ReachableRegistration(w);
    assert RegistrationOk(w, w.threads[t]);
    var w' := Step(w, Go(t)).value;
    if server in w.children {
      assert Lookup(w'.children, server) == None;
      assert Unregisters(w, w', w.children[server]);
    }
  }

  /** One add is still starting its child when the name is removed and added again. */
  lemma ReplacedWhileStarting(config: Config) returns (w: World)
    requires Valid(config.name)
    ensures Reachable(w) && w.children == map[config.name := 1] && w.table == ManagementTools()
    ensures w.kids == [Kid(config, New, [], false), Kid(config, New, [], false)]
    ensures |w.threads| == 3 && w.threads[0] == AddStarting(config.name, 0) && w.threads[2] == AddStarting(config.name, 1)
  {
    assert Run(Step, INIT, []) == Some(INIT);
    w := StartingThenRemoved(INIT, config);
    w := Take(Step, INIT, w, Begin(AddCalled(config)));
    w := Take(Step, INIT, w, Go(2));
  }

  lemma StartingThenRemoved(w: World, config: Config) returns (w': World)
    requires Reachable(w) && w.children == map[] && w.kids == [] && w.threads == [] && Valid(config.name)
    ensures Reachable(w') && w'.children == map[] && w'.table == w.table && w'.kids == [Kid(config, New, [], false)]
    ensures |w'.threads| == 2 && w'.threads[0] == AddStarting(config.name, 0)
  {
    w' := Take(Step, INIT, w, Begin(AddCalled(config)));
    w' := Take(Step, INIT, w', Go(0));
    w' := Take(Step, INIT, w', Begin(RemoveCalled(config.name, None)));
    w' := Take(Step, INIT, w', Go(1));
    assert w'.children == map[];
  }

  /**
   * The delete of line 141 goes by name alone: the late failure of the first add unregisters the running child
   * of the second, whose tools stay in the table with no child to be found under their server.
   */
  lemma LateFailureUnregistersReplacement(config: Config, tool: Tool) returns (w: World)
    requires Valid(config.name)
    ensures Reachable(w) && |w.kids| == 2 && w.kids[1] == Kid(config, Running, [tool], true)
    ensures config.name !in w.children && PrefixTool(config.name, tool.name) in w.table
    ensures |w.threads| == 3 && w.threads[0] == Finished
  {
    w := ReplacedWhileStarting(config);
    w := Take(Step, INIT, w, KidChanges(1, Running, [tool], true));
    w := Take(Step, INIT, w, StartReturns(2, Some([tool])));
    w := Take(Step, INIT, w, Go(2));
    w := Take(Step, INIT, w, Go(2));
    assert PrefixTool(config.name, tool.name) in w.table;
    w := Take(Step, INIT, w, StartReturns(0, None));
    w := Take(Step, INIT, w, Go(0));
  }

  // -- A crash callback overtaken by a reload --

  /** The entry of a server whose registered child is another than this one. */
  predicate OfAnother(w: World, name: string, id: ChildId) {
    name in w.table && SplitTool(name).ok && SplitTool(name).server in w.children && w.children[SplitTool(name).server] != id
  }

  /** The entry of a server of which this is not the registered child: there is another, or none. */
  predicate NotOf(w: World, name: string, id: ChildId) {
    name in w.table && SplitTool(name).ok && Lookup(w.children, SplitTool(name).server) != Some(id)
  }

  /** Some tool of the child has its name in the table. */
  ghost predicate NameTaken(w: World, server: string, id: ChildId)
    requires id < |w.kids|
  {
    exists name :: name in PrefixedNames(server, w.kids[id].tools) && name in w.table
  }

  ghost predicate Takes(w: World, w': World, hit: string -> bool) {
    exists name :: hit(name) && name in w.table && name !in w'.table
  }

  /** Which entries the removal of a child's tools takes. */
  lemma TakenEntries(w: World, w': World, server: string, id: ChildId)
    requires KidNamed(w.kids, id, server) && w'.table == RemoveTools(w.table, PrefixedNames(server, w.kids[id].tools))
    ensures Takes(w, w', name => OfAnother(w, name, id)) <==> server in w.children && w.children[server] != id && NameTaken(w, server, id)
    ensures Takes(w, w', name => NotOf(w, name, id)) <==> Lookup(w.children, server) != Some(id) && NameTaken(w, server, id)
  {
    NamesOf(server, w.kids[id].tools);
    if NameTaken(w, server, id) {
      var name :| name in PrefixedNames(server, w.kids[id].tools) && name in w.table;
      assert name !in w'.table;
      assert server in w.children && w.children[server] != id ==> OfAnother(w, name, id);
      assert Lookup(w.children, server) != Some(id) ==> NotOf(w, name, id);
    }
  }

  /**
   * The removal of line 304 comes after the check of lines 297 to 303, and outside the lock. It takes an entry of
   * a server whose registered child is another one if and only if its own child's registration has been taken
   * since the check, the name given out again, and one of its tool names is in the table.
   */
  lemma CallbackHitsAnotherIff(w: World, t: nat, server: string, id: ChildId)
    requires Reachable(w) && t < |w.threads| && w.threads[t] == CrashDecided(server, id, true)
    ensures Step(w, Go(t)).Some? && id < |w.kids|
    ensures var hits := Takes(w, Step(w, Go(t)).value, name => OfAnother(w, name, id));
      && (hits <==> id in w.h.dropped && server in w.children && NameTaken(w, server, id))
      && (hits <==> Lookup(w.children, server) != None && Lookup(w.children, server) != Some(id) && NameTaken(w, server, id))
  {
    ReachableRegistration(w);
    assert RegistrationOk(w, w.threads[t]) && PcOk(w.kids, w.threads[t]);
    TakenEntries(w, Step(w, Go(t)).value, server, id);
  }

  /** It takes entries although its child is no longer the current one if and only if the registration has been taken. */
  lemma CallbackNoLongerCurrentIff(w: World, t: nat, server: string, id: ChildId)
    requires Reachable(w) && t < |w.threads| && w.threads[t] == CrashDecided(server, id, true)
    ensures Step(w, Go(t)).Some? && id < |w.kids|
    ensures Takes(w, Step(w, Go(t)).value, name => NotOf(w, name, id)) <==> id in w.h.dropped && NameTaken(w, server, id)
  {
    ReachableRegistration(w);
    assert RegistrationOk(w, w.threads[t]) && PcOk(w.kids, w.threads[t]);
    TakenEntries(w, Step(w, Go(t)).value, server, id);
  }

  /** What the steps of whole handlers would see. */
  function Abstraction(w: World): State {
    State(w.children, seq(|w.kids|, id requires 0 <= id < |w.kids| => Seen(w.kids[id])), w.table, {})
  }

  /** The child has been added, has crashed, and its callback has found it current. */
  lemma CallbackDecided(config: Config, found: seq<Tool>) returns (w: World)
    requires Valid(config.name)
    ensures Reachable(w) && w.children == map[config.name := 0] && w.kids == [Kid(config, Crashed, found, true)]
    ensures w.threads == [Finished, CrashDecided(config.name, 0, true)]
  {
    w := RaceIsReachable(config, found, |found|);
    w := Take(Step, INIT, w, Go(0));
  }

  /** A reload that nothing disturbs, begun in a reachable world. */
  lemma ReloadRuns(w: World, server: string, found: seq<Tool>) returns (end: World)
    requires Reachable(w) && Abstracts(w, Abstraction(w)) && WellFormed(Abstraction(w))
    ensures Reachable(end) && Abstracts(end, ReloadServer(Abstraction(w), server, Starts(found)).0)
    ensures end.threads == w.threads + [Finished]
  {
    var t := |w.threads|;
    var begun := Take(Step, INIT, w, Begin(ReloadCalled(server)));
    end := ReloadAlone(begun, Abstraction(w), t, server, Starts(found));
    ReachRun(Step, INIT, begun, ReloadLabels(Abstraction(w), t, server, Starts(found)), end);
  }

  /**
   * One management call at a time is not enough: a reload, undisturbed, falls between the check of a callback and
   * its removal. The replacement runs and is registered, its add has finished, and all its tools are gone.
   */
  lemma ReloadOvertakesCallback(config: Config, found: seq<Tool>) returns (w: World)
    requires Valid(config.name)
    ensures Reachable(w) && w.children == map[config.name := 1]
    ensures |w.kids| == 2 && Seen(w.kids[1]) == Record(config, Running, found)
    ensures w.threads == [Finished, Finished, Finished]
    ensures forall name :: name in PrefixedNames(config.name, found) ==> name !in w.table
  {
    var decided := CallbackDecided(config, found);
    var s := Abstraction(decided);
    assert s.kids == [Record(config, Crashed, found)];
    var s' := ReloadServer(s, config.name, Starts(found)).0;
    ReloadedState(s, config, found);
    var reloaded := ReloadRuns(decided, config.name, found);
    assert Seen(reloaded.kids[0]) == s'.kids[0] && Seen(reloaded.kids[1]) == s'.kids[1];
    w := Take(Step, INIT, reloaded, Go(1));
  }

  lemma ReloadedState(s: State, config: Config, found: seq<Tool>)
    requires s.children == map[config.name := 0] && s.kids == [Record(config, Crashed, found)] && Valid(config.name) && WellFormed(s)
    ensures var s' := ReloadServer(s, config.name, Starts(found)).0;
      && s'.children == map[config.name := 1]
      && s'.kids == [Record(config, Crashed, found), Record(config, Running, found)]
  {
    assert s.children - {config.name} == map[];
  }

  // -- A crash while the tools are being registered --

  /** A first add gets as far as the registration loop. */
  lemma AddReachesLoop(w: World, config: Config, found: seq<Tool>) returns (w': World)
    requires Reachable(w) && w.children == map[] && w.kids == [] && w.threads == [] && Valid(config.name)
    ensures Reachable(w') && w'.table == w.table && w'.children == map[config.name := 0]
    ensures w'.kids == [Kid(config, Running, found, true)] && w'.threads == [AddingTools(config.name, 0, found, 0)]
  {
    w' := Take(Step, INIT, w, Begin(AddCalled(config)));
    w' := Take(Step, INIT, w', Go(0));
    w' := Take(Step, INIT, w', KidChanges(0, Running, found, true));
    w' := Take(Step, INIT, w', StartReturns(0, Some(found)));
    w' := Take(Step, INIT, w', Go(0));
  }

  /** And through some of its turns. */
  lemma AddInLoop(config: Config, found: seq<Tool>, done: nat) returns (w: World)
    requires Valid(config.name) && done <= |found|
    ensures Reachable(w) && w.children == map[config.name := 0] && w.kids == [Kid(config, Running, found, true)]
    ensures w.threads == [AddingTools(config.name, 0, found, done)]
    ensures w.table == RegisterTools(ManagementTools(), config.name, found[..done])
  {
    assert Run(Step, INIT, []) == Some(INIT);
    var w0 := AddReachesLoop(INIT, config, found);
    w := RegisterTurns(w0, 0, config.name, 0, found, 0, done);
    assert found[0..done] == found[..done];
    ReachRun(Step, INIT, w0, Turns(0, done), w);
  }

  /** The race is possible at every turn: the child crashes, and its callback finds it current. */
  lemma RaceIsReachable(config: Config, found: seq<Tool>, done: nat) returns (w: World)
    requires Valid(config.name) && done <= |found|
    ensures Reachable(w) && w.children == map[config.name := 0] && w.kids == [Kid(config, Crashed, found, true)]
    ensures w.threads == [AddingTools(config.name, 0, found, done), CrashDecided(config.name, 0, true)]
  {
    w := AddInLoop(config, found, done);
    w := Take(Step, INIT, w, KidChanges(0, Crashed, found, true));
    w := Take(Step, INIT, w, Begin(CrashNoted(config.name, 0)));
    w := Take(Step, INIT, w, Go(1));
  }

  /**
   * A child crashes after the status check of line 147, and its callback lands when done of its tools have been
   * registered: of its names exactly those registered by the later turns are left, so that none is if and only if
   * the callback came after the last turn.
   */
  lemma CrashDuringRegistration(w: World, adder: nat, callback: nat, server: string, id: ChildId, found: seq<Tool>, done: nat)
    returns (end: World)
    requires adder < |w.threads| && callback < |w.threads| && id < |w.kids| && w.kids[id].tools == found && done <= |found|
    requires w.threads[adder] == AddingTools(server, id, found, done) && w.threads[callback] == CrashDecided(server, id, true)
    ensures Run(Step, w, [Go(callback)] + Turns(adder, |found| - done)) == Some(end)
    ensures forall name :: name in PrefixedNames(server, found) ==> (name in end.table <==> name in PrefixedNames(server, found[done..]))
    ensures (forall name :: name in PrefixedNames(server, found) ==> name !in end.table) <==> done == |found|
  {
    var swept := First(w, Go(callback));
    end := RegisterTurns(swept, adder, server, id, found, done, |found|);
    RunConcat(Step, w, [Go(callback)], Turns(adder, |found| - done));
    assert found[done..|found|] == found[done..];
    forall name | name in PrefixedNames(server, found) ensures name in end.table <==> name in PrefixedNames(server, found[done..]) {
      RegisterLookup(swept.table, server, found[done..], name);
      ContributionNames(server, found[done..], name);
    }
    if done < |found| {
      var name := PrefixTool(server, found[done].name);
      assert PrefixedNames(server, found[done..])[0] == name && PrefixedNames(server, found)[done] == name;
      assert name in PrefixedNames(server, found) && name in end.table;
    } else {
      assert found[done..] == [];
    }
  }

  // -- A removal before the registration loop --

  /**
   * The loop of lines 156-171 does not look at the registry. A turn registers a tool for a child that is not the
   * registered one if and only if the child's registration has been taken.
   */
  lemma LateRegistrationIff(w: World, t: nat, server: string, id: ChildId, found: seq<Tool>, done: nat)
    requires Reachable(w) && t < |w.threads| && w.threads[t] == AddingTools(server, id, found, done) && done < |found|
    ensures Step(w, Go(t)).Some?
    ensures var w' := Step(w, Go(t)).value;
      NotOf(w', PrefixTool(server, found[done].name), id) <==> id in w.h.dropped
  {
    ReachableRegistration(w);
    assert RegistrationOk(w, w.threads[t]) && PcOk(w.kids, w.threads[t]);
    SplitPrefix(server, found[done].name);
  }

  /** A removal that nothing disturbs, begun in a world with a finished or stalled first thread. */
  lemma RemovalRuns(w: World, config: Config) returns (end: World)
    requires Reachable(w) && w.children == map[config.name := 0] && |w.kids| == 1 && |w.threads| == 1
    ensures Reachable(end) && end.children == map[] && end.kids == w.kids && end.threads == [w.threads[0], Finished]
  {
    end := Take(Step, INIT, w, Begin(RemoveCalled(config.name, None)));
    end := Take(Step, INIT, end, Go(1));
    end := Take(Step, INIT, end, Go(1));
    end := Take(Step, INIT, end, Go(1));
    assert end.children == map[];
  }

  /** A whole removal falls between the status check and the loop: all is over, and the tools of nobody are there. */
  lemma RemovalBeforeRegistration(config: Config, found: seq<Tool>) returns (w: World)
    requires Valid(config.name)
    ensures Reachable(w) && w.children == map[] && w.threads == [Finished, Finished]
    ensures forall name :: name in PrefixedNames(config.name, found) ==> name in w.table
  {
    var added := AddInLoop(config, found, 0);
    var removed := RemovalRuns(added, config);
    w := RegisterTurns(removed, 0, config.name, 0, found, 0, |found|);
    ReachRun(Step, INIT, removed, Turns(0, |found|), w);
    assert found[0..|found|] == found;
    forall name | name in PrefixedNames(config.name, found) ensures name in w.table {
      RegisterLookup(removed.table, config.name, found, name);
      ContributionNames(config.name, found, name);
    }
    w := Take(Step, INIT, w, Go(0));
  }

  // -- A removal overtaken by an add --

  /**
   * The removal of line 191 is made outside the lock. It takes an entry of a server whose registered child is
   * another one if and only if the name has been given out again and one of its own child's tool names is there.
   */
  lemma RemovalHitsAnotherIff(w: World, t: nat, server: string, id: ChildId, reload: Option<Config>)
    requires Reachable(w) && t < |w.threads| && w.threads[t] == RemovingTools(server, id, reload)
    ensures Step(w, Go(t)).Some? && id < |w.kids|
    ensures Takes(w, Step(w, Go(t)).value, name => OfAnother(w, name, id)) <==> server in w.children && NameTaken(w, server, id)
  {
    ReachableRegistration(w);
    assert RegistrationOk(w, w.threads[t]) && PcOk(w.kids, w.threads[t]);
    TakenEntries(w, Step(w, Go(t)).value, server, id);
  }

  /** A child has been added, and a removal has unregistered it and not yet taken its tools. */
  lemma RemovalUnderWay(config: Config, found: seq<Tool>) returns (w: World)
    requires Valid(config.name)
    ensures Reachable(w) && w.children == map[] && w.kids == [Kid(config, Running, found, true)]
    ensures w.threads == [Finished, RemovingTools(config.name, 0, None)]
  {
    w := AddInLoop(config, found, |found|);
    w := Take(Step, INIT, w, Go(0));
    w := Take(Step, INIT, w, Begin(RemoveCalled(config.name, None)));
    w := Take(Step, INIT, w, Go(1));
    assert w.children == map[];
  }

  /** An add that nothing disturbs, begun in a reachable world. */
  lemma AddRuns(w: World, config: Config, found: seq<Tool>) returns (end: World)
    requires Reachable(w) && Valid(config.name) && config.name !in w.children
    ensures Reachable(end) && Abstracts(end, AddServer(Abstraction(w), config, Starts(found)).0)
    ensures end.threads == w.threads + [Finished]
  {
    var t := |w.threads|;
    var begun := Take(Step, INIT, w, Begin(AddCalled(config)));
    end := AddAlone(begun, Abstraction(w), t, config, Starts(found));
    ReachRun(Step, INIT, begun, AddLabels(Abstraction(w), t, config, Starts(found)), end);
  }

  /** A whole add falls between the two halves of a removal: the new child runs, registered, and its tools are gone. */
  lemma AddOvertakesRemoval(config: Config, found: seq<Tool>) returns (w: World)
    requires Valid(config.name)
    ensures Reachable(w) && w.children == map[config.name := 1]
    ensures |w.kids| == 2 && Seen(w.kids[1]) == Record(config, Running, found)
    ensures w.threads == [Finished, Finished, Finished]
    ensures forall name :: name in PrefixedNames(config.name, found) ==> name !in w.table
  {
    var removing := RemovalUnderWay(config, found);
    var s := Abstraction(removing);
    assert s.kids == [Record(config, Running, found)];
    var added := AddRuns(removing, config, found);
    var s' := AddServer(s, config, Starts(found)).0;
    assert Seen(added.kids[0]) == s'.kids[0] && Seen(added.kids[1]) == s'.kids[1];
    w := Take(Step, INIT, added, Go(1));
    w := Take(Step, INIT, w, Go(1));
  }
}
