/**
 * The tool table follows the registry server by server: calls for one server take turns, calls for all the others
 * interleave with them, and with each other, in any way whatever. Taking turns keeps every step from doing harm.
 */
module ProxyPerServer {
  import opened Prelude
  import opened Namespace
  import opened ChildState
  import opened ToolTable
  import opened Registry
  import opened ProxyInterleaving
  import opened ProxySafety
  import opened ProxyRegistration
  import opened ProxyAccount

  /** Nothing for this server begins while something for it is under way. */
  predicate InTurn(w: World, a: Action, server: string) {
    Honest(w, a, server) && (a.Begin? && WorksFor(a.pc, server) ==> Free(w, server))
  }

  predicate Orderly(w: World, labels: seq<Action>, server: string)
    decreases |labels|
  {
    labels != [] ==>
      InTurn(w, labels[0], server) && Step(w, labels[0]).Some? && Orderly(Step(w, labels[0]).value, labels[1..], server)
  }

  /** What the thread that works for this server may rely on while nobody else does. */
  predicate Undisputed(w: World, server: string, pc: Pc) {
    match pc
    case AddStarting(_, id) => Lookup(w.children, server) == Some(id) && id !in w.h.cleared
    case AddChecking(_, id, _) => Lookup(w.children, server) == Some(id) && id !in w.h.cleared
    case AddUndoing(_, id) => Lookup(w.children, server) == Some(id) && id !in w.h.cleared
    case AddingTools(_, id, _, _) => Lookup(w.children, server) == Some(id) && id !in w.h.cleared
    case RemovingTools(_, _, _) => server !in w.children
    case CrashDecided(_, id, true) => Lookup(w.children, server) == Some(id)
    case _ => true
  }

  /** At most one thread works for this server, and it is undisputed. */
  predicate TakingTurns(w: World, server: string) {
    && (forall t, u :: 0 <= t < |w.threads| && 0 <= u < |w.threads| && WorksFor(w.threads[t], server) && WorksFor(w.threads[u], server) ==> t == u)
    && (forall t :: 0 <= t < |w.threads| && WorksFor(w.threads[t], server) ==> Undisputed(w, server, w.threads[t]))
  }

  /** Then an entry of this server is that of the child being removed, or of the registered one. */
  lemma TakesNoOthers(w: World, t: nat, server: string, id: ChildId)
    requires Account(w, server) && TakingTurns(w, server) && t < |w.threads| && WorksFor(w.threads[t], server)
    requires w.threads[t].RemovingTools? || (w.threads[t].CrashDecided? && w.threads[t].isCurrent)
    requires w.threads[t].id == id && KidNamed(w.kids, id, server)
    ensures !TakesAnothers(w, server, id)
  {
    NamesOf(server, w.kids[id].tools);
    forall name | OfServer(name, server) && name in w.table ensures Lookup(w.h.owners, name) == Some(id) {
      assert EntryAcc(w, server, name);
      var o := w.h.owners[name];
      assert KidAcc(w, server, o);
      if AwaitsRemoval(w, server, o) {
        assert w.h.removers[o] == t;
      }
    }
  }

  lemma NoHits(w: World, a: Action, server: string)
    requires Known(w) && Account(w, server) && TakingTurns(w, server)
    ensures !Hits(w, a, server)
  {
    if a.Go? && a.thread < |w.threads| && ServerOf(w.threads[a.thread]) == Some(server) {
      var pc := w.threads[a.thread];
      assert Undisputed(w, server, pc) && PcOk(w.kids, pc);
      if pc.RemovingTools? || (pc.CrashDecided? && pc.isCurrent) {
        TakesNoOthers(w, a.thread, server, pc.id);
      }
    }
  }

  // -- Steps keep the turns --

  /** A step that moves thread t, and leaves the registration of this server alone unless the thread works for it. */
  lemma TurnsMove(w: World, w': World, t: nat, server: string)
    requires TakingTurns(w, server) && t < |w.threads| && |w'.threads| == |w.threads| && w'.threads == w.threads[t := w'.threads[t]]
    requires WorksFor(w'.threads[t], server) ==> WorksFor(w.threads[t], server) && Undisputed(w', server, w'.threads[t])
    requires !WorksFor(w.threads[t], server) ==>
      forall k :: 0 <= k < |w.threads| && WorksFor(w.threads[k], server) ==> Undisputed(w', server, w.threads[k])
    ensures TakingTurns(w', server)
  {
    forall k | 0 <= k < |w'.threads| && WorksFor(w'.threads[k], server)
      ensures WorksFor(w.threads[k], server) && Undisputed(w', server, w'.threads[k])
    {
    }
  }

  /** The thread that works for this server takes its turn. */
  lemma WorkerStaysUndisputed(w: World, t: nat, server: string)
    requires t < |w.threads| && WorksFor(w.threads[t], server) && Undisputed(w, server, w.threads[t]) && PcOk(w.kids, w.threads[t])
    requires ClearedOk(w, server) && GoNext(w, t).Some? && |GoNext(w, t).value.threads| == |w.threads|
    ensures var w' := GoNext(w, t).value; WorksFor(w'.threads[t], server) ==> Undisputed(w', server, w'.threads[t])
  {
  }

  /** A step that is the same for this server leaves what its thread relies on. */
  lemma SameStaysUndisputed(w: World, w': World, server: string, pc: Pc)
    requires SameFor(w, w', server) && WorksFor(pc, server) && PcOk(w.kids, pc) && Undisputed(w, server, pc)
    ensures Undisputed(w', server, pc)
  {
    assert Holds(pc, server) ==> SameHistory(w.h, w'.h, pc.id);
  }

  /** A thread does not start working for this server in the middle of a call. */
  lemma StaysElsewhere(w: World, t: nat, server: string)
    requires t < |w.threads| && !WorksFor(w.threads[t], server) && GoNext(w, t).Some? && PcOk(w.kids, w.threads[t])
    requires |GoNext(w, t).value.threads| == |w.threads|
    ensures !WorksFor(GoNext(w, t).value.threads[t], server)
  {
  }

  lemma TurnKeepsTurns(w: World, t: nat, server: string)
    requires Known(w) && Account(w, server) && TakingTurns(w, server) && t < |w.threads| && GoNext(w, t).Some?
    ensures TakingTurns(GoNext(w, t).value, server)
  {
    var w' := GoNext(w, t).value;
    assert PcOk(w.kids, w.threads[t]) && ThreadAcc(w, server, t, w.threads[t]);
    TurnMoves(w, t);
    if WorksFor(w.threads[t], server) {
      WorkerStaysUndisputed(w, t, server);
    } else {
      StaysElsewhere(w, t, server);
      if Idles(w, w.threads[t]) { IdleTurn(w, t, server); } else { OthersTurn(w, t, server); }
      forall k | 0 <= k < |w.threads| && WorksFor(w.threads[k], server) ensures Undisputed(w', server, w.threads[k]) {
        assert PcOk(w.kids, w.threads[k]);
        SameStaysUndisputed(w, w', server, w.threads[k]);
      }
    }
    TurnsMove(w, w', t, server);
  }

  lemma BeginKeepsTurns(w: World, pc: Pc, server: string)
    requires TakingTurns(w, server) && MayBegin(w, pc) && InTurn(w, Begin(pc), server)
    ensures TakingTurns(Step(w, Begin(pc)).value, server)
  {
    var w' := Step(w, Begin(pc)).value;
    forall k | 0 <= k < |w'.threads| && WorksFor(w'.threads[k], server)
      ensures Undisputed(w', server, w'.threads[k]) && (WorksFor(pc, server) ==> k == |w.threads|)
    {
      if k < |w.threads| {
        assert w'.threads[k] == w.threads[k];
      }
    }
  }

  lemma StepKeepsTurns(w: World, a: Action, server: string)
    requires Known(w) && Account(w, server) && TakingTurns(w, server) && InTurn(w, a, server) && Step(w, a).Some?
    ensures TakingTurns(Step(w, a).value, server)
  {
    match a
    case Go(t) => TurnKeepsTurns(w, t, server);
    case Begin(pc) => BeginKeepsTurns(w, pc, server);
    case StartReturns(t, _) => TurnsMove(w, Step(w, a).value, t, server);
    case KidChanges(_, _, _, _) =>
  }

  // -- Whole runs --

  /** A run in which the calls for one server take turns does no harm to it. */
  lemma {:induction false} OrderlyIsHarmless(w: World, labels: seq<Action>, server: string)
    requires Valid(server) && Known(w) && Account(w, server) && TakingTurns(w, server) && Orderly(w, labels, server)
    ensures Harmless(w, labels, server)
    decreases |labels|
  {
    if labels != [] {
      NoHits(w, labels[0], server);
      StepKeepsKnown(w, labels[0]);
      StepKeepsAccount(w, labels[0], server);
      StepKeepsTurns(w, labels[0], server);
      OrderlyIsHarmless(Step(w, labels[0]).value, labels[1..], server);
    }
  }

  /**
   * Whenever nothing for this server is under way, the table holds of it exactly the tools of its registered
   * child, up to the moment that child's crash callback has run; a running child's tools are always there.
   */
  lemma ServerAgreesWhenFree(labels: seq<Action>, server: string)
    requires Orderly(INIT, labels, server)
    ensures Run(Step, INIT, labels).Some?
    ensures Free(Run(Step, INIT, labels).value, server) ==> Agrees(Run(Step, INIT, labels).value, server)
  {
    InitAccount(server);
    if Valid(server) {
      OrderlyIsHarmless(INIT, labels, server);
      AgreesUnlessHit(labels, server);
    } else {
      OrderlyRuns(INIT, labels, server);
      InvalidAgrees(Run(Step, INIT, labels).value, server);
    }
  }

  lemma {:induction false} OrderlyRuns(w: World, labels: seq<Action>, server: string)
    requires Known(w) && Orderly(w, labels, server)
    ensures Run(Step, w, labels).Some? && Known(Run(Step, w, labels).value)
    decreases |labels|
  {
    if labels != [] {
      StepKeepsKnown(w, labels[0]);
      OrderlyRuns(Step(w, labels[0]).value, labels[1..], server);
    }
  }
}
