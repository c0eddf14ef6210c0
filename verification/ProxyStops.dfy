/** Which children that are no longer registered some handler stops, at the grain of the locks. */
module ProxyStops {
  import opened Prelude
  import opened ChildState
  import opened Registry
  import opened ProxyInterleaving
  import opened ProxySafety
  import opened ProxyRegistration

  /** The thread is going to stop this child. */
  predicate Stops(pc: Pc, id: ChildId) {
    (pc.RemovingTools? || pc.RemoveStopping?) && pc.id == id
  }

  /** A removal stops the child it has dropped, and nobody else does. */
  ghost predicate StopInv(w: World) {
    && (forall t :: 0 <= t < |w.threads| && (w.threads[t].RemovingTools? || w.threads[t].RemoveStopping?) ==>
         w.threads[t].id in w.h.removers && w.h.removers[w.threads[t].id] == t)
    && (forall id :: id in w.h.removers ==>
         id in w.h.dropped && w.h.removers[id] < |w.threads| && (id in w.h.stopped || Stops(w.threads[w.h.removers[id]], id)))
    && (forall id :: id in w.h.stopped ==> id in w.h.removers)
  }

  /** A turn that drops or stops no child. */
  lemma OtherTurnStopsNobody(w: World, t: nat)
    requires t < |w.threads| && GoNext(w, t).Some?
    requires !w.threads[t].RemoveCalled? && !w.threads[t].RemovingTools? && !w.threads[t].RemoveStopping?
    ensures var h' := GoNext(w, t).value.h;
      h'.removers == w.h.removers && h'.stopped == w.h.stopped && w.h.dropped <= h'.dropped
  {
  }

  lemma OtherTurnStaysElsewhere(w: World, t: nat)
    requires t < |w.threads| && GoNext(w, t).Some? && |GoNext(w, t).value.threads| == |w.threads|
    requires !w.threads[t].RemoveCalled? && !w.threads[t].RemovingTools?
    ensures var pc' := GoNext(w, t).value.threads[t]; !pc'.RemovingTools? && !pc'.RemoveStopping?
  {
  }

  lemma OtherTurnKeepsStops(w: World, t: nat)
    requires StopInv(w) && t < |w.threads| && GoNext(w, t).Some?
    requires !w.threads[t].RemoveCalled? && !w.threads[t].RemovingTools? && !w.threads[t].RemoveStopping?
    ensures StopInv(GoNext(w, t).value)
  {
    TurnMoves(w, t);
    OtherTurnStopsNobody(w, t);
    OtherTurnStaysElsewhere(w, t);
  }

  lemma RemoveTurnKeepsStops(w: World, t: nat)
    requires StopInv(w) && RegistrationInv(w) && t < |w.threads| && GoNext(w, t).Some?
    requires w.threads[t].RemoveCalled? || w.threads[t].RemovingTools? || w.threads[t].RemoveStopping?
    ensures StopInv(GoNext(w, t).value)
  {
  }

  lemma StepKeepsStops(w: World, a: Action)
    requires StopInv(w) && Known(w) && Step(w, a).Some?
    ensures StopInv(Step(w, a).value)
  {
    if a.Go? {
      var pc := w.threads[a.thread];
      if pc.RemoveCalled? || pc.RemovingTools? || pc.RemoveStopping? {
        RemoveTurnKeepsStops(w, a.thread);
      } else {
        OtherTurnKeepsStops(w, a.thread);
      }
    }
  }

  ghost predicate KnownStops(w: World) {
    Known(w) && StopInv(w)
  }

  lemma ReachableStops(w: World)
    requires Reachable(w)
    ensures KnownStops(w)
  {
    ReachableRegistration(w);
    assert ReachableFrom(Step, INIT, INIT) by {
      assert Run(Step, INIT, []) == Some(INIT);
    }
    ReachableRegistration(INIT);
    forall v, a | KnownStops(v) && Step(v, a).Some? ensures KnownStops(Step(v, a).value) {
      StepKeepsKnown(v, a);
      StepKeepsStops(v, a);
    }
    InvariantReached(Step, KnownStops, INIT, w);
  }

  /** When no thread is about to stop it, a child that is no longer registered has been stopped iff a removal dropped it. */
  lemma DroppedIsStoppedIff(w: World, id: ChildId)
    requires Reachable(w) && id in w.h.dropped && forall t :: 0 <= t < |w.threads| ==> !Stops(w.threads[t], id)
    ensures id in w.h.stopped <==> id in w.h.removers
  {
    ReachableStops(w);
  }

  lemma {:induction false} StaysUnstopped(w: World, labels: seq<Action>, id: ChildId)
    requires KnownStops(w) && id in w.h.dropped && id !in w.h.removers && Run(Step, w, labels).Some?
    ensures id !in Run(Step, w, labels).value.h.stopped
    decreases |labels|
  {
    if labels != [] {
      StepKeepsKnown(w, labels[0]);
      StepKeepsStops(w, labels[0]);
      DropsOnce(w, labels[0], id);
      StaysUnstopped(Step(w, labels[0]).value, labels[1..], id);
    }
  }

  /** No removal finds a child that has been dropped. */
  lemma DropsOnce(w: World, a: Action, id: ChildId)
    requires RegistrationInv(w) && id in w.h.dropped && id !in w.h.removers && Step(w, a).Some?
    ensures id in Step(w, a).value.h.dropped && id !in Step(w, a).value.h.removers
  {
  }

  /** A child whose registration an undo takes, the add's own or another, is never stopped by any handler. */
  lemma UndoneIsNeverStopped(w: World, t: nat, server: string, id: ChildId, labels: seq<Action>)
    requires Reachable(w) && t < |w.threads| && w.threads[t] == AddUndoing(server, id) && server in w.children
    requires Step(w, Go(t)).Some? && Run(Step, Step(w, Go(t)).value, labels).Some?
    ensures w.children[server] !in Run(Step, Step(w, Go(t)).value, labels).value.h.stopped
  {
    ReachableStops(w);
    StepKeepsKnown(w, Go(t));
    StepKeepsStops(w, Go(t));
    StaysUnstopped(Step(w, Go(t)).value, labels, w.children[server]);
  }
}
