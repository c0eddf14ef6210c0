/** Who is registered while a thread works: what every step at the grain of the locks keeps. */
module ProxyRegistration {
  import opened Prelude
  import opened Namespace
  import opened ChildState
  import opened ToolTable
  import opened Registry
  import opened ProxyInterleaving
  import opened ProxySafety

  /** The child a thread works with on the understanding that it is the registered one. */
  function Relied(pc: Pc): Option<ChildId> {
    match pc
    case AddStarting(_, id) => Some(id)
    case AddChecking(_, id, _) => Some(id)
    case AddUndoing(_, id) => Some(id)
    case AddingTools(_, id, _, _) => Some(id)
    case CrashDecided(_, id, true) => Some(id)
    case _ => None
  }

  /**
   * Such a child is registered under its server's name unless its registration has been taken; the registration
   * of a child whose tools a removal is about to take has been.
   */
  predicate RegistrationOk(w: World, pc: Pc) {
    && (Relied(pc).Some? ==> Relied(pc).value in w.h.dropped || Lookup(w.children, ServerOf(pc).value) == Relied(pc))
    && (pc.RemovingTools? ==> pc.id in w.h.dropped)
  }

  ghost predicate RegistrationInv(w: World) {
    && (forall t :: 0 <= t < |w.threads| ==> RegistrationOk(w, w.threads[t]))
    && (forall server :: server in w.children ==> w.children[server] !in w.h.dropped)
    && (forall id :: id in w.h.dropped ==> id < |w.kids|)
  }

  ghost predicate ChildrenNamed(w: World) {
    forall server :: server in w.children ==> KidNamed(w.kids, w.children[server], server)
  }

  /** A step that registers nobody and takes at most the registration of one name. */
  lemma RegistrationMoved(w: World, w': World, t: nat, server: string)
    requires RegistrationInv(w) && ChildrenNamed(w) && w'.kids == w.kids
    requires t < |w.threads| && |w'.threads| == |w.threads| && w'.threads == w.threads[t := w'.threads[t]]
    requires (w'.children == w.children && w'.h.dropped == w.h.dropped)
          || (w'.children == Unregister(w, server).children && w'.h.dropped == Unregister(w, server).h.dropped)
    requires RegistrationOk(w', w'.threads[t])
    ensures RegistrationInv(w')
  {
    forall k | 0 <= k < |w'.threads| ensures RegistrationOk(w', w'.threads[k]) {
      if k != t {
        assert RegistrationOk(w, w.threads[k]);
      }
    }
    forall name | name in w'.children ensures w'.children[name] !in w'.h.dropped {
      assert KidNamed(w.kids, w.children[name], name);
      assert server in w.children ==> KidNamed(w.kids, w.children[server], server);
    }
  }

  lemma AddEnterKeepsRegistration(w: World, t: nat, config: Config)
    requires RegistrationInv(w) && ChildrenNamed(w) && t < |w.threads| && w.threads[t] == AddCalled(config)
    ensures RegistrationInv(AddEnter(w, t, config))
  {
    var w' := AddEnter(w, t, config);
    forall k | 0 <= k < |w'.threads| ensures RegistrationOk(w', w'.threads[k]) {
      if k != t {
        assert RegistrationOk(w, w.threads[k]);
      }
    }
  }

  lemma UnregisteringKeepsRegistration(w: World, t: nat)
    requires RegistrationInv(w) && ChildrenNamed(w) && t < |w.threads| && (w.threads[t].AddUndoing? || w.threads[t].RemoveCalled?)
    ensures RegistrationInv(GoNext(w, t).value)
  {
    RegistrationMoved(w, GoNext(w, t).value, t, w.threads[t].server);
  }

  lemma OtherTurnRegistersNobody(w: World, t: nat)
    requires t < |w.threads| && GoNext(w, t).Some?
    requires !w.threads[t].AddCalled? && !w.threads[t].AddUndoing? && !w.threads[t].RemoveCalled?
    ensures var w' := GoNext(w, t).value; w'.kids == w.kids && w'.children == w.children && w'.h.dropped == w.h.dropped
  {
  }

  lemma OtherTurnRelies(w: World, t: nat)
    requires t < |w.threads| && GoNext(w, t).Some? && |GoNext(w, t).value.threads| == |w.threads| && !w.threads[t].RemoveCalled?
    requires !w.threads[t].AddCalled?
    ensures var pc, pc' := w.threads[t], GoNext(w, t).value.threads[t];
      && !pc'.RemovingTools?
      && (Relied(pc').Some? ==>
           || (Relied(pc) == Relied(pc') && ServerOf(pc) == ServerOf(pc'))
           || Lookup(w.children, ServerOf(pc').value) == Relied(pc'))
  {
    if !w.threads[t].AddChecking? && !w.threads[t].AddingTools? && !w.threads[t].CrashNoted? {
      OthersRelyOnNobody(w, t);
    }
  }

  lemma OthersRelyOnNobody(w: World, t: nat)
    requires t < |w.threads| && GoNext(w, t).Some? && |GoNext(w, t).value.threads| == |w.threads|
    requires !w.threads[t].RemoveCalled? && !w.threads[t].AddCalled?
    requires !w.threads[t].AddChecking? && !w.threads[t].AddingTools? && !w.threads[t].CrashNoted?
    ensures var pc' := GoNext(w, t).value.threads[t];
      pc'.Finished? || pc'.RemoveStopping? || pc'.AddCalled? || pc'.RemoveCalled? || pc'.ToolBound? || pc'.ToolRouted?
  {
  }

  lemma OtherTurnKeepsRegistration(w: World, t: nat)
    requires RegistrationInv(w) && ChildrenNamed(w) && t < |w.threads| && GoNext(w, t).Some?
    requires !w.threads[t].AddCalled? && !w.threads[t].AddUndoing? && !w.threads[t].RemoveCalled?
    ensures RegistrationInv(GoNext(w, t).value)
  {
    assert RegistrationOk(w, w.threads[t]);
    TurnMoves(w, t);
    OtherTurnRegistersNobody(w, t);
    OtherTurnRelies(w, t);
    RegistrationMoved(w, GoNext(w, t).value, t, "");
  }

  lemma OutsideKeepsRegistration(w: World, a: Action)
    requires RegistrationInv(w) && ChildrenNamed(w) && !a.Go? && Step(w, a).Some?
    ensures RegistrationInv(Step(w, a).value)
  {
    var w' := Step(w, a).value;
    forall k | 0 <= k < |w'.threads| ensures RegistrationOk(w', w'.threads[k]) {
      if k < |w.threads| {
        assert RegistrationOk(w, w.threads[k]);
      }
    }
  }

  lemma StepKeepsRegistration(w: World, a: Action)
    requires RegistrationInv(w) && ChildrenNamed(w) && Step(w, a).Some?
    ensures RegistrationInv(Step(w, a).value)
  {
    if !a.Go? {
      OutsideKeepsRegistration(w, a);
    } else if w.threads[a.thread].AddCalled? {
      AddEnterKeepsRegistration(w, a.thread, w.threads[a.thread].config);
    } else if w.threads[a.thread].AddUndoing? || w.threads[a.thread].RemoveCalled? {
      UnregisteringKeepsRegistration(w, a.thread);
    } else {
      OtherTurnKeepsRegistration(w, a.thread);
    }
  }

  ghost predicate Known(w: World) {
    Inv(ManagementTools(), w) && RegistrationInv(w)
  }

  lemma StepKeepsKnown(w: World, a: Action)
    requires Known(w) && Step(w, a).Some?
    ensures Known(Step(w, a).value)
  {
    StepKeepsInv(ManagementTools(), w, a);
    StepKeepsRegistration(w, a);
  }

  lemma ReachableRegistration(w: World)
    requires Reachable(w)
    ensures Known(w)
  {
    ManagementSeparate();
    InitInv(ManagementTools());
    forall v, a | Known(v) && Step(v, a).Some? ensures Known(Step(v, a).value) {
      StepKeepsKnown(v, a);
    }
    InvariantReached(Step, Known, INIT, w);
  }
}
