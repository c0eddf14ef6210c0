/** Every Stop call returns, in every fair run, however the other calls interleave. */
module ChildLiveness {
  import opened Prelude
  import opened ChildState
  import opened ChildLifecycle
  import opened ChildInvariant
  import opened ChildSafety

  datatype Thread = StartThread(call: CallId) | StopThread(stop: nat) | NoThread

  function ThreadOf(a: Action): Thread {
    match a
    case StartStep(i, _) => StartThread(i)
    case StopStep(j, _) => StopThread(j)
    case _ => NoThread
  }

  /**
   * The thread may not stay where it is for ever. Connect and ListTools must return only once their context is
   * cancelled; Kill, Wait and Close return; a receive from startDone returns once the channel is closed.
   */
  predicate Obliged(w: World, t: Thread) {
    match t
    case StartThread(i) =>
      i < |w.starts| && !w.starts[i].Called? && !w.starts[i].Returned?
      && (w.starts[i].Connecting? || w.starts[i].InList? ==> i in w.e.cancelled)
      && (w.starts[i].Leaving? ==> w.f.startDone.Some?)
    case StopThread(j) =>
      PastStopEntry(w, j) && !w.stops[j].StopReturned?
      && (w.stops[j].Waiting? ==> ChannelClosed(w, w.stops[j].done))
    case NoThread => false
  }

  predicate ChannelClosed(w: World, done: Option<CallId>) {
    done.None? || done.value in w.e.doneCloses
  }

  /** An obliged thread has a step to take. */
  lemma ObligedCanStep(w: World, t: Thread) returns (a: Action)
    requires Obliged(w, t)
    ensures ThreadOf(a) == t && Step(w, a).Some?
  {
    match t
    case StartThread(i) =>
      a := StartStep(i, match w.starts[i] case Connecting => ConnectError(false) case InList(_, _) => ListError case _ => NoCall);
    case StopThread(j) => a := StopStep(j, false);
  }

  predicate StepsAt(world: nat -> World, act: nat -> Action, n: nat) {
    Step(world(n), act(n)) == Some(world(n + 1))
  }

  ghost predicate IsRun(world: nat -> World, act: nat -> Action) {
    world(0) == INIT && forall n: nat :: StepsAt(world, act, n)
  }

  predicate ServedAt(world: nat -> World, act: nat -> Action, t: Thread, m: nat) {
    ThreadOf(act(m)) == t || !Obliged(world(m), t)
  }

  ghost predicate ServedAfter(world: nat -> World, act: nat -> Action, t: Thread, n: nat) {
    exists m: nat :: n <= m && ServedAt(world, act, t, m)
  }

  /** No thread stays obliged for ever without taking a step. */
  ghost predicate Fair(world: nat -> World, act: nat -> Action) {
    forall t: Thread, n: nat :: ServedAfter(world, act, t, n)
  }

  // -- The measure --

  /** How far a Start call is from closing startDone; a discovery that may still be answered gets no closer. */
  function StartRank(pc: StartPc, cancelled: bool): nat {
    (if cancelled then 0 else 1) +
    match pc
    case Called => 10
    case Connecting => 9
    case Publishing => 8
    case Listing(_) => if cancelled then 5 else 7
    case InList(_, late) => if late then 4 else if cancelled then 6 else 7
    case Committing(_) => 3
    case Abandoning => 3
    case Closing(_) => 2
    case Reaping => 2
    case Launching(_) => 2
    case Leaving(_) => 1
    case Releasing(_) => 0
    case Returned(_) => 0
  }

  function WaitRank(w: World, done: Option<CallId>): nat {
    if done.None? || done.value >= |w.starts| || DoneClosed(w.starts[done.value]) then 0
    else StartRank(w.starts[done.value], done.value in w.e.cancelled)
  }

  function Rank(w: World, j: nat): nat
    requires j < |w.stops|
  {
    match w.stops[j]
    case StopCalled => 0
    case Cancelling(_, _, _, done) => 5 + WaitRank(w, done)
    case Waiting(_, _, done) => 4 + WaitRank(w, done)
    case Rereading => 3
    case InClose(_, _) => 2
    case Draining(_) => 1
    case StopReturned => 0
  }

  /** The thread whose next step brings the Stop call j closer to its return. */
  function Helper(w: World, j: nat): Thread
    requires j < |w.stops|
  {
    if !w.stops[j].Waiting? || ChannelClosed(w, w.stops[j].done) then StopThread(j)
    else if w.stops[j].done.value in w.e.cancelled || w.h.cancelTakers == [] then StartThread(w.stops[j].done.value)
    else StopThread(w.h.cancelTakers[0])
  }

  lemma HelperIsObliged(w: World, j: nat)
    requires Inv(w) && PastStopEntry(w, j) && !w.stops[j].StopReturned?
    ensures Obliged(w, Helper(w, j))
  {
  }

  predicate WaitsOn(pc: StopPc, i: CallId) {
    (pc.Cancelling? || pc.Waiting?) && pc.done == Some(i)
  }

  predicate Closer(w: World, w': World, j: nat, t: Thread)
    requires j < |w.stops| && j < |w'.stops|
  {
    Rank(w', j) < Rank(w, j) || (Rank(w', j) == Rank(w, j) && Helper(w', j) == Helper(w, j) != t)
  }

  /** The step of a Start call past entry: closer to closing startDone, unless discovery may still be answered. */
  predicate StartAdvances(w: World, w': World, i: CallId)
    requires i < |w.starts| && i < |w'.starts|
  {
    var c, c' := i in w.e.cancelled, i in w'.e.cancelled;
    if DoneClosed(w.starts[i]) then DoneClosed(w'.starts[i]) && i in w.e.doneCloses && i in w'.e.doneCloses
    else
      && i !in w.e.doneCloses
      && (DoneClosed(w'.starts[i]) <==> i in w'.e.doneCloses)
      && (StartRank(w'.starts[i], c') < StartRank(w.starts[i], c)
          || (StartRank(w'.starts[i], c') == StartRank(w.starts[i], c) && !c && !c' && !DoneClosed(w'.starts[i])))
  }

  /** Nothing but the position, context and channel of the Start call i has changed. */
  ghost predicate OnlyStart(w: World, w': World, i: CallId) {
    && w'.stops == w.stops && w'.h.cancelTakers == w.h.cancelTakers && |w'.starts| == |w.starts|
    && (forall k :: 0 <= k < |w.starts| && k != i ==> w'.starts[k] == w.starts[k])
    && (forall k :: k != i ==> (k in w'.e.cancelled <==> k in w.e.cancelled))
    && (forall k :: k != i ==> (k in w'.e.doneCloses <==> k in w.e.doneCloses))
  }

  lemma StartAdvanceRank(w: World, w': World, i: CallId, j: nat)
    requires PastStopEntry(w, j) && i < |w.starts| && OnlyStart(w, w', i)
    requires WaitsOn(w.stops[j], i) ==> StartAdvances(w, w', i)
    requires WaitsOn(w.stops[j], i) && !DoneClosed(w.starts[i]) ==> w.h.cancelTakers != []
    ensures Closer(w, w', j, StartThread(i))
  {
  }

  lemma InternalAdvances(w: World, i: CallId, pc: StartPc)
    requires i < |w.starts| && w.starts[i] == pc && ControlOk(w.f.status, w.e.cancelled, w.e.doneCloses, i, pc)
    requires !pc.Called? && !pc.Connecting? && !pc.InList? && !pc.Leaving? && !pc.Returned?
    ensures StartAdvances(w, InternalNext(w, i, pc), i) && OnlyStart(w, InternalNext(w, i, pc), i)
  {
  }

  lemma ExternalAdvances(w: World, i: CallId, reply: Reply)
    requires i < |w.starts| && (w.starts[i].Connecting? || w.starts[i].InList?)
    requires ControlOk(w.f.status, w.e.cancelled, w.e.doneCloses, i, w.starts[i]) && StartNext(w, i, reply).Some?
    ensures StartAdvances(w, StartNext(w, i, reply).value, i) && OnlyStart(w, StartNext(w, i, reply).value, i)
  {
  }

  lemma LeaveAdvances(w: World, i: CallId, outcome: Outcome)
    requires i < |w.starts| && w.starts[i] == Leaving(outcome) && w.f.startDone == Some(i)
    requires ControlOk(w.f.status, w.e.cancelled, w.e.doneCloses, i, w.starts[i])
    ensures StartAdvances(w, LeaveNext(w, i, outcome).value, i) && OnlyStart(w, LeaveNext(w, i, outcome).value, i)
  {
  }

  lemma EnteredStartAdvances(w: World, i: CallId, reply: Reply)
    requires i < |w.starts| && ControlOk(w.f.status, w.e.cancelled, w.e.doneCloses, i, w.starts[i])
    requires !w.starts[i].Called? && w.f.startDone == Some(i) && StartNext(w, i, reply).Some?
    ensures StartAdvances(w, StartNext(w, i, reply).value, i) && OnlyStart(w, StartNext(w, i, reply).value, i)
  {
    if w.starts[i].Connecting? || w.starts[i].InList? {
      ExternalAdvances(w, i, reply);
    } else if w.starts[i].Leaving? {
      LeaveAdvances(w, i, w.starts[i].outcome);
    } else {
      InternalAdvances(w, i, w.starts[i]);
    }
  }

  lemma CalledTouchesNothing(w: World, i: CallId)
    requires i < |w.starts| && w.starts[i].Called?
    ensures OnlyStart(w, EnterNext(w, i), i)
  {
  }

  /** What the invariant says of the Start call past entry, and of a Stop call that waits for one. */
  lemma EnteredFacts(w: World, i: CallId)
    requires Inv(w) && i < |w.starts| && !StartOutside(w.starts[i])
    ensures ControlOk(w.f.status, w.e.cancelled, w.e.doneCloses, i, w.starts[i]) && w.f.startDone == Some(i)
    ensures w.h.anyStop && !DoneClosed(w.starts[i]) ==> w.h.cancelTakers != []
  {
    assert w.h.entered == [i];
  }

  lemma WaiterFacts(w: World, j: nat, i: CallId)
    requires Inv(w) && PastStopEntry(w, j) && WaitsOn(w.stops[j], i)
    ensures i < |w.starts| && !StartOutside(w.starts[i]) && w.h.anyStop
  {
    if w.h.entered != [] {
      assert StopOk(w.h.takers, w.h.cancelTakers, w.e.killed, DoneClosed(w.starts[w.h.entered[0]]), w.h.entered[0], w.stops[j], j);
    }
  }

  /** A Stop call blocked on startDone is blocked by the Start call past entry, which has not closed it. */
  lemma BlockedBy(w: World, j: nat)
    requires Inv(w) && PastStopEntry(w, j) && w.stops[j].Waiting? && !ChannelClosed(w, w.stops[j].done)
    ensures w.stops[j].done.value < |w.starts| && !DoneClosed(w.starts[w.stops[j].done.value])
  {
    var i := w.stops[j].done.value;
    WaiterFacts(w, j, i);
    EnteredFacts(w, i);
  }

  lemma StartStepRank(w: World, i: CallId, reply: Reply, w': World, j: nat)
    requires Inv(w) && PastStopEntry(w, j) && i < |w.starts| && StartNext(w, i, reply) == Some(w')
    ensures PastStopEntry(w', j) && Closer(w, w', j, StartThread(i))
  {
    if WaitsOn(w.stops[j], i) {
      WaiterFacts(w, j, i);
    }
    if w.starts[i].Called? {
      CalledTouchesNothing(w, i);
    } else {
      EnteredFacts(w, i);
      EnteredStartAdvances(w, i, reply);
    }
    StartAdvanceRank(w, w', i, j);
  }

  /** A step outside the Stop call j that can only cancel contexts and move Stop call k. */
  lemma CancelRank(w: World, w': World, j: nat, t: Thread)
    requires PastStopEntry(w, j) && PastStopEntry(w', j) && w'.stops[j] == w.stops[j]
    requires w'.starts == w.starts && w'.e.doneCloses == w.e.doneCloses && w'.h.cancelTakers == w.h.cancelTakers
    requires w.e.cancelled <= w'.e.cancelled
    requires t == Helper(w, j) ==>
      && w.stops[j].Waiting? && !ChannelClosed(w, w.stops[j].done)
      && w.stops[j].done.value !in w.e.cancelled && w.stops[j].done.value in w'.e.cancelled
    requires w.stops[j].Waiting? && !ChannelClosed(w, w.stops[j].done) ==>
      && w.stops[j].done.value < |w.starts| && !DoneClosed(w.starts[w.stops[j].done.value])
    ensures Closer(w, w', j, t)
  {
  }

  lemma OwnStopRank(w: World, j: nat, timedOut: bool, w': World)
    requires PastStopEntry(w, j) && StopNext(w, j, timedOut) == Some(w')
    ensures Rank(w', j) < Rank(w, j)
  {
  }

  /** A Stop call that another one depends on is about to cancel the Start call that both wait for. */
  lemma HelperCancels(w: World, j: nat, k: nat)
    requires Inv(w) && PastStopEntry(w, j) && k < |w.stops| && k != j && Helper(w, j) == StopThread(k)
    ensures w.stops[j].Waiting? && w.stops[j].done.Some? && w.stops[j].done.value !in w.e.cancelled
    ensures w.stops[k].Cancelling? && w.stops[k].cancel == w.stops[j].done
  {
    WaiterFacts(w, j, w.stops[j].done.value);
  }

  lemma OtherStopFrame(w: World, k: nat, timedOut: bool, w': World, j: nat)
    requires w.f.stopCancel.None? && PastStopEntry(w, j) && k < |w.stops| && k != j && StopNext(w, k, timedOut) == Some(w')
    ensures PastStopEntry(w', j) && w'.stops[j] == w.stops[j]
    ensures w'.starts == w.starts && w'.e.doneCloses == w.e.doneCloses && w'.h.cancelTakers == w.h.cancelTakers
    ensures w.e.cancelled <= w'.e.cancelled
    ensures w.stops[k].Cancelling? && w.stops[k].cancel.Some? ==> w.stops[k].cancel.value in w'.e.cancelled
  {
  }

  lemma OtherStopRank(w: World, k: nat, timedOut: bool, w': World, j: nat)
    requires Inv(w) && PastStopEntry(w, j) && k < |w.stops| && k != j && StopNext(w, k, timedOut) == Some(w')
    ensures PastStopEntry(w', j) && Closer(w, w', j, StopThread(k))
  {
    assert w.f.stopCancel.None?;
    OtherStopFrame(w, k, timedOut, w', j);
    if w.stops[j].Waiting? && !ChannelClosed(w, w.stops[j].done) {
      BlockedBy(w, j);
    }
    if Helper(w, j) == StopThread(k) {
      HelperCancels(w, j, k);
    }
    CancelRank(w, w', j, StopThread(k));
  }

  /** No step leads away from the return; a step of the helper leads closer, any other step keeps the helper. */
  lemma StepRank(w: World, a: Action, w': World, j: nat)
    requires Inv(w) && PastStopEntry(w, j) && Step(w, a) == Some(w')
    ensures PastStopEntry(w', j) && Closer(w, w', j, ThreadOf(a))
  {
    match a
    case StartStep(i, reply) => StartStepRank(w, i, reply, w', j);
    case StopStep(k, timedOut) =>
      if k == j { OwnStopRank(w, j, timedOut, w'); } else { OtherStopRank(w, k, timedOut, w', j); }
    case CallStart => CallStartRank(w, w', j);
    case _ => QuietRank(w, a, w', j);
  }

  lemma CallStartRank(w: World, w': World, j: nat)
    requires Inv(w) && PastStopEntry(w, j) && Step(w, CallStart) == Some(w')
    ensures PastStopEntry(w', j) && Closer(w, w', j, NoThread)
  {
    if w.h.entered == [] {
      assert StopBlank(w.stops[j]);
    } else {
      assert StopOk(w.h.takers, w.h.cancelTakers, w.e.killed, DoneClosed(w.starts[w.h.entered[0]]), w.h.entered[0], w.stops[j], j);
    }
  }

  lemma QuietRank(w: World, a: Action, w': World, j: nat)
    requires Inv(w) && PastStopEntry(w, j) && Step(w, a) == Some(w')
    requires a.CallStop? || a.CallerCancels? || a.MonitorStep?
    ensures PastStopEntry(w', j) && Closer(w, w', j, NoThread)
  {
    if w.stops[j].Waiting? && !ChannelClosed(w, w.stops[j].done) {
      BlockedBy(w, j);
    }
    CancelRank(w, w', j, NoThread);
  }

  // -- Fair runs --

  lemma {:induction false} RunInv(world: nat -> World, act: nat -> Action, n: nat)
    requires IsRun(world, act)
    ensures Inv(world(n))
  {
    if n > 0 {
      RunInv(world, act, n - 1);
      assert StepsAt(world, act, n - 1);
      StepKeepsInv(world(n - 1), act(n - 1));
    }
  }

  /** From n to m the rank has gone down, or the helper is still the same and has not moved. */
  lemma {:induction false} UntilHelped(world: nat -> World, act: nat -> Action, j: nat, n: nat, m: nat)
    requires IsRun(world, act) && n <= m && PastStopEntry(world(n), j)
    ensures PastStopEntry(world(m), j)
    ensures Rank(world(m), j) < Rank(world(n), j)
         || (Rank(world(m), j) == Rank(world(n), j) && Helper(world(m), j) == Helper(world(n), j))
    decreases m - n
  {
    if n < m {
      UntilHelped(world, act, j, n, m - 1);
      RunInv(world, act, m - 1);
      assert StepsAt(world, act, m - 1);
      StepRank(world(m - 1), act(m - 1), world(m), j);
    }
  }

  lemma {:induction false} EveryStopReturns(world: nat -> World, act: nat -> Action, j: nat, n: nat)
    requires IsRun(world, act) && Fair(world, act)
    requires PastStopEntry(world(n), j)
    ensures exists m: nat :: n <= m && j < |world(m).stops| && world(m).stops[j] == StopReturned
    decreases Rank(world(n), j)
  {
    if world(n).stops[j] != StopReturned {
      var t := Helper(world(n), j);
      assert ServedAfter(world, act, t, n);
      var m: nat :| n <= m && ServedAt(world, act, t, m);
      UntilHelped(world, act, j, n, m);
      RunInv(world, act, m);
      assert StepsAt(world, act, m);
      if Rank(world(m), j) < Rank(world(n), j) {
        EveryStopReturns(world, act, j, m);
      } else if world(m).stops[j] != StopReturned {
        HelperIsObliged(world(m), j);
        StepRank(world(m), act(m), world(m + 1), j);
        EveryStopReturns(world, act, j, m + 1);
      }
    }
  }
}
