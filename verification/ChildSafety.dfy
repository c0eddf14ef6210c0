/** What holds of a Child in every run, for any number of Start and Stop calls. */
module ChildSafety {
  import opened Prelude
  import opened ChildState
  import opened ChildLifecycle
  import opened ChildInvariant

  /** Some session.Close on s has returned. */
  predicate Closed(w: World, s: CallId) {
    s in w.e.startCloses || s in w.e.stopCloses
  }

  /** No call is under way, and some Stop call has returned. */
  predicate QuietAfterStop(w: World) {
    && (forall i :: 0 <= i < |w.starts| ==> w.starts[i].Called? || w.starts[i].Returned?)
    && (forall j :: 0 <= j < |w.stops| ==> w.stops[j].StopCalled? || w.stops[j].StopReturned?)
    && (exists j :: 0 <= j < |w.stops| && w.stops[j].StopReturned?)
  }

  /** The Stop call j is past its first critical section. */
  predicate PastStopEntry(w: World, j: nat) {
    j < |w.stops| && w.stops[j] != StopCalled
  }

  lemma RunKeepsInv(w: World, labels: seq<Action>)
    requires Inv(w)
    ensures Run(Step, w, labels).Some? ==> Inv(Run(Step, w, labels).value)
  {
    forall v, a | Inv(v) && Step(v, a).Some? ensures Inv(Step(v, a).value) {
      StepKeepsInv(v, a);
    }
    InvariantAlongRun(Step, Inv, w, labels);
  }

  // -- Sessions --

  /** Every open session has somebody obliged to close it: its Start call, the field, or a Stop call. */
  lemma OpenSessionHasCloser(w: World, s: CallId)
    requires Reachable(w) && s in w.e.sessions && !Closed(w, s)
    ensures (s < |w.starts| && StartMustClose(w.starts[s])) || w.f.session == Some(s)
         || exists j :: 0 <= j < |w.stops| && StopHolds(w.stops[j], s)
  {
    ReachableInv(w);
    if w.h.takers != [] && w.f.session.None? && !StartMustClose(w.starts[s]) {
      assert StopHolds(w.stops[w.h.takers[0]], s);
    }
  }

  /** Once a Stop has run and all calls are over, nothing is left open and no failed Connect left a process. */
  lemma NothingLeaks(w: World)
    requires Reachable(w) && QuietAfterStop(w)
    ensures forall s :: s in w.e.sessions ==> Closed(w, s)
    ensures w.e.orphans <= w.e.killed
    ensures w.f.session.None? && w.f.process.None?
  {
    ReachableInv(w);
    forall s | s in w.e.sessions ensures Closed(w, s) {
      if !Closed(w, s) {
        OpenSessionHasCloser(w, s);
      }
    }
  }

  /** The guard of line 178 is false exactly when a Stop call has taken the session, and will close it too. */
  lemma AbandonGuard(w: World, i: CallId)
    requires Reachable(w) && i < |w.starts| && w.starts[i] == Abandoning
    ensures w.f.session != Some(i) <==> exists j :: PastStopEntry(w, j)
    ensures w.f.session != Some(i) <==> exists j :: 0 <= j < |w.stops| && (StopHolds(w.stops[j], i) || (w.stops[j].StopReturned? && i in w.e.stopCloses))
  {
    ReachableInv(w);
    if w.h.takers != [] {
      assert PastStopEntry(w, w.h.takers[0]);
    }
  }

  /**
   * A session is closed twice exactly when its discovery failed after a Stop call had taken it: line 183 does
   * not ask who owns the session. It is never closed more than twice, nor twice by calls of one kind.
   */
  lemma ClosedTwiceIff(w: World, i: CallId)
    requires Reachable(w) && QuietAfterStop(w) && i < |w.starts| && i in w.e.sessions
    ensures w.e.startCloses == [i] || w.e.startCloses == []
    ensures w.e.stopCloses == [i] || w.e.stopCloses == []
    ensures |w.e.startCloses| + |w.e.stopCloses| == 2
       <==> w.starts[i] == Returned(Failure(DiscoveryFailed)) && w.h.takers != []
  {
    ReachableInv(w);
  }

  /** The Start call i has given its session up, or lost it, and is on its way out. */
  predicate GivenUp(w: World, i: CallId) {
    && w.h.entered == [i] && i < |w.starts| && w.f.session.None? && w.f.status != New
    && (w.starts[i] == Closing(DiscoveryFailed) || FailedWith(w.starts[i], DiscoveryFailed))
  }

  lemma StartStaysGivenUp(w: World, k: CallId, reply: Reply, i: CallId)
    requires GivenUp(w, i) && k < |w.starts| && (k != i ==> StartOutside(w.starts[k])) && StartNext(w, k, reply).Some?
    ensures GivenUp(StartNext(w, k, reply).value, i) && StartNext(w, k, reply).value.h.takers == w.h.takers
  {
  }

  lemma StopStaysGivenUp(w: World, j: nat, timedOut: bool, i: CallId)
    requires GivenUp(w, i) && j < |w.stops| && StopNext(w, j, timedOut).Some?
    ensures GivenUp(StopNext(w, j, timedOut).value, i) && StopNext(w, j, timedOut).value.h.takers == w.h.takers
  {
  }

  lemma GivenUpStays(w: World, a: Action, i: CallId)
    requires Inv(w) && GivenUp(w, i) && Step(w, a).Some?
    ensures GivenUp(Step(w, a).value, i) && Step(w, a).value.h.takers == w.h.takers
  {
    if a.StartStep? {
      assert a.call != i ==> StartOutside(w.starts[a.call]);
      StartStaysGivenUp(w, a.call, a.reply, i);
    } else if a.StopStep? {
      StopStaysGivenUp(w, a.stop, a.timedOut, i);
    }
  }

  lemma {:induction false} GivenUpForGood(w: World, labels: seq<Action>, i: CallId)
    requires Inv(w) && GivenUp(w, i) && Run(Step, w, labels).Some?
    ensures GivenUp(Run(Step, w, labels).value, i) && Run(Step, w, labels).value.h.takers == w.h.takers
    decreases |labels|
  {
    if labels != [] {
      GivenUpStays(w, labels[0], i);
      StepKeepsInv(w, labels[0]);
      GivenUpForGood(Step(w, labels[0]).value, labels[1..], i);
    }
  }

  lemma AbandonGivesUp(w: World, i: CallId)
    requires Reachable(w) && i < |w.starts| && w.starts[i] == Abandoning
    ensures Step(w, StartStep(i, NoCall)) == Some(AbandonNext(w, i))
    ensures Inv(AbandonNext(w, i)) && GivenUp(AbandonNext(w, i), i)
  {
    ReachableInv(w);
    assert w.h.entered == [i];
    AbandonKeepsInv(w, i);
  }

  lemma TakenBeforeAbandoning(w: World, i: CallId)
    requires Reachable(w) && i < |w.starts| && w.starts[i] == Abandoning
    ensures w.h.takers != [] <==> exists j :: PastStopEntry(w, j)
  {
    ReachableInv(w);
    if w.h.takers != [] {
      assert PastStopEntry(w, w.h.takers[0]);
    }
  }

  /**
   * The same, told when the discovery fails: however the run goes on, the session ends up closed twice if and only
   * if some Stop call is past its first critical section as the test of line 178 is made.
   */
  lemma ClosedTwiceFromAbandoning(w: World, i: CallId, labels: seq<Action>)
    requires Reachable(w) && i < |w.starts| && w.starts[i] == Abandoning
    requires labels != [] && labels[0] == StartStep(i, NoCall)
    requires Run(Step, w, labels).Some? && QuietAfterStop(Run(Step, w, labels).value)
    ensures var w' := Run(Step, w, labels).value;
      |w'.e.startCloses| + |w'.e.stopCloses| == 2 <==> exists j :: PastStopEntry(w, j)
  {
    var w' := Run(Step, w, labels).value;
    AbandonGivesUp(w, i);
    TakenBeforeAbandoning(w, i);
    GivenUpForGood(AbandonNext(w, i), labels[1..], i);
    ReachRun(Step, INIT, w, labels, w');
    ReachableInv(w');
    ClosedTwiceIff(w', i);
  }

  /** Start call 0 and Stop call 0, after the Stop call took the session and cancelled. */
  function Overtaken(start: StartPc, stop: StopPc, startCloses: seq<CallId>, doneCloses: seq<CallId>, stopCloses: seq<CallId>): World {
    World(Fields(Stopped, [], None, None, None, Some(0)), [start], [stop], [],
          Effects({0}, doneCloses, {0}, startCloses, stopCloses, {}, {}, 0), History([0], [], [0], [0], [], true))
  }

  const HOLDING := Waiting(Some(0), Some(0), Some(0))

  lemma StopDuringDiscovery()
    ensures Reachable(Overtaken(InList([], false), HOLDING, [], [], []))
  {
    var w := StartedDiscovery();
    w := Take(Step, INIT, w, CallStop);
    w := Take(Step, INIT, w, StopStep(0, false));
    w := Take(Step, INIT, w, StopStep(0, false));
    assert w == Overtaken(InList([], false), HOLDING, [], [], []);
  }

  lemma StartedDiscovery() returns (w: World)
    ensures Reachable(w)
    ensures w == World(Fields(Starting, [], Some(0), Some(0), Some(0), Some(0)), [InList([], false)], [], [],
                       Effects({}, [], {0}, [], [], {}, {}, 0), History([0], [], [], [], [], false))
  {
    assert Run(Step, INIT, []) == Some(INIT);
    w := Take(Step, INIT, INIT, CallStart);
    w := Take(Step, INIT, w, StartStep(0, NoCall));
    w := Take(Step, INIT, w, StartStep(0, ConnectOk));
    w := Take(Step, INIT, w, StartStep(0, NoCall));
    w := Take(Step, INIT, w, StartStep(0, NoCall));
  }

  /** A run in which Start closes a session that a Stop call owns and closes as well. */
  lemma ClosedTwiceWitness() returns (w: World)
    ensures Reachable(w) && QuietAfterStop(w)
    ensures w.e.startCloses == [0] && w.e.stopCloses == [0]
  {
    StartClosesTheOvertakenSession();
    w := Overtaken(Leaving(Failure(DiscoveryFailed)), HOLDING, [0], [], []);
    w := Take(Step, INIT, w, StartStep(0, NoCall));
    assert w == Overtaken(Releasing(Failure(DiscoveryFailed)), HOLDING, [0], [0], []);
    w := Take(Step, INIT, w, StartStep(0, NoCall));
    assert w == Overtaken(Returned(Failure(DiscoveryFailed)), HOLDING, [0], [0], []);
    w := Take(Step, INIT, w, StopStep(0, false));
    assert w == Overtaken(Returned(Failure(DiscoveryFailed)), InClose(0, Some(0)), [0], [0], []);
    w := Take(Step, INIT, w, StopStep(0, false));
    assert w.stops[0].StopReturned?;
    assert w == Overtaken(Returned(Failure(DiscoveryFailed)), StopReturned, [0], [0], [0]);
  }

  lemma StartClosesTheOvertakenSession()
    ensures Reachable(Overtaken(Leaving(Failure(DiscoveryFailed)), HOLDING, [0], [], []))
  {
    StopDuringDiscovery();
    var w := Overtaken(InList([], false), HOLDING, [], [], []);
    w := Take(Step, INIT, w, StartStep(0, ListError));
    assert w == Overtaken(Abandoning, HOLDING, [], [], []);
    w := Take(Step, INIT, w, StartStep(0, NoCall));
    assert w == Overtaken(Closing(DiscoveryFailed), HOLDING, [], [], []);
    w := Take(Step, INIT, w, StartStep(0, NoCall));
    assert w == Overtaken(Leaving(Failure(DiscoveryFailed)), HOLDING, [0], [], []);
  }

  // -- Stop is final --

  /** After the first critical section of any Stop call no run brings a session back or restarts the child. */
  lemma StopIsFinal(w: World, j: nat, labels: seq<Action>)
    requires Reachable(w) && PastStopEntry(w, j) && Run(Step, w, labels).Some?
    ensures var w' := Run(Step, w, labels).value;
      && w'.f.session.None?
      && (w'.f.status == Stopped || w'.f.status == Crashed)
      && forall i :: Publish(w'.f, i).None?
  {
    ReachableInv(w);
    RunKeepsInv(w, labels);
    StopEntryStays(w, labels);
  }

  lemma {:induction false} StopEntryStays(w: World, labels: seq<Action>)
    requires Run(Step, w, labels).Some? && w.h.anyStop
    ensures Run(Step, w, labels).value.h.anyStop
    decreases |labels|
  {
    if labels != [] {
      StopEntryStays(Step(w, labels[0]).value, labels[1..]);
    }
  }

  /** Over a whole run at most one Stop call takes a session at entry, and the re-read never finds one. */
  lemma SessionTakenOnce(w: World)
    requires Reachable(w)
    ensures |w.h.takers| <= 1
    ensures w.h.rereadTakers == []
    ensures forall j :: 0 <= j < |w.stops| && w.stops[j] == Rereading ==> w.f.session.None?
  {
    ReachableInv(w);
  }

  /** A Stop call whose graceful close times out always has the process at hand. */
  lemma TimeoutHasProcess(w: World, j: nat)
    requires Reachable(w) && j < |w.stops| && w.stops[j].InClose?
    ensures w.stops[j].process == Some(w.stops[j].closing)
  {
    ReachableInv(w);
  }

  /** Once a Stop call is past its wait no Start call is under way, and none will be. */
  lemma StopOutlastsStart(w: World, j: nat, labels: seq<Action>)
    requires Reachable(w) && PastWait(w, j)
    requires Run(Step, w, labels).Some?
    ensures var w' := Run(Step, w, labels).value;
      forall i :: 0 <= i < |w'.starts| ==> w'.starts[i].Called? || w'.starts[i].Releasing? || w'.starts[i].Returned?
  {
    ReachableInv(w);
    RunKeepsInv(w, labels);
    StopStaysPastWait(w, j, labels);
  }

  predicate PastWait(w: World, j: nat) {
    PastStopEntry(w, j) && !w.stops[j].Cancelling? && !w.stops[j].Waiting?
  }

  lemma {:induction false} StopStaysPastWait(w: World, j: nat, labels: seq<Action>)
    requires Run(Step, w, labels).Some? && PastWait(w, j)
    ensures PastWait(Run(Step, w, labels).value, j)
    decreases |labels|
  {
    if labels != [] {
      StopStaysPastWait(Step(w, labels[0]).value, j, labels[1..]);
    }
  }

  /** A Stop call that gave up on the graceful close has killed the process. */
  lemma DrainingHasKilled(w: World, j: nat)
    requires Reachable(w) && j < |w.stops| && w.stops[j].Draining?
    ensures w.stops[j].closing in w.e.killed
  {
    ReachableInv(w);
  }

  // -- Status --

  lemma {:induction false} StatusMovesForward(w: World, labels: seq<Action>)
    requires Run(Step, w, labels).Some?
    ensures NoLater(w.f.status, Run(Step, w, labels).value.f.status)
    decreases |labels|
  {
    if labels != [] {
      var v := Step(w, labels[0]).value;
      StepMovesForward(w, labels[0]);
      StatusMovesForward(v, labels[1..]);
    }
  }

  lemma StepMovesForward(w: World, a: Action)
    requires Step(w, a).Some?
    ensures NoLater(w.f.status, Step(w, a).value.f.status)
  {
    match a
    case StartStep(i, reply) =>
      StartMovesForward(w, i, reply);
    case StopStep(j, timedOut) =>
      assert Step(w, a).value.f.status == w.f.status || w.stops[j].StopCalled?;
    case MonitorStep(_) =>
    case _ =>
  }

  lemma StartMovesForward(w: World, i: CallId, reply: Reply)
    requires i < |w.starts| && StartNext(w, i, reply).Some?
    ensures NoLater(w.f.status, StartNext(w, i, reply).value.f.status)
  {
  }

  lemma StepKeepsTools(w: World, a: Action)
    requires Step(w, a).Some? && w.f.status != New && w.f.status != Starting
    ensures Step(w, a).value.f.tools == w.f.tools
  {
  }

  /** What a successful Start returns is what the child's tools are, whatever has happened since. */
  lemma StartReturnsItsTools(w: World, i: CallId)
    requires Reachable(w) && i < |w.starts| && w.starts[i].Returned? && w.starts[i].outcome.Success?
    ensures w.f.tools == w.starts[i].outcome.tools && w.f.status != New && w.f.status != Starting
  {
    ReachableInv(w);
    assert w.h.entered == [i];
  }

  /** Once the child is neither New nor Starting its tools never change. */
  lemma {:induction false} ToolsFixed(w: World, labels: seq<Action>)
    requires Run(Step, w, labels).Some? && w.f.status != New && w.f.status != Starting
    ensures Run(Step, w, labels).value.f.tools == w.f.tools
    decreases |labels|
  {
    if labels != [] {
      StepKeepsTools(w, labels[0]);
      StepMovesForward(w, labels[0]);
      ToolsFixed(Step(w, labels[0]).value, labels[1..]);
    }
  }

  /**
   * At most one Start call passes entry; startDone is closed at most once, and is the open channel of that call
   * when it is closed; Start succeeds exactly when it made the transition to Running.
   */
  lemma StartOnce(w: World, i: CallId)
    requires Reachable(w) && i < |w.starts|
    ensures |w.h.entered| <= 1 && |w.e.doneCloses| <= 1
    ensures w.starts[i].Leaving? ==> w.f.startDone == Some(i) && w.e.doneCloses == []
    ensures w.starts[i].Returned? ==> (w.starts[i].outcome.Success? <==> i in w.h.committed)
    ensures w.starts[i].Returned? && i !in w.h.entered ==> w.starts[i].outcome.Failure? && w.starts[i].outcome.error.CannotStart?
  {
    ReachableInv(w);
  }

  /** Running means a published session and process, and the tools the Start call found. */
  lemma RunningIsConsistent(w: World)
    requires Reachable(w) && w.f.status == Running
    ensures w.f.session.Some? && w.f.process == w.f.session && w.h.committed == [w.f.session.value]
    ensures var i := w.f.session.value;
      i < |w.starts| && Succeeding(w.starts[i]) && FoundTools(w.starts[i]) == w.f.tools && !Closed(w, i)
    ensures forall j :: 0 <= j < |w.stops| ==> w.stops[j].StopCalled?
  {
    ReachableInv(w);
  }

  /** A child that crashed while starting has no session and its Start call failed. */
  lemma CrashedAtStartup(w: World)
    requires Reachable(w) && w.f.status == Crashed && w.h.committed == []
    ensures w.f.session.None? && w.f.process.None? && w.e.onCrashCalls == 0
    ensures exists i :: 0 <= i < |w.starts| && DoneClosed(w.starts[i]) && w.starts[i].outcome.Failure?
  {
    ReachableInv(w);
    var i := w.h.entered[0];
    assert DoneClosed(w.starts[i]);
  }

  /** Start leaves the status at Starting only when its context was cancelled, and no Stop call ran. */
  lemma LeftStarting(w: World, i: CallId)
    requires Reachable(w) && i < |w.starts| && w.starts[i].Releasing? && w.f.status == Starting
    ensures w.starts[i].outcome.Failure? && i in w.e.cancelled
    ensures forall j :: 0 <= j < |w.stops| ==> w.stops[j].StopCalled?
  {
    ReachableInv(w);
  }

  /** A failed Start turns the child Crashed exactly when its context was not cancelled and no Stop call came. */
  lemma FailedStartCrashesIff(w: World, i: CallId)
    requires Reachable(w) && i < |w.starts| && w.starts[i].Leaving? && w.starts[i].outcome.Failure?
    ensures Step(w, StartStep(i, NoCall)).Some?
    ensures Step(w, StartStep(i, NoCall)).value.f.status == Crashed
       <==> i !in w.e.cancelled && forall j :: 0 <= j < |w.stops| ==> w.stops[j].StopCalled?
  {
    ReachableInv(w);
    assert w.h.entered == [i];
    if w.f.status != Starting {
      assert w.h.anyStop;
      assert PastStopEntry(w, w.h.cancelTakers[0]);
    }
  }

  // -- What Start answers --

  /** A Start call that is turned away says what status it found, and changes nothing. */
  lemma RefusalNamesStatus(w: World, i: CallId)
    requires Reachable(w) && i < |w.starts| && w.starts[i] == Called && w.f.status != New
    ensures Step(w, StartStep(i, NoCall)).Some?
    ensures var w' := Step(w, StartStep(i, NoCall)).value;
      w'.starts[i] == Returned(Failure(CannotStart(w.f.status))) && w'.f == w.f && w'.h == w.h && w'.e == w.e
  {
  }

  function PcOf(w: World, i: CallId): StartPc {
    if i < |w.starts| then w.starts[i] else Called
  }

  /** What became of the Start call, as far as it is settled: its Connect failed, its discovery failed, or it has all tools. */
  datatype Course = ConnectLost | DiscoveryLost | AllListed | Open

  function CourseOf(pc: StartPc): Course {
    if pc.Reaping? || FailedWith(pc, ConnectFailed) then ConnectLost
    else if pc.Abandoning? || pc == Closing(DiscoveryFailed) || FailedWith(pc, DiscoveryFailed) then DiscoveryLost
    else if pc.Committing? || Succeeding(pc) || FailedWith(pc, StoppedBeforeCommit) then AllListed
    else Open
  }

  predicate ConnectFails(a: Action, i: CallId) {
    a.StartStep? && a.call == i && a.reply.ConnectError?
  }

  predicate LastPage(a: Action, i: CallId) {
    a.StartStep? && a.call == i && a.reply.ListPage? && !a.reply.more
  }

  lemma ClosesForTwoReasons(w: World, i: CallId)
    requires Inv(w) && i < |w.starts| && w.starts[i].Closing?
    ensures w.starts[i].error == StoppedBeforePublish || w.starts[i].error == DiscoveryFailed
  {
    assert w.h.entered == [i];
  }

  lemma StartLeavesOthers(w: World, k: CallId, reply: Reply, i: CallId)
    requires k < |w.starts| && k != i && StartNext(w, k, reply).Some?
    ensures PcOf(StartNext(w, k, reply).value, i) == PcOf(w, i)
  {
  }

  lemma StopLeavesStarts(w: World, j: nat, timedOut: bool)
    requires j < |w.stops| && StopNext(w, j, timedOut).Some?
    ensures StopNext(w, j, timedOut).value.starts == w.starts
  {
  }

  lemma StepSettles(w: World, a: Action, i: CallId)
    requires Inv(w) && Step(w, a).Some?
    ensures var c, c' := CourseOf(PcOf(w, i)), CourseOf(PcOf(Step(w, a).value, i));
      && (c' == ConnectLost <==> c == ConnectLost || ConnectFails(a, i))
      && (c' == DiscoveryLost <==> c == DiscoveryLost || a == StartStep(i, ListError))
      && (c' == AllListed <==> c == AllListed || LastPage(a, i))
  {
    if i < |w.starts| && w.starts[i].Closing? {
      ClosesForTwoReasons(w, i);
    }
    CourseMoves(w, a, i);
  }

  lemma CourseMoves(w: World, a: Action, i: CallId)
    requires Step(w, a).Some?
    requires i < |w.starts| && w.starts[i].Closing? ==> w.starts[i].error == StoppedBeforePublish || w.starts[i].error == DiscoveryFailed
    ensures var c, c' := CourseOf(PcOf(w, i)), CourseOf(PcOf(Step(w, a).value, i));
      && (c' == ConnectLost <==> c == ConnectLost || ConnectFails(a, i))
      && (c' == DiscoveryLost <==> c == DiscoveryLost || a == StartStep(i, ListError))
      && (c' == AllListed <==> c == AllListed || LastPage(a, i))
  {
    if a.StartStep? {
      if a.call == i { OwnStepSettles(w, i, a.reply); } else { StartLeavesOthers(w, a.call, a.reply, i); }
    } else if a.StopStep? {
      StopLeavesStarts(w, a.stop, a.timedOut);
    }
  }

  lemma OwnStepSettles(w: World, i: CallId, reply: Reply)
    requires i < |w.starts| && StartNext(w, i, reply).Some?
    requires w.starts[i].Closing? ==> w.starts[i].error == StoppedBeforePublish || w.starts[i].error == DiscoveryFailed
    ensures var c, c' := CourseOf(w.starts[i]), CourseOf(PcOf(StartNext(w, i, reply).value, i));
      && (c' == ConnectLost <==> c == ConnectLost || reply.ConnectError?)
      && (c' == DiscoveryLost <==> c == DiscoveryLost || reply == ListError)
      && (c' == AllListed <==> c == AllListed || (reply.ListPage? && !reply.more))
  {
  }

  lemma {:induction false} RunSettles(w: World, labels: seq<Action>, i: CallId)
    requires Inv(w) && Run(Step, w, labels).Some?
    ensures var c, c' := CourseOf(PcOf(w, i)), CourseOf(PcOf(Run(Step, w, labels).value, i));
      && (c' == ConnectLost <==> c == ConnectLost || exists a :: a in labels && ConnectFails(a, i))
      && (c' == DiscoveryLost <==> c == DiscoveryLost || StartStep(i, ListError) in labels)
      && (c' == AllListed <==> c == AllListed || exists a :: a in labels && LastPage(a, i))
    decreases |labels|
  {
    if labels != [] {
      StepSettles(w, labels[0], i);
      StepKeepsInv(w, labels[0]);
      RunSettles(Step(w, labels[0]).value, labels[1..], i);
      assert labels == [labels[0]] + labels[1..];
    }
  }

  /**
   * Why a Start call that passed entry failed: Connect failed, a ListTools failed, or the child was stopped, before
   * the session was published or after the last page had come.
   */
  lemma StartFailsBecause(labels: seq<Action>, i: CallId)
    requires Run(Step, INIT, labels).Some? && i < |Run(Step, INIT, labels).value.starts|
    requires var w := Run(Step, INIT, labels).value; i in w.h.entered && w.starts[i].Returned? && w.starts[i].outcome.Failure?
    ensures var w := Run(Step, INIT, labels).value;
      var error := w.starts[i].outcome.error;
      && (error == ConnectFailed <==> exists a :: a in labels && ConnectFails(a, i))
      && (error == DiscoveryFailed <==> StartStep(i, ListError) in labels)
      && (error == StoppedBeforeCommit <==> exists a :: a in labels && LastPage(a, i))
      && (error == StoppedBeforePublish || error == StoppedBeforeCommit ==> exists a :: a in labels && a.StopStep?)
      && !error.CannotStart?
  {
    RunKeepsInv(INIT, labels);
    RunSettles(INIT, labels, i);
    FailureIsSettled(Run(Step, INIT, labels).value, i);
    if Run(Step, INIT, labels).value.h.anyStop {
      StopWasCalled(INIT, labels);
    }
  }

  lemma FailureIsSettled(w: World, i: CallId)
    requires Inv(w) && i < |w.starts| && i in w.h.entered && w.starts[i].Returned? && w.starts[i].outcome.Failure?
    ensures var error, c := w.starts[i].outcome.error, CourseOf(w.starts[i]);
      && (error == ConnectFailed <==> c == ConnectLost) && (error == DiscoveryFailed <==> c == DiscoveryLost)
      && (error == StoppedBeforeCommit <==> c == AllListed) && !error.CannotStart?
      && (error == StoppedBeforePublish || error == StoppedBeforeCommit ==> w.h.anyStop)
  {
    assert w.h.entered == [i];
  }

  lemma {:induction false} StopWasCalled(w: World, labels: seq<Action>)
    requires Run(Step, w, labels).Some? && Run(Step, w, labels).value.h.anyStop
    ensures w.h.anyStop || exists a :: a in labels && a.StopStep?
    decreases |labels|
  {
    if labels != [] {
      assert labels == [labels[0]] + labels[1..] && labels[0] in labels;
      assert Step(w, labels[0]).value.h.anyStop ==> w.h.anyStop || labels[0].StopStep?;
      StopWasCalled(Step(w, labels[0]).value, labels[1..]);
    }
  }

  // -- Discovery --

  /** The steps of a discovery that gets these replies: each but the last is followed by another call. */
  function Answers(i: CallId, replies: seq<ListReply>): seq<Action>
    requires forall k :: 0 <= k < |replies| ==> replies[k].Page?
  {
    if replies == [] then []
    else if |replies| == 1 then [StartStep(i, ListPage(replies[0].tools, false))]
    else [StartStep(i, ListPage(replies[0].tools, true)), StartStep(i, NoCall)] + Answers(i, replies[1..])
  }

  /** An undisturbed discovery commits the tools of all pages, in order. */
  lemma {:induction false} DiscoveryCollectsPages(w: World, i: CallId, all: seq<Tool>, replies: seq<ListReply>)
    requires i < |w.starts| && w.starts[i] == InList(all, false) && i !in w.e.cancelled
    requires replies != [] && forall k :: 0 <= k < |replies| ==> replies[k].Page?
    ensures Run(Step, w, Answers(i, replies)) == Some(MoveStart(w, i, Committing(all + AllTools(replies))))
    decreases |replies|
  {
    AllToolsFront(replies);
    var first := replies[0].tools;
    if |replies| == 1 {
      var w' := MoveStart(w, i, Committing(all + first));
      assert AllTools(replies[1..]) == [] && first + [] == first;
      assert Step(w, StartStep(i, ListPage(first, false))) == Some(w');
      assert Run(Step, w', []) == Some(w');
    } else {
      var w1 := MoveStart(w, i, Listing(all + first));
      var w2 := MoveStart(w1, i, InList(all + first, false));
      assert Step(w, StartStep(i, ListPage(first, true))) == Some(w1);
      assert Step(w1, StartStep(i, NoCall)) == Some(w2);
      DiscoveryCollectsPages(w2, i, all + first, replies[1..]);
      var two := [StartStep(i, ListPage(first, true)), StartStep(i, NoCall)];
      assert two[1..] == [StartStep(i, NoCall)] && two[1..][1..] == [];
      assert Run(Step, w1, two[1..]) == Run(Step, w2, []) == Some(w2);
      assert Run(Step, w, two) == Some(w2);
      RunConcat(Step, w, two, Answers(i, replies[1..]));
      assert all + first + AllTools(replies[1..]) == all + (first + AllTools(replies[1..]));
      var end := Committing(all + AllTools(replies));
      assert w.starts[i := w1.starts[i]][i := w2.starts[i]][i := end] == w.starts[i := end];
    }
  }

  lemma {:induction false} AllToolsFront(replies: seq<ListReply>)
    requires replies != [] && forall k :: 0 <= k < |replies| ==> replies[k].Page?
    ensures AllTools(replies) == replies[0].tools + AllTools(replies[1..])
    decreases |replies|
  {
    var front, last := replies[..|replies| - 1], Last(replies).tools;
    if front == [] {
      assert AllTools(front) == [] && AllTools(replies[1..]) == [];
    } else {
      var tail := replies[1..];
      AllToolsFront(front);
      assert front[1..] == tail[..|tail| - 1];
      assert AllTools(tail) == AllTools(front[1..]) + last;
      assert replies[0].tools + AllTools(front[1..]) + last == replies[0].tools + (AllTools(front[1..]) + last);
    }
  }

  // -- The crash callback --

  /** onCrash runs at most once, only for a child that went from Running to Crashed, and then is due exactly once. */
  lemma CrashCallbackOnce(w: World)
    requires Reachable(w)
    ensures w.e.onCrashCalls <= 1
    ensures w.e.onCrashCalls == 1 ==> w.f.status == Crashed && w.h.committed != []
    ensures (forall k :: 0 <= k < |w.monitors| ==> w.monitors[k] == Finished) && (forall i :: 0 <= i < |w.starts| ==> !w.starts[i].Launching?)
      ==> (w.e.onCrashCalls == 1 <==> w.f.status == Crashed && w.h.committed != [])
  {
    ReachableInv(w);
  }

  /** A Stop call that comes before the crash is noticed silences the callback for good. */
  lemma NoCallbackAfterStop(w: World, labels: seq<Action>)
    requires Reachable(w) && w.f.status == Stopped && Run(Step, w, labels).Some?
    ensures Run(Step, w, labels).value.e.onCrashCalls == 0
  {
    ReachableInv(w);
    RunKeepsInv(w, labels);
    StatusMovesForward(w, labels);
  }

  // -- Cancellation --

  /** The context a Start call derived at entry is cancelled by the time the call returns, whatever it returns. */
  lemma ContextReleased(w: World, i: CallId)
    requires Reachable(w) && i < |w.starts| && w.starts[i].Returned? && i in w.h.entered
    ensures i in w.e.cancelled
  {
    ReachableInv(w);
  }

  /** While a Stop call waits on an open startDone, that Start's context is cancelled or is about to be. */
  lemma NoLostCancellation(w: World, j: nat, i: CallId)
    requires Reachable(w) && j < |w.stops| && w.stops[j].Waiting? && w.stops[j].done == Some(i)
    requires i !in w.e.doneCloses
    ensures i < |w.starts| && !w.starts[i].Called? && !DoneClosed(w.starts[i])
    ensures i in w.e.cancelled
         || exists k :: 0 <= k < |w.stops| && w.stops[k].Cancelling? && w.stops[k].cancel == Some(i)
  {
    ReachableInv(w);
    if i !in w.e.cancelled {
      assert w.stops[w.h.cancelTakers[0]].Cancelling?;
    }
  }
}
