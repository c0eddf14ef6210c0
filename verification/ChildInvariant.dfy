/** What every step of every Start call, Stop call and monitor keeps, whatever the interleaving. */
module ChildInvariant {
  import opened Prelude
  import opened ChildState
  import opened ChildLifecycle

  /** The Start call past entry still has its session and must close it itself. */
  predicate StartMustClose(pc: StartPc) {
    pc.Publishing? || pc.Abandoning? || pc.Closing?
  }

  /** The Start call past entry has published its session and not given it up. */
  predicate Published(pc: StartPc) {
    pc.Listing? || pc.InList? || pc.Abandoning? || pc.Committing? || pc.Launching?
    || ((pc.Leaving? || pc.Releasing? || pc.Returned?) && pc.outcome.Success?)
  }

  predicate Ended(pc: StartPc) {
    pc.Leaving? || pc.Releasing? || pc.Returned?
  }

  predicate FailedWith(pc: StartPc, error: StartError) {
    Ended(pc) && pc.outcome == Failure(error)
  }

  predicate HasOpened(pc: StartPc) {
    !(pc.Called? || pc.Connecting? || pc.Reaping? || FailedWith(pc, ConnectFailed))
  }

  predicate NeverPublished(pc: StartPc) {
    !HasOpened(pc) || pc.Publishing? || pc == Closing(StoppedBeforePublish) || FailedWith(pc, StoppedBeforePublish)
  }

  predicate DoneClosed(pc: StartPc) {
    pc.Releasing? || pc.Returned?
  }

  predicate Succeeding(pc: StartPc) {
    pc.Launching? || (Ended(pc) && pc.outcome.Success?)
  }

  function FoundTools(pc: StartPc): seq<Tool>
    requires Succeeding(pc)
  {
    if pc.Launching? then pc.found else pc.outcome.tools
  }

  /** The Stop call holds the session and has not closed it yet. */
  predicate StopHolds(pc: StopPc, s: CallId) {
    match pc
    case Cancelling(session, _, _, _) => session == Some(s)
    case Waiting(session, _, _) => session == Some(s)
    case InClose(session, _) => session == s
    case Draining(session) => session == s
    case _ => false
  }

  /** No Start call has passed entry yet. */
  predicate Idle(w: World) {
    && (w.f == FRESH || w.f == FRESH.(status := Stopped))
    && w.monitors == [] && w.e.doneCloses == [] && w.e.sessions == {} && w.e.startCloses == [] && w.e.stopCloses == [] && w.e.orphans == {} && w.e.killed == {}
    && w.e.onCrashCalls == 0 && (w.f.status == Stopped <==> w.h.anyStop) && w.h.committed == [] && w.h.cancelTakers == [] && w.h.takers == []
    && forall j :: 0 <= j < |w.stops| ==> StopBlank(w.stops[j])
  }

  /** A Stop call that found nothing in the fields. */
  predicate StopBlank(pc: StopPc) {
    pc == StopCalled || pc == Cancelling(None, None, None, None) || pc == Waiting(None, None, None)
    || pc == Rereading || pc == StopReturned
  }

  predicate StartOutside(pc: StartPc) {
    pc.Called? || (pc.Returned? && pc.outcome.Failure? && pc.outcome.error.CannotStart?)
  }

  /** What the fields hold while the Start call i is past entry. */
  predicate FieldsOk(f: Fields, anyStop: bool, i: CallId, pc: StartPc) {
    && f.startDone == Some(i)
    && (f.session == None || f.session == Some(i))
    && f.process == f.session
    && (f.stopCancel == None || f.stopCancel == Some(i))
    && f.status != New
    && (f.session.Some? ==> !anyStop && Published(pc))
    && (Published(pc) && !anyStop ==> f.session.Some?)
    && (anyStop ==> f.stopCancel.None? && (f.status == Stopped || f.status == Crashed))
    && (f.status == Stopped ==> anyStop)
    && (f.status == Starting ==> !Succeeding(pc))
    && (f.status == Running ==> Succeeding(pc))
    && (Succeeding(pc) ==> f.tools == FoundTools(pc))
    && (f.status == Crashed ==> Succeeding(pc) || DoneClosed(pc))
    && (DoneClosed(pc) ==> f.stopCancel.None?)
    && (FailedWith(pc, StoppedBeforePublish) || FailedWith(pc, StoppedBeforeCommit) || pc == Closing(StoppedBeforePublish) ==> anyStop)
  }

  /** Control: the errors a Start call past entry can end with, its done channel, its context. */
  predicate ControlOk(status: Status, cancelled: set<CallId>, doneCloses: seq<CallId>, i: CallId, pc: StartPc) {
    && !StartOutside(pc)
    && (Ended(pc) && pc.outcome.Failure? ==> !pc.outcome.error.CannotStart?)
    && (pc.Closing? ==> pc.error == StoppedBeforePublish || pc.error == DiscoveryFailed)
    && doneCloses == (if DoneClosed(pc) then [i] else [])
    && (pc.Releasing? && pc.outcome.Failure? && status == Starting ==> i in cancelled)
    && (pc.InList? && pc.late ==> i in cancelled)
    && (pc.Returned? ==> i in cancelled)
  }

  /** What the Start call i has opened, closed and killed itself. */
  predicate StartDutyOk(e: Effects, i: CallId, pc: StartPc) {
    && e.sessions == (if HasOpened(pc) then {i} else {})
    && (e.orphans == {} || e.orphans == {i})
    && (e.orphans != {} ==> pc == Reaping || (i in e.killed && FailedWith(pc, ConnectFailed)))
    && (pc == Reaping ==> e.orphans == {i})
    && e.startCloses == (if FailedWith(pc, StoppedBeforePublish) || FailedWith(pc, DiscoveryFailed) then [i] else [])
  }

  /** The Stop call that took the session, and whether it has closed it. */
  predicate StopDutyOk(session: Option<CallId>, h: History, stopCloses: seq<CallId>, stops: seq<StopPc>, i: CallId, pc: StartPc) {
    && |h.takers| <= 1
    && (h.anyStop && (Published(pc) || FailedWith(pc, StoppedBeforeCommit)) ==> h.takers != [])
    && (session.Some? ==> h.takers == [])
    && (NeverPublished(pc) ==> h.takers == [])
    && (h.takers != [] ==>
        && h.anyStop && h.takers[0] < |stops|
        && (StopHolds(stops[h.takers[0]], i) || stops[h.takers[0]].StopReturned?))
    && stopCloses == (if h.takers != [] && stops[h.takers[0]].StopReturned? then [i] else [])
  }

  /**
   * What the Stop call j, being at pc, holds while the Start call i is the one past entry: it came after that
   * entry, so it waits for the call, and goes on only once startDone is closed (over).
   */
  predicate StopOk(takers: seq<nat>, cancelTakers: seq<nat>, killed: set<CallId>, over: bool, i: CallId, pc: StopPc, j: nat) {
    match pc
    case StopCalled => true
    case Cancelling(session, process, cancel, done) =>
      process == session && (session == None || (session == Some(i) && takers == [j]))
      && (cancel == None || (cancel == Some(i) && cancelTakers == [j])) && done == Some(i)
    case Waiting(session, process, done) =>
      process == session && (session == None || (session == Some(i) && takers == [j])) && done == Some(i)
    case InClose(session, process) => over && session == i && process == Some(i) && takers == [j]
    case Draining(session) => over && session == i && takers == [j] && i in killed
    case Rereading => over
    case StopReturned => over
  }

  predicate StopsOk(takers: seq<nat>, cancelTakers: seq<nat>, killed: set<CallId>, over: bool, i: CallId, stops: seq<StopPc>) {
    forall j :: 0 <= j < |stops| ==> StopOk(takers, cancelTakers, killed, over, i, stops[j], j)
  }

  /** Until Start closes startDone its context is cancelled, or somebody still holds the cancel function. */
  predicate CancelOk(stopCancel: Option<CallId>, h: History, cancelled: set<CallId>, stops: seq<StopPc>, i: CallId, pc: StartPc) {
    && |h.cancelTakers| <= 1
    && (stopCancel.Some? ==> h.cancelTakers == [])
    && (!DoneClosed(pc) && stopCancel.None? ==> h.cancelTakers != [])
    && (h.cancelTakers != [] ==>
        && h.anyStop && h.cancelTakers[0] < |stops| && stops[h.cancelTakers[0]] != StopCalled
        && (i in cancelled || (stops[h.cancelTakers[0]].Cancelling? && stops[h.cancelTakers[0]].cancel == Some(i))))
  }

  /** The monitor, spawned at most once, and the crash callback. */
  predicate MonitorOk(status: Status, committed: seq<CallId>, monitors: seq<MonitorPc>, onCrashCalls: nat, i: CallId, pc: StartPc) {
    && committed == (if Succeeding(pc) then [i] else [])
    && |monitors| == (if Succeeding(pc) && !pc.Launching? then 1 else 0)
    && (monitors == [] ==> onCrashCalls == 0 && (Succeeding(pc) ==> status != Crashed))
    && (monitors != [] ==>
        && (status == Crashed <==> monitors[0] == Calling || onCrashCalls > 0)
        && onCrashCalls == (if status == Crashed && monitors[0] == Finished then 1 else 0)
        && (monitors[0].Watching? ==> monitors[0].session == i)
        && (status == Running ==> monitors[0] != Finished))
  }

  /** The invariant once the Start call i is past entry. */
  predicate InvEntered(w: World, i: CallId, pc: StartPc) {
    && FieldsOk(w.f, w.h.anyStop, i, pc)
    && ControlOk(w.f.status, w.e.cancelled, w.e.doneCloses, i, pc)
    && StartDutyOk(w.e, i, pc)
    && StopDutyOk(w.f.session, w.h, w.e.stopCloses, w.stops, i, pc)
    && CancelOk(w.f.stopCancel, w.h, w.e.cancelled, w.stops, i, pc)
    && MonitorOk(w.f.status, w.h.committed, w.monitors, w.e.onCrashCalls, i, pc)
    && StopsOk(w.h.takers, w.h.cancelTakers, w.e.killed, DoneClosed(pc), i, w.stops)
  }

  predicate InvBase(w: World) {
    && |w.h.entered| <= 1
    && w.h.rereadTakers == []
    && (forall i :: 0 <= i < |w.starts| && i !in w.h.entered ==> StartOutside(w.starts[i]))
    && (forall j :: 0 <= j < |w.stops| && w.stops[j] != StopCalled ==> w.h.anyStop)
  }

  predicate Inv(w: World) {
    && InvBase(w)
    && (w.h.entered == [] ==> Idle(w))
    && (w.h.entered != [] ==> w.h.entered[0] < |w.starts| && InvEntered(w, w.h.entered[0], w.starts[w.h.entered[0]]))
  }

  // -- Every step keeps the invariant --

  /** The Start call i, at pc, is the one past entry. */
  predicate Inside(w: World, i: CallId, pc: StartPc) {
    w.h.entered == [i] && i < |w.starts| && w.starts[i] == pc && InvBase(w) && InvEntered(w, i, pc)
  }

  /** The parts of the invariant, put together. */
  lemma Assemble(w: World, i: CallId)
    requires InvBase(w)
    requires w.h.entered == [i] && i < |w.starts|
    requires FieldsOk(w.f, w.h.anyStop, i, w.starts[i])
    requires ControlOk(w.f.status, w.e.cancelled, w.e.doneCloses, i, w.starts[i])
    requires StartDutyOk(w.e, i, w.starts[i])
    requires StopDutyOk(w.f.session, w.h, w.e.stopCloses, w.stops, i, w.starts[i])
    requires CancelOk(w.f.stopCancel, w.h, w.e.cancelled, w.stops, i, w.starts[i])
    requires MonitorOk(w.f.status, w.h.committed, w.monitors, w.e.onCrashCalls, i, w.starts[i])
    requires StopsOk(w.h.takers, w.h.cancelTakers, w.e.killed, DoneClosed(w.starts[i]), i, w.stops)
    ensures Inv(w)
  {
  }

  /** A step that moves no Stop call, lets none take anything, and at most kills a process or closes startDone. */
  lemma StopsKept(w: World, w': World, i: CallId)
    requires i < |w.starts| && i < |w'.starts| && w'.stops == w.stops
    requires w'.h.takers == w.h.takers && w'.h.cancelTakers == w.h.cancelTakers && w.e.killed <= w'.e.killed
    requires DoneClosed(w.starts[i]) ==> DoneClosed(w'.starts[i])
    requires StopsOk(w.h.takers, w.h.cancelTakers, w.e.killed, DoneClosed(w.starts[i]), i, w.stops)
    ensures StopsOk(w'.h.takers, w'.h.cancelTakers, w'.e.killed, DoneClosed(w'.starts[i]), i, w'.stops)
  {
    forall j | 0 <= j < |w'.stops|
      ensures StopOk(w'.h.takers, w'.h.cancelTakers, w'.e.killed, DoneClosed(w'.starts[i]), i, w'.stops[j], j)
    {
      assert StopOk(w.h.takers, w.h.cancelTakers, w.e.killed, DoneClosed(w.starts[i]), i, w.stops[j], j);
    }
  }

  /** A step of the Stop call j that takes nothing. */
  lemma StopMoved(w: World, w': World, i: CallId, j: nat, pc: StopPc)
    requires i < |w.starts| && w'.starts == w.starts && j < |w.stops| && w'.stops == w.stops[j := pc]
    requires w'.h.takers == w.h.takers && w'.h.cancelTakers == w.h.cancelTakers && w.e.killed <= w'.e.killed
    requires StopsOk(w.h.takers, w.h.cancelTakers, w.e.killed, DoneClosed(w.starts[i]), i, w.stops)
    requires StopOk(w'.h.takers, w'.h.cancelTakers, w'.e.killed, DoneClosed(w'.starts[i]), i, pc, j)
    ensures StopsOk(w'.h.takers, w'.h.cancelTakers, w'.e.killed, DoneClosed(w'.starts[i]), i, w'.stops)
  {
    forall k | 0 <= k < |w'.stops|
      ensures StopOk(w'.h.takers, w'.h.cancelTakers, w'.e.killed, DoneClosed(w'.starts[i]), i, w'.stops[k], k)
    {
      if k != j {
        assert StopOk(w.h.takers, w.h.cancelTakers, w.e.killed, DoneClosed(w.starts[i]), i, w.stops[k], k);
      }
    }
  }

  lemma EnterKeepsInv(w: World, i: CallId)
    requires Inv(w) && i < |w.starts| && w.starts[i] == Called
    ensures Inv(EnterNext(w, i))
  {
    assert i !in w.h.entered;
  }

  lemma ConnectKeepsInv(w: World, i: CallId, reply: Reply)
    requires Inside(w, i, Connecting)
    requires ConnectNext(w, i, reply).Some?
    ensures Inv(ConnectNext(w, i, reply).value)
  {
    var w' := ConnectNext(w, i, reply).value;
    StopsKept(w, w', i);
    Assemble(w', i);
  }

  lemma ReapKeepsInv(w: World, i: CallId)
    requires Inside(w, i, Reaping)
    ensures Inv(ReapNext(w, i))
  {
    var w' := ReapNext(w, i);
    StopsKept(w, w', i);
    Assemble(w', i);
  }

  lemma PublishKeepsInv(w: World, i: CallId)
    requires Inside(w, i, Publishing)
    ensures Inv(PublishNext(w, i))
  {
    var w' := PublishNext(w, i);
    StopsKept(w, w', i);
    Assemble(w', i);
  }

  lemma AskKeepsInv(w: World, i: CallId, all: seq<Tool>)
    requires Inside(w, i, Listing(all))
    ensures Inv(AskNext(w, i, all))
  {
    var w' := AskNext(w, i, all);
    StopsKept(w, w', i);
    Assemble(w', i);
  }

  lemma ListKeepsInv(w: World, i: CallId, all: seq<Tool>, late: bool, reply: Reply)
    requires Inside(w, i, InList(all, late))
    requires ListNext(w, i, all, late, reply).Some?
    ensures Inv(ListNext(w, i, all, late, reply).value)
  {
    var w' := ListNext(w, i, all, late, reply).value;
    StopsKept(w, w', i);
    Assemble(w', i);
  }

  lemma AbandonKeepsInv(w: World, i: CallId)
    requires Inside(w, i, Abandoning)
    ensures Inv(AbandonNext(w, i))
  {
    var w' := AbandonNext(w, i);
    StopsKept(w, w', i);
    Assemble(w', i);
  }

  lemma CloseKeepsInv(w: World, i: CallId, error: StartError)
    requires Inside(w, i, Closing(error))
    ensures Inv(CloseNext(w, i, error))
  {
    var w' := CloseNext(w, i, error);
    StopsKept(w, w', i);
    Assemble(w', i);
  }

  lemma CommitKeepsInv(w: World, i: CallId, found: seq<Tool>)
    requires Inside(w, i, Committing(found))
    ensures Inv(CommitNext(w, i, found))
  {
    var w' := CommitNext(w, i, found);
    StopsKept(w, w', i);
    Assemble(w', i);
  }

  lemma LaunchKeepsInv(w: World, i: CallId, found: seq<Tool>)
    requires Inside(w, i, Launching(found))
    ensures Inv(LaunchNext(w, i, found))
  {
    var w' := LaunchNext(w, i, found);
    StopsKept(w, w', i);
    Assemble(w', i);
  }

  /** The exit section: what it leaves in the fields. */
  lemma LeaveKeepsFields(w: World, w': World, i: CallId, outcome: Outcome)
    requires Inside(w, i, Leaving(outcome))
    requires LeaveNext(w, i, outcome) == Some(w')
    ensures FieldsOk(w'.f, w'.h.anyStop, i, w'.starts[i])
    ensures ControlOk(w'.f.status, w'.e.cancelled, w'.e.doneCloses, i, w'.starts[i])
    ensures MonitorOk(w'.f.status, w'.h.committed, w'.monitors, w'.e.onCrashCalls, i, w'.starts[i])
  {
  }

  /** The exit section: who still has to close, cancel and wait. */
  lemma LeaveKeepsDuties(w: World, w': World, i: CallId, outcome: Outcome)
    requires Inside(w, i, Leaving(outcome))
    requires LeaveNext(w, i, outcome) == Some(w')
    ensures StartDutyOk(w'.e, i, w'.starts[i])
    ensures StopDutyOk(w'.f.session, w'.h, w'.e.stopCloses, w'.stops, i, w'.starts[i])
    ensures CancelOk(w'.f.stopCancel, w'.h, w'.e.cancelled, w'.stops, i, w'.starts[i])
    ensures StopsOk(w'.h.takers, w'.h.cancelTakers, w'.e.killed, DoneClosed(w'.starts[i]), i, w'.stops)
  {
    StopsKept(w, w', i);
  }

  lemma LeaveKeepsInv(w: World, i: CallId, outcome: Outcome)
    requires Inside(w, i, Leaving(outcome))
    requires LeaveNext(w, i, outcome).Some?
    ensures Inv(LeaveNext(w, i, outcome).value)
  {
    var w' := LeaveNext(w, i, outcome).value;
    LeaveKeepsFields(w, w', i, outcome);
    LeaveKeepsDuties(w, w', i, outcome);
    Assemble(w', i);
  }

  lemma ReleaseKeepsInv(w: World, i: CallId, outcome: Outcome)
    requires Inside(w, i, Releasing(outcome))
    ensures Inv(ReleaseNext(w, i, outcome))
  {
    var w' := ReleaseNext(w, i, outcome);
    StopsKept(w, w', i);
    Assemble(w', i);
  }

  lemma InternalKeepsInv(w: World, i: CallId, pc: StartPc)
    requires Inside(w, i, pc)
    requires !pc.Called? && !pc.Connecting? && !pc.InList? && !pc.Leaving? && !pc.Returned?
    ensures Inv(InternalNext(w, i, pc))
  {
    match pc
    case Reaping => ReapKeepsInv(w, i);
    case Publishing => PublishKeepsInv(w, i);
    case Listing(all) => AskKeepsInv(w, i, all);
    case Abandoning => AbandonKeepsInv(w, i);
    case Closing(error) => CloseKeepsInv(w, i, error);
    case Committing(found) => CommitKeepsInv(w, i, found);
    case Launching(found) => LaunchKeepsInv(w, i, found);
    case Releasing(outcome) => ReleaseKeepsInv(w, i, outcome);
  }

  lemma EnteredKeepsInv(w: World, i: CallId, pc: StartPc, reply: Reply)
    requires Inside(w, i, pc) && !pc.Called? && StartNext(w, i, reply).Some?
    ensures Inv(StartNext(w, i, reply).value)
  {
    if pc.Connecting? {
      ConnectKeepsInv(w, i, reply);
    } else if pc.InList? {
      ListKeepsInv(w, i, pc.all, pc.late, reply);
    } else if pc.Leaving? {
      LeaveKeepsInv(w, i, pc.outcome);
    } else {
      InternalKeepsInv(w, i, pc);
    }
  }

  lemma StartKeepsInv(w: World, i: CallId, reply: Reply)
    requires Inv(w) && i < |w.starts| && StartNext(w, i, reply).Some?
    ensures Inv(StartNext(w, i, reply).value)
  {
    if w.starts[i].Called? {
      EnterKeepsInv(w, i);
    } else {
      assert w.h.entered == [i];
      EnteredKeepsInv(w, i, w.starts[i], reply);
    }
  }

  lemma StopEnterKeepsInv(w: World, j: nat)
    requires Inv(w) && j < |w.stops| && w.stops[j].StopCalled?
    ensures Inv(StopEnterNext(w, j))
  {
    var w' := StopEnterNext(w, j);
    if w.h.entered == [] {
      assert Idle(w');
    } else {
      var i := w.h.entered[0];
      Assemble(w', i);
    }
  }

  lemma CancelKeepsInv(w: World, j: nat)
    requires Inv(w) && j < |w.stops| && w.stops[j].Cancelling?
    ensures Inv(CancelNext(w, j, w.stops[j]))
  {
    var w' := CancelNext(w, j, w.stops[j]);
    if w.h.entered == [] {
      assert Idle(w');
    } else {
      var i := w.h.entered[0];
      StopMoved(w, w', i, j, w'.stops[j]);
      Assemble(w', i);
    }
  }

  lemma WaitKeepsInv(w: World, j: nat)
    requires Inv(w) && j < |w.stops| && w.stops[j].Waiting?
    requires WaitNext(w, j, w.stops[j]).Some?
    ensures Inv(WaitNext(w, j, w.stops[j]).value)
  {
    var w' := WaitNext(w, j, w.stops[j]).value;
    if w.h.entered == [] {
      assert Idle(w');
    } else {
      var i := w.h.entered[0];
      StopMoved(w, w', i, j, w'.stops[j]);
      Assemble(w', i);
    }
  }

  lemma RereadKeepsInv(w: World, j: nat)
    requires Inv(w) && j < |w.stops| && w.stops[j].Rereading?
    ensures Inv(RereadNext(w, j))
  {
    var w' := RereadNext(w, j);
    if w.h.entered == [] {
      assert Idle(w');
    } else {
      var i := w.h.entered[0];
      Assemble(w', i);
    }
  }

  lemma TimeoutKeepsInv(w: World, j: nat)
    requires Inv(w) && j < |w.stops| && w.stops[j].InClose?
    ensures Inv(TimeoutNext(w, j, w.stops[j]))
  {
    var w' := TimeoutNext(w, j, w.stops[j]);
    StopMoved(w, w', w.h.entered[0], j, w'.stops[j]);
    Assemble(w', w.h.entered[0]);
  }

  /** The Stop call that closes the session is the one that took it. */
  lemma StopCloseKeepsDuty(w: World, w': World, i: CallId, j: nat)
    requires w.h.entered == [i] && Inv(w)
    requires j < |w.stops| && (w.stops[j].InClose? || w.stops[j].Draining?)
    requires w' == StopCloseNext(w, j, w.stops[j].closing)
    ensures StopDutyOk(w'.f.session, w'.h, w'.e.stopCloses, w'.stops, i, w'.starts[i])
    ensures CancelOk(w'.f.stopCancel, w'.h, w'.e.cancelled, w'.stops, i, w'.starts[i])
    ensures DoneClosed(w'.starts[i])
  {
    assert StopOk(w.h.takers, w.h.cancelTakers, w.e.killed, DoneClosed(w.starts[i]), i, w.stops[j], j);
  }

  lemma StopCloseKeepsInv(w: World, j: nat)
    requires Inv(w) && j < |w.stops| && (w.stops[j].InClose? || w.stops[j].Draining?)
    ensures Inv(StopCloseNext(w, j, w.stops[j].closing))
  {
    var w' := StopCloseNext(w, j, w.stops[j].closing);
    var i := w.h.entered[0];
    StopCloseKeepsDuty(w, w', i, j);
    StopMoved(w, w', i, j, StopReturned);
    Assemble(w', i);
  }

  lemma StopKeepsInv(w: World, j: nat, timedOut: bool)
    requires Inv(w) && j < |w.stops| && StopNext(w, j, timedOut).Some?
    ensures Inv(StopNext(w, j, timedOut).value)
  {
    match w.stops[j]
    case StopCalled => StopEnterKeepsInv(w, j);
    case Cancelling(_, _, _, _) => CancelKeepsInv(w, j);
    case Waiting(_, _, _) => WaitKeepsInv(w, j);
    case Rereading => RereadKeepsInv(w, j);
    case InClose(_, _) => TimeoutKeepsInv(w, j); StopCloseKeepsInv(w, j);
    case Draining(_) => StopCloseKeepsInv(w, j);
    case StopReturned =>
  }

  lemma MonitorKeepsInv(w: World, k: nat)
    requires Inv(w) && k < |w.monitors| && MonitorNext(w, k).Some?
    ensures Inv(MonitorNext(w, k).value)
  {
    var w' := MonitorNext(w, k).value;
    var i := w.h.entered[0];
    assert k == 0 && |w.monitors| == 1;
    StopsKept(w, w', i);
    match w.monitors[0]
    case Spawned => Assemble(w', i);
    case Watching(_) => Assemble(w', i);
    case Noting => Assemble(w', i);
    case Calling => Assemble(w', i);
  }

  lemma OutsideKeepsInv(w: World, a: Action)
    requires Inv(w) && (a.CallStart? || a.CallStop? || a.CallerCancels?)
    ensures Inv(Step(w, a).value)
  {
    var w' := Step(w, a).value;
    if w.h.entered == [] {
      assert Idle(w');
    } else {
      var i := w.h.entered[0];
      assert w'.starts[i] == w.starts[i];
      Assemble(w', i);
    }
  }

  lemma StepKeepsInv(w: World, a: Action)
    requires Inv(w) && Step(w, a).Some?
    ensures Inv(Step(w, a).value)
  {
    match a
    case StartStep(i, reply) => StartKeepsInv(w, i, reply);
    case StopStep(j, timedOut) => StopKeepsInv(w, j, timedOut);
    case MonitorStep(k) => MonitorKeepsInv(w, k);
    case _ => OutsideKeepsInv(w, a);
  }

  lemma ReachableInv(w: World)
    requires Reachable(w)
    ensures Inv(w)
  {
    forall v, a | Inv(v) && Step(v, a).Some? ensures Inv(Step(v, a).value) {
      StepKeepsInv(v, a);
    }
    InvariantReached(Step, Inv, INIT, w);
  }
}
