/**
 * Any number of concurrent Start and Stop calls, and the monitor, on one Child. Every step is one critical
 * section or one external call; the steps of different calls interleave freely.
 */
module ChildLifecycle {
  import opened Prelude
  import opened ChildState

  datatype StartError = CannotStart(status: Status) | ConnectFailed | StoppedBeforePublish | StoppedBeforeCommit | DiscoveryFailed

  datatype Outcome = Success(tools: seq<Tool>) | Failure(error: StartError)

  /** Where a Start call is. late: ListTools was called with a context already cancelled. */
  datatype StartPc =
    | Called
    | Connecting
    | Reaping
    | Publishing
    | Listing(all: seq<Tool>)
    | InList(all: seq<Tool>, late: bool)
    | Abandoning
    | Closing(error: StartError)
    | Committing(found: seq<Tool>)
    | Launching(found: seq<Tool>)
    | Leaving(outcome: Outcome)
    | Releasing(outcome: Outcome)
    | Returned(outcome: Outcome)

  /** Where a Stop call is, with the values it took from the fields. */
  datatype StopPc =
    | StopCalled
    | Cancelling(session: Option<CallId>, process: Option<CallId>, cancel: Option<CallId>, done: Option<CallId>)
    | Waiting(session: Option<CallId>, process: Option<CallId>, done: Option<CallId>)
    | Rereading
    | InClose(closing: CallId, process: Option<CallId>)
    | Draining(closing: CallId)
    | StopReturned

  datatype MonitorPc = Spawned | Watching(session: CallId) | Noting | Calling | Finished

  /**
   * What the calls have done outside the mutex: contexts cancelled, startDone channels closed, sessions opened,
   * session.Close calls of Start and of Stop that returned, processes left behind by a failed Connect, processes killed.
   */
  datatype Effects = Effects(
    cancelled: set<CallId>,
    doneCloses: seq<CallId>,
    sessions: set<CallId>,
    startCloses: seq<CallId>,
    stopCloses: seq<CallId>,
    orphans: set<CallId>,
    killed: set<CallId>,
    onCrashCalls: nat)

  /**
   * History: the Start calls that passed entry and those that reached Running; the Stop calls that took the
   * cancel function at entry, a session at entry, or a session at the re-read; whether a Stop passed entry.
   */
  datatype History = History(
    entered: seq<CallId>,
    committed: seq<CallId>,
    cancelTakers: seq<nat>,
    takers: seq<nat>,
    rereadTakers: seq<nat>,
    anyStop: bool)

  datatype World = World(
    f: Fields,
    starts: seq<StartPc>,
    stops: seq<StopPc>,
    monitors: seq<MonitorPc>,
    e: Effects,
    h: History)

  const INIT := World(FRESH, [], [], [], Effects({}, [], {}, [], [], {}, {}, 0), History([], [], [], [], [], false))

  /** The answer of the external call a Start call is in. */
  datatype Reply = NoCall | ConnectOk | ConnectError(processStarted: bool) | ListPage(tools: seq<Tool>, more: bool) | ListError

  datatype Action =
    | CallStart
    | CallStop
    | CallerCancels(call: CallId)
    | StartStep(call: CallId, reply: Reply)
    | StopStep(stop: nat, timedOut: bool)
    | MonitorStep(monitor: nat)

  // -- Steps of a Start call --

  function MoveStart(w: World, i: CallId, pc: StartPc): World
    requires i < |w.starts|
  {
    w.(starts := w.starts[i := pc])
  }

  function EnterNext(w: World, i: CallId): World
    requires i < |w.starts|
  {
    match EnterStart(w.f, i)
    case None => MoveStart(w, i, Returned(Failure(CannotStart(w.f.status))))
    case Some(f) => MoveStart(w.(f := f, h := w.h.(entered := w.h.entered + [i])), i, Connecting)
  }

  function ConnectNext(w: World, i: CallId, reply: Reply): Option<World>
    requires i < |w.starts|
  {
    match reply
    case ConnectOk => Some(MoveStart(w.(e := w.e.(sessions := w.e.sessions + {i})), i, Publishing))
    case ConnectError(true) => Some(MoveStart(w.(e := w.e.(orphans := w.e.orphans + {i})), i, Reaping))
    case ConnectError(false) => Some(MoveStart(w, i, Leaving(Failure(ConnectFailed))))
    case _ => None
  }

  function ReapNext(w: World, i: CallId): World
    requires i < |w.starts|
  {
    MoveStart(w.(e := w.e.(killed := w.e.killed + {i})), i, Leaving(Failure(ConnectFailed)))
  }

  function PublishNext(w: World, i: CallId): World
    requires i < |w.starts|
  {
    match Publish(w.f, i)
    case None => MoveStart(w, i, Closing(StoppedBeforePublish))
    case Some(f) => MoveStart(w.(f := f), i, Listing([]))
  }

  function AskNext(w: World, i: CallId, all: seq<Tool>): World
    requires i < |w.starts|
  {
    MoveStart(w, i, InList(all, i in w.e.cancelled))
  }

  /** A call made with a cancelled context fails. */
  function ListNext(w: World, i: CallId, all: seq<Tool>, late: bool, reply: Reply): Option<World>
    requires i < |w.starts|
  {
    match reply
    case ListPage(tools, more) =>
      if late then None else Some(MoveStart(w, i, if more then Listing(all + tools) else Committing(all + tools)))
    case ListError => Some(MoveStart(w, i, Abandoning))
    case _ => None
  }

  function AbandonNext(w: World, i: CallId): World
    requires i < |w.starts|
  {
    MoveStart(w.(f := Abandon(w.f, i)), i, Closing(DiscoveryFailed))
  }

  function CloseNext(w: World, i: CallId, error: StartError): World
    requires i < |w.starts|
  {
    MoveStart(w.(e := w.e.(startCloses := w.e.startCloses + [i])), i, Leaving(Failure(error)))
  }

  function CommitNext(w: World, i: CallId, found: seq<Tool>): World
    requires i < |w.starts|
  {
    match Commit(w.f, found)
    case None => MoveStart(w, i, Leaving(Failure(StoppedBeforeCommit)))
    case Some(f) => MoveStart(w.(f := f, h := w.h.(committed := w.h.committed + [i])), i, Launching(found))
  }

  function LaunchNext(w: World, i: CallId, found: seq<Tool>): World
    requires i < |w.starts|
  {
    MoveStart(w.(monitors := w.monitors + [Spawned]), i, Leaving(Success(found)))
  }

  /** close(c.startDone) closes the channel the field holds, and would panic on a nil one. */
  function LeaveNext(w: World, i: CallId, outcome: Outcome): Option<World>
    requires i < |w.starts|
  {
    if w.f.startDone.None? then None
    else Some(MoveStart(w.(f := LeaveStart(w.f, outcome.Failure?, i in w.e.cancelled),
                           e := w.e.(doneCloses := w.e.doneCloses + [w.f.startDone.value])), i, Releasing(outcome)))
  }

  function ReleaseNext(w: World, i: CallId, outcome: Outcome): World
    requires i < |w.starts|
  {
    MoveStart(w.(e := w.e.(cancelled := w.e.cancelled + {i})), i, Returned(outcome))
  }

  /** reply answers Connect or ListTools; every other step takes NoCall. */
  function StartNext(w: World, i: CallId, reply: Reply): Option<World>
    requires i < |w.starts|
  {
    match w.starts[i]
    case Connecting => ConnectNext(w, i, reply)
    case InList(all, late) => ListNext(w, i, all, late, reply)
    case Returned(_) => None
    case Leaving(outcome) => if reply != NoCall then None else LeaveNext(w, i, outcome)
    case pc => if reply != NoCall then None else Some(InternalNext(w, i, pc))
  }

  function InternalNext(w: World, i: CallId, pc: StartPc): World
    requires i < |w.starts|
    requires !pc.Connecting? && !pc.InList? && !pc.Leaving? && !pc.Returned?
  {
    match pc
    case Called => EnterNext(w, i)
    case Reaping => ReapNext(w, i)
    case Publishing => PublishNext(w, i)
    case Listing(all) => AskNext(w, i, all)
    case Abandoning => AbandonNext(w, i)
    case Closing(error) => CloseNext(w, i, error)
    case Committing(found) => CommitNext(w, i, found)
    case Launching(found) => LaunchNext(w, i, found)
    case Releasing(outcome) => ReleaseNext(w, i, outcome)
  }

  // -- Steps of a Stop call --

  function MoveStop(w: World, j: nat, pc: StopPc): World
    requires j < |w.stops|
  {
    w.(stops := w.stops[j := pc])
  }

  /** Line 284: nothing to close, or on to the graceful close. */
  function AfterTaking(session: Option<CallId>, process: Option<CallId>): StopPc {
    if session.None? then StopReturned else InClose(session.value, process)
  }

  function Log(log: seq<nat>, j: nat, taken: Option<CallId>): seq<nat> {
    if taken.Some? then log + [j] else log
  }

  function StopEnterNext(w: World, j: nat): World
    requires j < |w.stops|
  {
    MoveStop(w.(f := EnterStop(w.f),
                h := w.h.(anyStop := true, takers := Log(w.h.takers, j, w.f.session),
                          cancelTakers := Log(w.h.cancelTakers, j, w.f.stopCancel))),
             j, Cancelling(w.f.session, w.f.process, w.f.stopCancel, w.f.startDone))
  }

  function CancelNext(w: World, j: nat, pc: StopPc): World
    requires j < |w.stops| && pc.Cancelling?
  {
    MoveStop(w.(e := w.e.(cancelled := w.e.cancelled + if pc.cancel.Some? then {pc.cancel.value} else {})),
             j, Waiting(pc.session, pc.process, pc.done))
  }

  /** Receiving from startDone blocks until the channel is closed. */
  function WaitNext(w: World, j: nat, pc: StopPc): Option<World>
    requires j < |w.stops| && pc.Waiting?
  {
    if pc.done.Some? && pc.done.value !in w.e.doneCloses then None
    else Some(MoveStop(w, j, if pc.session.None? then Rereading else AfterTaking(pc.session, pc.process)))
  }

  function RereadNext(w: World, j: nat): World
    requires j < |w.stops|
  {
    MoveStop(w.(f := TakeSession(w.f), h := w.h.(rereadTakers := Log(w.h.rereadTakers, j, w.f.session))),
             j, AfterTaking(w.f.session, w.f.process))
  }

  function TimeoutNext(w: World, j: nat, pc: StopPc): World
    requires j < |w.stops| && pc.InClose?
  {
    MoveStop(w.(e := w.e.(killed := w.e.killed + if pc.process.Some? then {pc.process.value} else {})), j, Draining(pc.closing))
  }

  function StopCloseNext(w: World, j: nat, session: CallId): World
    requires j < |w.stops|
  {
    MoveStop(w.(e := w.e.(stopCloses := w.e.stopCloses + [session])), j, StopReturned)
  }

  function StopNext(w: World, j: nat, timedOut: bool): Option<World>
    requires j < |w.stops|
  {
    match w.stops[j]
    case InClose(session, _) => Some(if timedOut then TimeoutNext(w, j, w.stops[j]) else StopCloseNext(w, j, session))
    case StopReturned => None
    case Waiting(_, _, _) => if timedOut then None else WaitNext(w, j, w.stops[j])
    case StopCalled => if timedOut then None else Some(StopEnterNext(w, j))
    case Cancelling(_, _, _, _) => if timedOut then None else Some(CancelNext(w, j, w.stops[j]))
    case Rereading => if timedOut then None else Some(RereadNext(w, j))
    case Draining(session) => if timedOut then None else Some(StopCloseNext(w, j, session))
  }

  // -- Steps of the monitor goroutine --

  function MonitorNext(w: World, k: nat): Option<World>
    requires k < |w.monitors|
  {
    match w.monitors[k]
    case Spawned =>
      Some(w.(monitors := w.monitors[k := if w.f.session.None? then Finished else Watching(w.f.session.value)]))
    case Watching(_) => Some(w.(monitors := w.monitors[k := Noting]))
    case Noting =>
      var (f, wasCrash) := NoteExit(w.f);
      Some(w.(f := f, monitors := w.monitors[k := if wasCrash then Calling else Finished]))
    case Calling => Some(w.(e := w.e.(onCrashCalls := w.e.onCrashCalls + 1), monitors := w.monitors[k := Finished]))
    case Finished => None
  }

  function Step(w: World, a: Action): Option<World> {
    match a
    case CallStart => Some(w.(starts := w.starts + [Called]))
    case CallStop => Some(w.(stops := w.stops + [StopCalled]))
    case CallerCancels(i) => Some(w.(e := w.e.(cancelled := w.e.cancelled + {i})))
    case StartStep(i, reply) => if i < |w.starts| then StartNext(w, i, reply) else None
    case StopStep(j, timedOut) => if j < |w.stops| then StopNext(w, j, timedOut) else None
    case MonitorStep(k) => if k < |w.monitors| then MonitorNext(w, k) else None
  }

  /** The worlds some run from INIT leads to. */
  ghost predicate Reachable(w: World) {
    ReachableFrom(Step, INIT, w)
  }
}
