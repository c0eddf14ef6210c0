/**
 * RunCommand: the main goroutine, the waiter, the receiver, the disconnect watcher and the grace timers. Each
 * step is one channel operation, one call of the stream or one call of the operating system.
 */
module ExecServer {
  import opened Prelude
  import opened ExecTypes

  const BUFFER_SIZE := 4096

  datatype FirstMessage = FirstEof | FirstError | FirstOther | FirstStart

  datatype ReadEnd = NoError | Eof | DeadlineExceeded | OtherReadError

  datatype Ret = RetNil | RetBadFirst | RetRecvError | RetSendError | RetViolation

  datatype MainPc =
    | ReceivingFirst
    | Piping
    | Launching
    | SendingError(message: string)
    | SendingStarted
    | AbortKilling
    | AbortWaiting
    | Reading
    | SendingOutput(chunk: seq<byte>, end: ReadEnd)
    | DrainKilling(lost: seq<byte>)
    | DrainWaiting(lost: seq<byte>)
    | Collecting
    | Checking(status: WaitStatus)
    | SendingExited(status: WaitStatus)
    | Returned(ret: Ret)

  datatype WaiterPc = WaiterUnborn | InWait | ClosingDone(status: WaitStatus) | KillingGroup(status: WaitStatus)
                    | SettingDeadline(status: WaitStatus) | Delivering(status: WaitStatus) | WaiterDone

  datatype ReceiverPc = ReceiverUnborn | InRecv | StreamBroken | BrokenKilling | Handling(t: Terminate) | Acting(t: Terminate)
                      | ViolationKilling | Reporting | ReceiverDone

  datatype WatcherPc = WatcherUnborn | Watching | DisconnectKilling | WatcherDone

  datatype TimerPc = Armed(grace: nat) | TimerKilling | TimerDone

  /** The command, its pipe, how the read loop ended, and how many SIGTERMs and SIGKILLs its group got. */
  datatype Process = Process(
    started: bool,
    exited: Option<WaitStatus>,
    waits: nat,
    written: seq<byte>,
    read: nat,
    writersGone: bool,
    deadline: bool,
    ended: Option<ReadEnd>,
    terms: nat,
    kills: nat)

  /** procDone: closed. waitCh, protoErr: what their one-place buffers hold, and how often they were sent on. */
  datatype Channels = Channels(procDone: bool, waitCh: Option<WaitStatus>, waitSends: nat, protoErr: bool, protoSends: nat)

  /** cause: the client asked for SIGKILL, broke the protocol, disconnected, or could not be written to. */
  datatype World = World(
    main: MainPc,
    waiter: WaiterPc,
    receiver: ReceiverPc,
    watcher: WatcherPc,
    timers: seq<TimerPc>,
    p: Process,
    c: Channels,
    sent: seq<ServerEvent>,
    cause: bool)

  const INIT := World(ReceivingFirst, WaiterUnborn, ReceiverUnborn, WatcherUnborn, [],
                      Process(false, None, 0, [], 0, false, false, None, 0, 0),
                      Channels(false, None, 0, false, 0), [], false)

  /** The answer of the external call the main goroutine is in. */
  datatype Answer = NoAnswer | First(m: FirstMessage) | PipeIs(error: Option<string>) | StartIs(error: Option<string>) | SendIs(ok: bool) | ReadIs(n: nat, end: ReadEnd)

  datatype Received = GotEof | GotError | Got(e: ClientEvent)

  datatype Action =
    | MainStep(answer: Answer)
    | WaiterStep
    | ReceiverStep(got: Option<Received>)
    | WatcherStep(disconnected: bool)
    | TimerStep(timer: nat, expired: bool)
    | CommandExits(status: WaitStatus)
    | CommandWrites(data: seq<byte>)
    | WritersLeave

  function Killed(w: World): World {
    w.(p := w.p.(kills := w.p.kills + 1))
  }

  function Termed(w: World): World {
    w.(p := w.p.(terms := w.p.terms + 1))
  }

  function Sent(w: World, e: ServerEvent): World {
    w.(sent := w.sent + [e])
  }

  // -- The main goroutine --

  function FirstNext(w: World, m: FirstMessage): World {
    match m
    case FirstEof => w.(main := Returned(RetBadFirst))
    case FirstError => w.(main := Returned(RetRecvError))
    case FirstOther => w.(main := Returned(RetBadFirst))
    case FirstStart => w.(main := Piping)
  }

  /** Lines 63-66. */
  function PipeNext(w: World, error: Option<string>): World {
    w.(main := if error.None? then Launching else SendingError("pipe: " + error.value))
  }

  /** Lines 71-74. */
  function LaunchNext(w: World, error: Option<string>): World {
    if error.None? then w.(main := SendingStarted, p := w.p.(started := true)) else w.(main := SendingError("start: " + error.value))
  }

  /** sendError: the launch failed. */
  function ErrorNext(w: World, message: string, ok: bool): World {
    if ok then Sent(w, Exited(-1, message)).(main := Returned(RetNil)) else w.(main := Returned(RetSendError))
  }

  /** Once Started is out the three goroutines are spawned; a failed Send kills and waits instead. */
  function StartedNext(w: World, ok: bool): World {
    if ok then Sent(w, Started("id")).(main := Reading, waiter := InWait, receiver := InRecv, watcher := Watching)
    else w.(main := AbortKilling, cause := true)
  }

  /** Wait returns once the command has exited. */
  function AbortNext(w: World): Option<World> {
    if w.p.exited.None? then None
    else Some(w.(main := Returned(RetSendError), p := w.p.(waits := w.p.waits + 1)))
  }

  predicate ReadAllowed(p: Process, n: nat, end: ReadEnd) {
    && n <= BUFFER_SIZE && p.read + n <= |p.written|
    && (end == Eof ==> p.writersGone && p.read + n == |p.written|)
    && (end == DeadlineExceeded ==> p.deadline)
  }

  /** Lines 169-181, up to the Send. */
  function ReadNext(w: World, n: nat, end: ReadEnd): Option<World> {
    if !ReadAllowed(w.p, n, end) then None
    else
      var w' := w.(p := w.p.(read := w.p.read + n));
      Some(if n > 0 then w'.(main := SendingOutput(w.p.written[w.p.read..w.p.read + n], end)) else AfterRead(w', end))
  }

  function AfterRead(w: World, end: ReadEnd): World {
    if end == NoError then w.(main := Reading)
    else w.(main := Collecting, p := w.p.(ended := Some(end)))
  }

  function OutputNext(w: World, chunk: seq<byte>, end: ReadEnd, ok: bool): World {
    if ok then AfterRead(Sent(w, Output(chunk)), end) else w.(main := DrainKilling(chunk), cause := true)
  }

  /** Receiving from waitCh blocks while its buffer is empty. */
  function TakeWait(w: World, pc: WaitStatus -> MainPc): Option<World> {
    if w.c.waitCh.None? then None
    else Some(w.(main := pc(w.c.waitCh.value), c := w.c.(waitCh := None)))
  }

  /** Lines 198-202. */
  function CheckNext(w: World, status: WaitStatus): World {
    if w.c.protoErr then w.(main := Returned(RetViolation), c := w.c.(protoErr := false))
    else w.(main := SendingExited(status))
  }

  function ExitedNext(w: World, status: WaitStatus, ok: bool): World {
    if ok then Sent(w, ExitEvent(status)).(main := Returned(RetNil)) else w.(main := Returned(RetSendError))
  }

  function MainNext(w: World, a: Answer): Option<World> {
    match w.main
    case ReceivingFirst => if a.First? then Some(FirstNext(w, a.m)) else None
    case Piping => if a.PipeIs? then Some(PipeNext(w, a.error)) else None
    case Launching => if a.StartIs? then Some(LaunchNext(w, a.error)) else None
    case SendingError(message) => if a.SendIs? then Some(ErrorNext(w, message, a.ok)) else None
    case SendingStarted => if a.SendIs? then Some(StartedNext(w, a.ok)) else None
    case Reading => if a.ReadIs? then ReadNext(w, a.n, a.end) else None
    case SendingOutput(chunk, end) => if a.SendIs? then Some(OutputNext(w, chunk, end, a.ok)) else None
    case SendingExited(status) => if a.SendIs? then Some(ExitedNext(w, status, a.ok)) else None
    case AbortKilling => if a.NoAnswer? then Some(Killed(w).(main := AbortWaiting)) else None
    case AbortWaiting => if a.NoAnswer? then AbortNext(w) else None
    case DrainKilling(lost) => if a.NoAnswer? then Some(Killed(w).(main := DrainWaiting(lost))) else None
    case DrainWaiting(_) => if a.NoAnswer? then TakeWait(w, _ => Returned(RetSendError)) else None
    case Collecting => if a.NoAnswer? then TakeWait(w, status => Checking(status)) else None
    case Checking(status) => if a.NoAnswer? then Some(CheckNext(w, status)) else None
    case Returned(_) => None
  }

  // -- The waiter, lines 101-107 --

  function WaiterNext(w: World): Option<World> {
    match w.waiter
    case WaiterUnborn => None
    case InWait =>
      if w.p.exited.None? then None
      else Some(w.(waiter := ClosingDone(w.p.exited.value), p := w.p.(waits := w.p.waits + 1)))
    case ClosingDone(status) => Some(w.(waiter := KillingGroup(status), c := w.c.(procDone := true)))
    case KillingGroup(status) => Some(Killed(w).(waiter := SettingDeadline(status)))
    case SettingDeadline(status) => Some(w.(waiter := Delivering(status), p := w.p.(deadline := true)))
    case Delivering(status) =>
      // Sending on waitCh blocks while its buffer is full.
      if w.c.waitCh.Some? then None
      else Some(w.(waiter := WaiterDone, c := w.c.(waitCh := Some(status), waitSends := w.c.waitSends + 1)))
    case WaiterDone => None
  }

  // -- The receiver, lines 111-156 --

  /** What a TerminateCommand does to a command that is still running. */
  datatype Reaction = TermOnly | TermThenKill(grace: nat) | KillNow

  function ReactionTo(t: Terminate): Reaction {
    if !t.force then TermOnly
    else if t.gracePeriod.Some? && t.gracePeriod.value > 0 then TermThenKill(t.gracePeriod.value)
    else KillNow
  }

  function Dispatch(w: World, got: Received): World {
    match got
    case GotEof => w.(receiver := ReceiverDone)
    case GotError => w.(receiver := StreamBroken, cause := true)
    case Got(TerminateEvent(t)) => w.(receiver := Handling(t), cause := w.cause || t.force)
    case Got(OtherEvent) => w.(receiver := ViolationKilling, cause := true)
  }

  function Act(w: World, t: Terminate): World {
    match ReactionTo(t)
    case TermOnly => Termed(w).(receiver := InRecv)
    case TermThenKill(grace) => Termed(w).(receiver := InRecv, timers := w.timers + [Armed(grace)])
    case KillNow => Killed(w).(receiver := InRecv)
  }

  function ReceiverNext(w: World, got: Option<Received>): Option<World> {
    if w.receiver.InRecv? then (if got.Some? then Some(Dispatch(w, got.value)) else None)
    else if got.Some? then None
    else match w.receiver
      case StreamBroken => Some(w.(receiver := if w.c.procDone then ReceiverDone else BrokenKilling))
      case BrokenKilling => Some(Killed(w).(receiver := ReceiverDone))
      case Handling(t) => Some(w.(receiver := if w.c.procDone then InRecv else Acting(t)))
      case Acting(t) => Some(Act(w, t))
      case ViolationKilling => Some(Killed(w).(receiver := Reporting))
      case Reporting =>
        if w.c.protoErr then None
        else Some(w.(receiver := ReceiverDone, c := w.c.(protoErr := true, protoSends := w.c.protoSends + 1)))
      case _ => None
  }

  // -- The watcher and the timers --

  function WatcherNext(w: World, disconnected: bool): Option<World> {
    match w.watcher
    case Watching =>
      if disconnected then Some(w.(watcher := DisconnectKilling, cause := true))
      else if w.c.procDone then Some(w.(watcher := WatcherDone)) else None
    case DisconnectKilling => if disconnected then None else Some(Killed(w).(watcher := WatcherDone))
    case _ => None
  }

  function TimerNext(w: World, k: nat, expired: bool): Option<World>
    requires k < |w.timers|
  {
    match w.timers[k]
    case Armed(_) =>
      if expired then Some(w.(timers := w.timers[k := TimerKilling]))
      else if w.c.procDone then Some(w.(timers := w.timers[k := TimerDone])) else None
    case TimerKilling => if expired then None else Some(Killed(w).(timers := w.timers[k := TimerDone]))
    case TimerDone => None
  }

  function Step(w: World, a: Action): Option<World> {
    match a
    case MainStep(answer) => MainNext(w, answer)
    case WaiterStep => WaiterNext(w)
    case ReceiverStep(got) => ReceiverNext(w, got)
    case WatcherStep(disconnected) => WatcherNext(w, disconnected)
    case TimerStep(k, expired) => if k < |w.timers| then TimerNext(w, k, expired) else None
    case CommandExits(status) =>
      if w.p.started && w.p.exited.None? then Some(w.(p := w.p.(exited := Some(status)))) else None
    case CommandWrites(data) =>
      if w.p.started && !w.p.writersGone then Some(w.(p := w.p.(written := w.p.written + data))) else None
    case WritersLeave => if w.p.started then Some(w.(p := w.p.(writersGone := true))) else None
  }

  ghost predicate Reachable(w: World) {
    ReachableFrom(Step, INIT, w)
  }
}
