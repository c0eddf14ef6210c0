/** Who waits, who sends on which channel, and why the command is killed: what every step of every goroutine keeps. */
module ExecControl {
  import opened Prelude
  import opened ExecTypes
  import opened ExecServer

  // -- The invariant, by the position of the main goroutine --

  predicate BeforeStart(pc: MainPc) {
    pc.ReceivingFirst? || pc.Piping? || pc.Launching? || pc.SendingError?
  }

  /** The command runs, and the other goroutines have been spawned. */
  predicate Spawned(pc: MainPc) {
    pc.Reading? || pc.SendingOutput? || pc.DrainKilling? || pc.DrainWaiting? || pc.Collecting? || pc.Checking? || pc.SendingExited?
  }

  /** The main goroutine has taken the wait status out of waitCh. */
  predicate Took(main: MainPc) {
    main.Checking? || main.SendingExited? || main.Returned?
  }

  predicate PipeOk(main: MainPc, p: Process) {
    && p.read <= |p.written|
    && (p.ended == Some(Eof) || (main.SendingOutput? && main.end == Eof) ==> p.writersGone && p.read == |p.written|)
    && (BeforeStart(main) ==> !p.started)
    && (Spawned(main) || main.SendingStarted? || main.AbortKilling? || main.AbortWaiting? ==> p.started)
    && (!p.started ==> p.exited.None?)
    && (!Spawned(main) && !main.Returned? ==> p.read == 0)
    && (main.Collecting? || main.Checking? || main.SendingExited? || (main == Returned(RetNil) && p.started) ==> p.ended.Some?)
  }

  predicate WaiterStatusOk(pc: WaiterPc, exited: Option<WaitStatus>) {
    match pc
    case ClosingDone(s) => exited == Some(s)
    case KillingGroup(s) => exited == Some(s)
    case SettingDeadline(s) => exited == Some(s)
    case Delivering(s) => exited == Some(s)
    case WaiterDone => exited.Some?
    case _ => true
  }

  /** The waiter, the one wait on the command, and the one value on waitCh. */
  predicate WaitOk(main: MainPc, waiter: WaiterPc, begun: bool, started: bool, exited: Option<WaitStatus>, waits: nat, deadline: bool, c: Channels) {
    && (waiter == WaiterUnborn <==> !Spawned(main) && !(main.Returned? && begun && started))
    && (Spawned(main) ==> begun)
    && (!Spawned(main) && !main.Returned? ==> !begun)
    && WaiterStatusOk(waiter, exited)
    && c.waitSends == (if waiter == WaiterDone then 1 else 0)
    && (c.waitCh.Some? <==> waiter == WaiterDone && !Took(main))
    && (c.waitCh.Some? ==> c.waitCh == exited)
    && (main.Checking? || main.SendingExited? ==> exited == Some(main.status))
    && waits == (if waiter == WaiterUnborn then (if main.Returned? && started then 1 else 0) else if waiter == InWait then 0 else 1)
    && (waiter != WaiterUnborn && Took(main) ==> waiter == WaiterDone)
    && (waits > 0 || c.procDone ==> exited.Some?)
    && (deadline ==> exited.Some?)
    && (waiter.Delivering? || waiter.WaiterDone? ==> deadline)
    && (c.procDone <==> waiter.KillingGroup? || waiter.SettingDeadline? || waiter.Delivering? || waiter.WaiterDone?)
  }

  predicate ReceiverOk(main: MainPc, unborn: bool, receiver: ReceiverPc, protoErr: bool, protoSends: nat) {
    && (receiver == ReceiverUnborn <==> unborn)
    && protoSends <= 1
    && (protoSends == 1 ==> receiver == ReceiverDone)
    && (protoErr <==> protoSends == 1 && main != Returned(RetViolation))
    && (main == Returned(RetViolation) ==> protoSends == 1)
  }

  /** SIGKILL goes out only for a cause, or to sweep up after the command has exited. */
  predicate CauseOk(main: MainPc, receiver: ReceiverPc, watcher: WatcherPc, noTimers: bool, exited: bool, kills: nat, cause: bool) {
    && (exited || cause || kills == 0)
    && (main.AbortKilling? || main.AbortWaiting? || main.DrainKilling? || main.DrainWaiting? ==> cause)
    && (receiver.StreamBroken? || receiver.BrokenKilling? || receiver.ViolationKilling? || receiver.Reporting? ==> cause)
    && ((receiver.Handling? || receiver.Acting?) && receiver.t.force ==> cause)
    && (watcher.DisconnectKilling? ==> cause)
    && (noTimers || cause)
  }

  /** Who has sent SIGKILL by the time it got where it is. */
  predicate SweepOk(main: MainPc, waiter: WaiterPc, receiver: ReceiverPc, watcher: WatcherPc, started: bool, kills: nat, c: Channels) {
    && (main.AbortWaiting? || main.DrainWaiting? || (main.Returned? && started) ==> kills > 0)
    && (waiter.SettingDeadline? || waiter.Delivering? || waiter.WaiterDone? ==> kills > 0)
    && (receiver.Reporting? || c.protoSends > 0 ==> kills > 0)
    && (watcher.WatcherDone? ==> kills > 0 || c.procDone)
    && (watcher == WatcherUnborn <==> waiter == WaiterUnborn)
  }

  predicate Control(w: World) {
    && PipeOk(w.main, w.p)
    && WaitOk(w.main, w.waiter, w.sent != [], w.p.started, w.p.exited, w.p.waits, w.p.deadline, w.c)
    && ReceiverOk(w.main, w.waiter == WaiterUnborn, w.receiver, w.c.protoErr, w.c.protoSends)
    && CauseOk(w.main, w.receiver, w.watcher, w.timers == [], w.p.exited.Some?, w.p.kills, w.cause)
    && SweepOk(w.main, w.waiter, w.receiver, w.watcher, w.p.started, w.p.kills, w.c)
  }

  lemma Assemble(w: World)
    requires PipeOk(w.main, w.p)
    requires WaitOk(w.main, w.waiter, w.sent != [], w.p.started, w.p.exited, w.p.waits, w.p.deadline, w.c)
    requires ReceiverOk(w.main, w.waiter == WaiterUnborn, w.receiver, w.c.protoErr, w.c.protoSends)
    requires CauseOk(w.main, w.receiver, w.watcher, w.timers == [], w.p.exited.Some?, w.p.kills, w.cause)
    requires SweepOk(w.main, w.waiter, w.receiver, w.watcher, w.p.started, w.p.kills, w.c)
    ensures Control(w)
  {
  }

  lemma LaunchKeepsControl(w: World, a: Answer)
    requires Control(w) && BeforeStart(w.main) && MainNext(w, a).Some?
    ensures Control(MainNext(w, a).value)
  {
    Assemble(MainNext(w, a).value);
  }

  lemma SpawnKeepsControl(w: World, a: Answer)
    requires Control(w) && w.main.SendingStarted? && MainNext(w, a).Some?
    ensures Control(MainNext(w, a).value)
  {
    Assemble(MainNext(w, a).value);
  }

  lemma AbortKeepsControl(w: World, a: Answer)
    requires Control(w) && (w.main.AbortKilling? || w.main.AbortWaiting?) && MainNext(w, a).Some?
    ensures Control(MainNext(w, a).value)
  {
    Assemble(MainNext(w, a).value);
  }

  lemma AfterReadKeepsControl(w: World, end: ReadEnd)
    requires Control(w) && w.main.Reading? && ReadAllowed(w.p, 0, end)
    ensures Control(AfterRead(w, end))
  {
    Assemble(AfterRead(w, end));
  }

  lemma ReadKeepsControl(w: World, n: nat, end: ReadEnd)
    requires Control(w) && w.main.Reading? && ReadNext(w, n, end).Some?
    ensures Control(ReadNext(w, n, end).value)
  {
    if n == 0 {
      assert w.(p := w.p.(read := w.p.read + 0)) == w;
      AfterReadKeepsControl(w, end);
    } else {
      Assemble(ReadNext(w, n, end).value);
    }
  }

  lemma OutputKeepsControl(w: World, chunk: seq<byte>, end: ReadEnd, ok: bool)
    requires Control(w) && w.main == SendingOutput(chunk, end)
    ensures Control(OutputNext(w, chunk, end, ok))
  {
    Assemble(OutputNext(w, chunk, end, ok));
  }

  lemma EndKeepsControl(w: World, a: Answer)
    requires Control(w) && MainNext(w, a).Some?
    requires w.main.DrainKilling? || w.main.DrainWaiting? || w.main.Collecting? || w.main.Checking? || w.main.SendingExited?
    ensures Control(MainNext(w, a).value)
  {
    Assemble(MainNext(w, a).value);
  }

  lemma WaitedKeepsControl(w: World)
    requires Control(w) && (w.waiter.InWait? || w.waiter.ClosingDone? || w.waiter.KillingGroup?) && WaiterNext(w).Some?
    ensures Control(WaiterNext(w).value)
  {
    Assemble(WaiterNext(w).value);
  }

  lemma DeliverKeepsControl(w: World)
    requires Control(w) && (w.waiter.SettingDeadline? || w.waiter.Delivering?) && WaiterNext(w).Some?
    ensures Control(WaiterNext(w).value)
  {
    Assemble(WaiterNext(w).value);
  }

  lemma DispatchKeepsControl(w: World, got: Received)
    requires Control(w) && w.receiver.InRecv?
    ensures Control(Dispatch(w, got))
  {
    Assemble(Dispatch(w, got));
  }

  lemma ActKeepsControl(w: World, t: Terminate)
    requires Control(w) && w.receiver == Acting(t)
    ensures Control(Act(w, t))
  {
    Assemble(Act(w, t));
  }

  lemma KillKeepsControl(w: World)
    requires Control(w) && (w.receiver.BrokenKilling? || w.receiver.ViolationKilling?) && ReceiverNext(w, None).Some?
    ensures Control(ReceiverNext(w, None).value)
  {
    Assemble(ReceiverNext(w, None).value);
  }

  lemma ReactKeepsControl(w: World)
    requires Control(w) && (w.receiver.StreamBroken? || w.receiver.Handling? || w.receiver.Reporting?) && ReceiverNext(w, None).Some?
    ensures Control(ReceiverNext(w, None).value)
  {
    Assemble(ReceiverNext(w, None).value);
  }

  lemma ReceiverKeepsControl(w: World, got: Option<Received>)
    requires Control(w) && ReceiverNext(w, got).Some?
    ensures Control(ReceiverNext(w, got).value)
  {
    if w.receiver.InRecv? {
      DispatchKeepsControl(w, got.value);
    } else if w.receiver.Acting? {
      ActKeepsControl(w, w.receiver.t);
    } else if w.receiver.BrokenKilling? || w.receiver.ViolationKilling? {
      KillKeepsControl(w);
    } else {
      ReactKeepsControl(w);
    }
  }

  lemma WatcherKeepsControl(w: World, disconnected: bool)
    requires Control(w) && WatcherNext(w, disconnected).Some?
    ensures Control(WatcherNext(w, disconnected).value)
  {
    Assemble(WatcherNext(w, disconnected).value);
  }

  lemma TimerKeepsControl(w: World, k: nat, expired: bool)
    requires Control(w) && k < |w.timers| && TimerNext(w, k, expired).Some?
    ensures Control(TimerNext(w, k, expired).value)
  {
    Assemble(TimerNext(w, k, expired).value);
  }

  lemma StepKeepsControl(w: World, a: Action)
    requires Control(w) && Step(w, a).Some?
    ensures Control(Step(w, a).value)
  {
    match a
    case MainStep(answer) =>
      if BeforeStart(w.main) {
        LaunchKeepsControl(w, answer);
      } else if w.main.SendingStarted? {
        SpawnKeepsControl(w, answer);
      } else if w.main.Reading? {
        ReadKeepsControl(w, answer.n, answer.end);
      } else if w.main.SendingOutput? {
        OutputKeepsControl(w, w.main.chunk, w.main.end, answer.ok);
      } else if w.main.AbortKilling? || w.main.AbortWaiting? {
        AbortKeepsControl(w, answer);
      } else {
        EndKeepsControl(w, answer);
      }
    case WaiterStep => if w.waiter.SettingDeadline? || w.waiter.Delivering? { DeliverKeepsControl(w); } else { WaitedKeepsControl(w); }
    case ReceiverStep(got) => ReceiverKeepsControl(w, got);
    case WatcherStep(disconnected) => WatcherKeepsControl(w, disconnected);
    case TimerStep(k, expired) => TimerKeepsControl(w, k, expired);
    case _ =>
  }

  // -- What no step takes back --

  /** What only grows: the main goroutine gets past the first message, and the command starts, then exits. */
  predicate Later(w: World, w': World) {
    && (!w.main.ReceivingFirst? ==> !w'.main.ReceivingFirst?)
    && (w.p.started ==> w'.p.started) && (w.p.exited.Some? ==> w'.p.exited.Some?)
  }

  lemma MainLater(w: World, a: Answer)
    requires MainNext(w, a).Some?
    ensures Later(w, MainNext(w, a).value)
  {
  }

  lemma ReceiverLater(w: World, got: Option<Received>)
    requires ReceiverNext(w, got).Some?
    ensures Later(w, ReceiverNext(w, got).value)
  {
  }

  lemma StepLater(w: World, a: Action)
    requires Step(w, a).Some?
    ensures Later(w, Step(w, a).value)
  {
    if a.MainStep? {
      MainLater(w, a.answer);
    } else if a.ReceiverStep? {
      ReceiverLater(w, a.got);
    }
  }
}
