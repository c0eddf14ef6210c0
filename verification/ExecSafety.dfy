/** What RunCommand guarantees in every run, with every Send free to fail. */
module ExecSafety {
  import opened Prelude
  import opened ExecTypes
  import opened ExecServer
  import opened ExecControl
  import opened ExecInvariant

  /** A prefix of Started Output* Exited, or the single Exited(-1) of a command that could not be launched. */
  predicate Grammar(events: seq<ServerEvent>) {
    || events == []
    || (|events| == 1 && events[0].Exited? && events[0].exitCode == -1)
    || Streaming(events)
    || (|events| > 1 && Streaming(events[..|events| - 1]) && Last(events).Exited?)
  }

  predicate EndsWithExited(events: seq<ServerEvent>) {
    events != [] && Last(events).Exited?
  }

  lemma EventGrammar(w: World)
    requires Reachable(w)
    ensures Grammar(w.sent)
  {
    ReachableInv(w);
    if w.main.Returned? && w.main.ret == RetNil && w.p.started {
      assert Last(w.sent).Exited?;
    }
  }

  /** RunCommand returns nil exactly when the last event it managed to send was the one Exited. */
  lemma NilIffExited(w: World)
    requires Reachable(w) && w.main.Returned?
    ensures w.main.ret == RetNil <==> EndsWithExited(w.sent)
    ensures w.main.ret != RetNil ==> forall k :: 0 <= k < |w.sent| ==> !w.sent[k].Exited?
  {
    ReachableInv(w);
  }

  /** A command that was started has been waited on exactly once when RunCommand returns, and never more. */
  lemma WaitedOnce(w: World)
    requires Reachable(w)
    ensures w.p.waits <= 1
    ensures w.main.Returned? && w.p.started ==> w.p.waits == 1 && w.p.exited.Some?
    ensures w.main.Returned? ==> w.waiter == WaiterUnborn || w.waiter == WaiterDone
  {
    ReachableInv(w);
  }

  /** At most one value is ever sent on waitCh and on protoErr, so no send on them can block. */
  lemma SendsNeverBlock(w: World)
    requires Reachable(w)
    ensures w.c.waitSends <= 1 && w.c.protoSends <= 1
    ensures w.waiter.Delivering? ==> Step(w, WaiterStep).Some?
    ensures w.receiver.Reporting? ==> Step(w, ReceiverStep(None)).Some?
  {
    ReachableInv(w);
  }

  /**
   * The Output payloads are the bytes taken out of the pipe, in order, in non-empty chunks of at most a buffer;
   * only a chunk whose Send failed is missing. A loop that ended at end of file has taken every byte written.
   */
  lemma BytesConserved(w: World)
    requires Reachable(w)
    ensures w.p.read <= |w.p.written|
    ensures forall k :: 0 <= k < |w.sent| && w.sent[k].Output? ==> 0 < |w.sent[k].data| <= 4096
    ensures w.main.Reading? || w.main.Collecting? || w.main.Checking? || w.main.SendingExited?
         || w.main == Returned(RetViolation) || (w.main == Returned(RetNil) && w.p.started)
      ==> Payload(w.sent) == w.p.written[..w.p.read]
    ensures w.main.SendingOutput? ==> Payload(w.sent) + w.main.chunk == w.p.written[..w.p.read]
    ensures w.p.ended == Some(Eof) ==> w.p.written[..w.p.read] == w.p.written && w.p.writersGone
  {
    ReachableInv(w);
    if w.p.ended == Some(Eof) {
      assert w.p.written[..|w.p.written|] == w.p.written;
    }
  }

  /** The read loop is over, or will be once the bytes that came with the error have been sent. */
  predicate DoneReading(pc: MainPc) {
    || (pc.SendingOutput? && pc.end != NoError)
    || pc.DrainKilling? || pc.DrainWaiting? || pc.Collecting? || pc.Checking? || pc.SendingExited? || pc.Returned?
  }

  /** From there no run reads again. */
  lemma {:induction false} ErrorEndsReading(w: World, labels: seq<Action>)
    requires DoneReading(w.main) && Run(Step, w, labels).Some?
    ensures forall a :: a in labels ==> !(a.MainStep? && a.answer.ReadIs?)
    ensures DoneReading(Run(Step, w, labels).value.main)
    decreases |labels|
  {
    if labels != [] {
      ErrorEndsReading(Step(w, labels[0]).value, labels[1..]);
      assert labels == [labels[0]] + labels[1..];
    }
  }

  /** A Read that fails ends the loop, with or without bytes. */
  lemma FailedReadEnds(w: World, n: nat, end: ReadEnd, labels: seq<Action>)
    requires w.main.Reading? && ReadNext(w, n, end).Some? && end != NoError
    requires Run(Step, ReadNext(w, n, end).value, labels).Some?
    ensures forall a :: a in labels ==> !(a.MainStep? && a.answer.ReadIs?)
  {
    ErrorEndsReading(ReadNext(w, n, end).value, labels);
  }

  /** The Exited event of a launched command reports what Wait returned. */
  lemma ExitReported(w: World)
    requires Reachable(w) && w.main == Returned(RetNil) && w.p.started
    ensures w.p.exited.Some? && EndsWithExited(w.sent) && Last(w.sent) == ExitEvent(w.p.exited.value)
    ensures w.p.ended.Some?
  {
    ReachableInv(w);
  }

  /** SIGKILL never reaches a command that runs without the client having forced, broken, or left the call. */
  lemma KillHasCause(w: World)
    requires Reachable(w) && w.p.kills > 0 && w.p.exited.None?
    ensures w.cause
  {
    ReachableInv(w);
  }

  /** What lets SIGKILL reach a running command: force, a broken stream, a violation, a disconnect, a failed Send. */
  predicate Provokes(a: Action) {
    match a
    case ReceiverStep(Some(GotError)) => true
    case ReceiverStep(Some(Got(OtherEvent))) => true
    case ReceiverStep(Some(Got(TerminateEvent(t)))) => t.force
    case WatcherStep(disconnected) => disconnected
    case MainStep(SendIs(ok)) => !ok
    case _ => false
  }

  lemma CauseIsProvoked(w: World, a: Action)
    requires Step(w, a).Some? && !w.cause && !Provokes(a)
    ensures !Step(w, a).value.cause
  {
  }

  lemma {:induction false} StaysUnprovoked(w: World, labels: seq<Action>)
    requires Run(Step, w, labels).Some? && !w.cause && forall a :: a in labels ==> !Provokes(a)
    ensures !Run(Step, w, labels).value.cause
    decreases |labels|
  {
    if labels != [] {
      assert labels[0] in labels;
      CauseIsProvoked(w, labels[0]);
      StaysUnprovoked(Step(w, labels[0]).value, labels[1..]);
    }
  }

  /** A run in which none of this happens, the client having perhaps closed its side, leaves the command alone. */
  lemma UnprovokedNeverKills(labels: seq<Action>)
    requires Run(Step, INIT, labels).Some? && forall a :: a in labels ==> !Provokes(a)
    ensures var w := Run(Step, INIT, labels).value; w.p.exited.None? ==> w.p.kills == 0
  {
    var w := Run(Step, INIT, labels).value;
    StaysUnprovoked(INIT, labels);
    assert Reachable(w);
    ReachableInv(w);
  }

  /**
   * No command outlives its call: when RunCommand returns, the group of a started command has had a SIGKILL and
   * the command itself has exited. A violation is reported, and a disconnect settled, only after a SIGKILL, or,
   * for the disconnect, the exit.
   */
  lemma GroupIsSwept(w: World)
    requires Reachable(w)
    ensures w.main.Returned? && w.p.started ==> w.p.kills > 0 && w.p.exited.Some?
    ensures w.c.protoSends > 0 ==> w.p.kills > 0
    ensures w.watcher.WatcherDone? ==> w.p.kills > 0 || w.c.procDone
  {
    ReachableInv(w);
  }

  /**
   * Nothing is left hanging on the command: once the waiter has delivered, a read can end even if some process
   * keeps the pipe open, and the watcher and every timer can end.
   */
  lemma NothingHangs(w: World)
    requires Reachable(w) && w.waiter == WaiterDone
    ensures w.main.Reading? ==> Step(w, MainStep(ReadIs(0, DeadlineExceeded))).Some?
    ensures w.main.Collecting? || w.main.DrainWaiting? ==> Step(w, MainStep(NoAnswer)).Some?
    ensures w.watcher.Watching? ==> Step(w, WatcherStep(false)) == Some(w.(watcher := WatcherDone))
    ensures forall k :: 0 <= k < |w.timers| && w.timers[k].Armed? ==> Step(w, TimerStep(k, false)) == Some(w.(timers := w.timers[k := TimerDone]))
  {
    ReachableInv(w);
  }

  /** Nothing has been launched or sent, and no other goroutine runs. */
  predicate Blank(w: World) {
    && (w.main.ReceivingFirst? || (w.main.Returned? && w.main.ret != RetNil))
    && !w.p.started && w.sent == [] && w.timers == []
    && w.waiter == WaiterUnborn && w.receiver == ReceiverUnborn && w.watcher == WatcherUnborn
  }

  /** Unless the first message is a StartCommandRequest, nothing is launched and nothing is sent, in any run. */
  lemma {:induction false} OnlyStartLaunches(w: World, labels: seq<Action>)
    requires Blank(w) && Run(Step, w, labels).Some? && MainStep(First(FirstStart)) !in labels
    ensures Blank(Run(Step, w, labels).value)
    decreases |labels|
  {
    if labels != [] {
      assert labels[0] in labels;
      OnlyStartLaunches(Step(w, labels[0]).value, labels[1..]);
    }
  }

  /** The step in which the grace timer k, having expired, sends its SIGKILL. */
  predicate Fires(w: World, a: Action, k: nat) {
    a == TimerStep(k, false) && k < |w.timers| && w.timers[k].TimerKilling?
  }

  lemma MainLeavesTimers(w: World, a: Answer)
    requires MainNext(w, a).Some?
    ensures MainNext(w, a).value.timers == w.timers && MainNext(w, a).value.c.procDone == w.c.procDone
  {
  }

  lemma ReceiverLeavesTimers(w: World, got: Option<Received>)
    requires ReceiverNext(w, got).Some?
    ensures ReceiverNext(w, got).value.c.procDone == w.c.procDone
    ensures |w.timers| <= |ReceiverNext(w, got).value.timers| && ReceiverNext(w, got).value.timers[..|w.timers|] == w.timers
  {
  }

  lemma StepServesTimers(w: World, a: Action, k: nat)
    requires k < |w.timers| && Step(w, a).Some?
    ensures var w' := Step(w, a).value;
      && k < |w'.timers| && (w.c.procDone ==> w'.c.procDone)
      && (w'.timers[k].TimerDone? ==> w.timers[k].TimerDone? || w'.c.procDone || Fires(w, a, k))
  {
    if a.MainStep? {
      MainLeavesTimers(w, a.answer);
    } else if a.ReceiverStep? {
      ReceiverLeavesTimers(w, a.got);
    }
  }

  /** A grace timer never lapses: in every run it ends with a SIGKILL of its own, or once the exit is known. */
  lemma {:induction false} TimersNeverLapse(w: World, labels: seq<Action>, k: nat)
    requires k < |w.timers| && Run(Step, w, labels).Some?
    ensures var w' := Run(Step, w, labels).value;
      && k < |w'.timers| && (w.c.procDone ==> w'.c.procDone)
      && (w'.timers[k].TimerDone? ==> w.timers[k].TimerDone? || w'.c.procDone || Somewhere(Step, w, labels, (v, a) => Fires(v, a, k)))
    decreases |labels|
  {
    if labels != [] {
      StepServesTimers(w, labels[0], k);
      TimersNeverLapse(Step(w, labels[0]).value, labels[1..], k);
    }
  }

  /** The exit is known to all, and the receiver is not about to signal a command it took to be running. */
  predicate Settled(w: World) {
    w.c.procDone && !w.receiver.Acting? && !w.receiver.BrokenKilling?
  }

  lemma MainStaysSettled(w: World, a: Answer)
    requires Settled(w) && MainNext(w, a).Some?
    ensures var w' := MainNext(w, a).value; Settled(w') && w'.p.terms == w.p.terms && w'.timers == w.timers
  {
  }

  lemma StaysSettled(w: World, a: Action)
    requires Settled(w) && Step(w, a).Some?
    ensures var w' := Step(w, a).value; Settled(w') && w'.p.terms == w.p.terms && |w'.timers| == |w.timers|
  {
    if a.MainStep? {
      MainStaysSettled(w, a.answer);
    }
  }

  /** The receiver looks at procDone before it acts: from then on it sends no SIGTERM and arms no timer. */
  lemma {:induction false} ExitSilencesReceiver(w: World, labels: seq<Action>)
    requires Settled(w) && Run(Step, w, labels).Some?
    ensures var w' := Run(Step, w, labels).value; Settled(w') && w'.p.terms == w.p.terms && |w'.timers| == |w.timers|
    decreases |labels|
  {
    if labels != [] {
      StaysSettled(w, labels[0]);
      ExitSilencesReceiver(Step(w, labels[0]).value, labels[1..]);
    }
  }

  /** The violation is returned exactly when the receiver has reported it before the select of line 198. */
  lemma ViolationReportedIff(w: World, status: WaitStatus)
    requires Reachable(w) && w.main == Checking(status)
    ensures Step(w, MainStep(NoAnswer)).Some?
    ensures Step(w, MainStep(NoAnswer)).value.main == Returned(RetViolation) <==> w.c.protoSends == 1
  {
    ReachableInv(w);
  }

  // -- A violation that is seen but not returned --

  /** The receiver has killed the command for a violation and has yet to report it. */
  function Overtaken(main: MainPc, waiter: WaiterPc, p: Process, c: Channels, sent: seq<ServerEvent>): World {
    World(main, waiter, Reporting, Watching, [], p, c, sent, true)
  }

  const DEAD := ExitError(-1)

  function Corpse(waits: nat, gone: bool, deadline: bool, ended: Option<ReadEnd>, kills: nat): Process {
    Process(true, Some(DEAD), waits, [], 0, gone, deadline, ended, 0, kills)
  }

  lemma Launched() returns (w: World)
    ensures Reachable(w)
    ensures w == World(Reading, InWait, InRecv, Watching, [], Process(true, None, 0, [], 0, false, false, None, 0, 0),
                       Channels(false, None, 0, false, 0), [Started("id")], false)
  {
    assert Run(Step, INIT, []) == Some(INIT);
    w := Take(Step, INIT, INIT, MainStep(First(FirstStart)));
    w := Take(Step, INIT, w, MainStep(PipeIs(None)));
    w := Take(Step, INIT, w, MainStep(StartIs(None)));
    assert w.sent == [] && w.main == SendingStarted;
    w := Take(Step, INIT, w, MainStep(SendIs(true)));
  }

  lemma ViolationSeen()
    ensures Reachable(Overtaken(Reading, InWait, Corpse(0, true, false, None, 1), Channels(false, None, 0, false, 0), [Started("id")]))
  {
    var w := Launched();
    w := Take(Step, INIT, w, ReceiverStep(Some(Got(OtherEvent))));
    w := Take(Step, INIT, w, ReceiverStep(None));
    w := Take(Step, INIT, w, CommandExits(DEAD));
    w := Take(Step, INIT, w, WritersLeave);
    assert w == Overtaken(Reading, InWait, Corpse(0, true, false, None, 1), Channels(false, None, 0, false, 0), [Started("id")]);
  }

  lemma WaiterDelivers()
    ensures Reachable(Overtaken(Reading, WaiterDone, Corpse(1, true, true, None, 2), Channels(true, Some(DEAD), 1, false, 0), [Started("id")]))
  {
    ViolationSeen();
    var w := Overtaken(Reading, InWait, Corpse(0, true, false, None, 1), Channels(false, None, 0, false, 0), [Started("id")]);
    w := Take(Step, INIT, w, WaiterStep);
    w := Take(Step, INIT, w, WaiterStep);
    w := Take(Step, INIT, w, WaiterStep);
    w := Take(Step, INIT, w, WaiterStep);
    w := Take(Step, INIT, w, WaiterStep);
    assert w == Overtaken(Reading, WaiterDone, Corpse(1, true, true, None, 2), Channels(true, Some(DEAD), 1, false, 0), [Started("id")]);
  }

  /** A run that returns nil although the receiver has seen a violation and killed the command for it. */
  lemma ViolationLostWitness() returns (w: World)
    ensures Reachable(w) && w.main == Returned(RetNil) && w.receiver == Reporting
  {
    WaiterDelivers();
    w := Overtaken(Reading, WaiterDone, Corpse(1, true, true, None, 2), Channels(true, Some(DEAD), 1, false, 0), [Started("id")]);
    w := Take(Step, INIT, w, MainStep(ReadIs(0, Eof)));
    w := Take(Step, INIT, w, MainStep(NoAnswer));
    w := Take(Step, INIT, w, MainStep(NoAnswer));
    w := Take(Step, INIT, w, MainStep(SendIs(true)));
  }
}
