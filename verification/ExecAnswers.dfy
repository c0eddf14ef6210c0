/** What RunCommand answers to what happens to it, told over whole runs: signals, failed launches, returned errors. */
module ExecAnswers {
  import opened Prelude
  import opened ExecTypes
  import opened ExecServer
  import opened ExecControl
  import opened ExecInvariant
  import opened ExecSafety
  import opened Termination

  // -- Terminate events --

  /** An event is owed a SIGTERM, a grace timer, or a SIGKILL. */
  predicate OwesTerm(t: Terminate) {
    !t.force || Grace(t) > 0
  }

  predicate OwesTimer(t: Terminate) {
    t.force && Grace(t) > 0
  }

  predicate OwesKill(t: Terminate) {
    t.force && Grace(t) == 0
  }

  function One(b: bool): nat {
    if b then 1 else 0
  }

  /** A TerminateCommand to a command not known to have exited: the receiver sends what is owed, and listens again. */
  lemma TerminateAnswered(w: World, t: Terminate) returns (w': World)
    requires w.receiver.InRecv? && !w.c.procDone
    ensures Run(Step, w, [ReceiverStep(Some(Got(TerminateEvent(t))))] + [ReceiverStep(None)] + [ReceiverStep(None)]) == Some(w')
    ensures w'.receiver.InRecv? && w'.main == w.main && w'.sent == w.sent
    ensures w'.p.terms == w.p.terms + One(OwesTerm(t)) && w'.p.kills == w.p.kills + One(OwesKill(t))
    ensures w'.timers == w.timers + if OwesTimer(t) then [Armed(Grace(t))] else []
  {
    var got := ReceiverStep(Some(Got(TerminateEvent(t))));
    w' := Step(w, got).value;
    assert Run(Step, w, [got]) == Some(w') by {
      assert Run(Step, w', [got][1..]) == Some(w');
    }
    w' := Then(Step, w, [got], w', ReceiverStep(None));
    w' := Then(Step, w, [got] + [ReceiverStep(None)], w', ReceiverStep(None));
  }

  /** How often the labels ask for a SIGTERM, and for a grace timer. */
  function TermsOwed(labels: seq<Action>): nat {
    if labels == [] then 0 else TermsOwedBy(labels[0]) + TermsOwed(labels[1..])
  }

  function TermsOwedBy(a: Action): nat {
    match a
    case ReceiverStep(Some(Got(TerminateEvent(t)))) => One(OwesTerm(t))
    case _ => 0
  }

  function TimersOwed(labels: seq<Action>): nat {
    if labels == [] then 0 else TimersOwedBy(labels[0]) + TimersOwed(labels[1..])
  }

  function TimersOwedBy(a: Action): nat {
    match a
    case ReceiverStep(Some(Got(TerminateEvent(t)))) => One(OwesTimer(t))
    case _ => 0
  }

  /**
   * How often a step asks for a SIGKILL: an event with force and no grace, a violation, a broken stream, a
   * disconnect, an expired timer, and a failed Send to a running command's client.
   */
  function KillsOwedBy(w: World, a: Action): nat {
    match a
    case ReceiverStep(Some(Got(TerminateEvent(t)))) => One(OwesKill(t))
    case ReceiverStep(Some(Got(OtherEvent))) => 1
    case ReceiverStep(Some(GotError)) => 1
    case WatcherStep(disconnected) => One(disconnected && w.watcher.Watching?)
    case TimerStep(_, expired) => One(expired)
    case MainStep(SendIs(ok)) => One(!ok && (w.main.SendingStarted? || w.main.SendingOutput?))
    case _ => 0
  }

  function KillsOwed(w: World, labels: seq<Action>): nat
    decreases |labels|
  {
    if labels == [] || Step(w, labels[0]).None? then 0
    else KillsOwedBy(w, labels[0]) + KillsOwed(Step(w, labels[0]).value, labels[1..])
  }

  /** The event the receiver has taken and not answered yet. */
  predicate AtHand(pc: ReceiverPc) {
    pc.Handling? || pc.Acting?
  }

  function ReceiverKillDue(pc: ReceiverPc): nat {
    One((AtHand(pc) && OwesKill(pc.t)) || pc.StreamBroken? || pc.BrokenKilling? || pc.ViolationKilling?)
  }

  function Expired(timers: seq<TimerPc>): nat {
    if timers == [] then 0 else Expired(timers[..|timers| - 1]) + One(Last(timers).TimerKilling?)
  }

  /** SIGKILLs asked for and about to be sent. */
  function KillsDue(w: World): nat {
    One(w.main.AbortKilling? || w.main.DrainKilling?) + ReceiverKillDue(w.receiver) + One(w.watcher.DisconnectKilling?) + Expired(w.timers)
  }

  lemma {:induction false} ExpiredMoves(timers: seq<TimerPc>, k: nat, pc: TimerPc)
    requires k < |timers|
    ensures Expired(timers[k := pc]) == Expired(timers) - One(timers[k].TimerKilling?) + One(pc.TimerKilling?)
    decreases |timers|
  {
    var front, timers' := timers[..|timers| - 1], timers[k := pc];
    if k == |timers| - 1 {
      assert timers'[..|timers'| - 1] == front;
    } else {
      ExpiredMoves(front, k, pc);
      assert timers'[..|timers'| - 1] == front[k := pc];
    }
  }

  /** The account of signals sent and about to be sent, from w to w'. */
  predicate Paid(w: World, w': World, terms: nat, timers: nat, kills: nat) {
    && w'.p.terms + One(AtHand(w'.receiver) && OwesTerm(w'.receiver.t)) == w.p.terms + One(AtHand(w.receiver) && OwesTerm(w.receiver.t)) + terms
    && |w'.timers| + One(AtHand(w'.receiver) && OwesTimer(w'.receiver.t)) == |w.timers| + One(AtHand(w.receiver) && OwesTimer(w.receiver.t)) + timers
    && w'.p.kills + KillsDue(w') == w.p.kills + KillsDue(w) + kills
  }

  lemma MainOwnKills(w: World, a: Answer)
    requires MainNext(w, a).Some?
    ensures var w' := MainNext(w, a).value;
      w'.p.kills + One(w'.main.AbortKilling? || w'.main.DrainKilling?)
        == w.p.kills + One(w.main.AbortKilling? || w.main.DrainKilling?) + KillsOwedBy(w, MainStep(a))
  {
  }

  lemma MainSparesOthers(w: World, a: Answer)
    requires MainNext(w, a).Some?
    ensures var w' := MainNext(w, a).value;
      && w'.p.terms == w.p.terms && w'.timers == w.timers
      && (if w.main.SendingStarted? && a == SendIs(true) then w'.receiver == InRecv && w'.watcher == Watching
          else w'.receiver == w.receiver && w'.watcher == w.watcher)
  {
  }

  lemma MainPays(w: World, a: Answer)
    requires Control(w) && MainNext(w, a).Some?
    ensures Paid(w, MainNext(w, a).value, 0, 0, KillsOwedBy(w, MainStep(a)))
  {
    MainOwnKills(w, a);
    MainSparesOthers(w, a);
    assert w.main.SendingStarted? ==> w.receiver == ReceiverUnborn && w.watcher == WatcherUnborn;
  }

  lemma ActPays(w: World, t: Terminate)
    requires w.receiver == Acting(t)
    ensures Paid(w, Act(w, t), 0, 0, 0)
  {
    if OwesTimer(t) {
      var timers' := Act(w, t).timers;
      assert timers'[..|timers'| - 1] == w.timers;
    }
  }

  lemma ReceiverPays(w: World, got: Option<Received>)
    requires ReceiverNext(w, got).Some? && !w.c.procDone
    ensures Paid(w, ReceiverNext(w, got).value, TermsOwedBy(ReceiverStep(got)), TimersOwedBy(ReceiverStep(got)), KillsOwedBy(w, ReceiverStep(got)))
  {
    if w.receiver.Acting? {
      ActPays(w, w.receiver.t);
    } else if w.receiver.InRecv? {
      DispatchPays(w, got.value);
    }
  }

  lemma DispatchPays(w: World, got: Received)
    requires w.receiver.InRecv?
    ensures var a := ReceiverStep(Some(got)); Paid(w, Dispatch(w, got), TermsOwedBy(a), TimersOwedBy(a), KillsOwedBy(w, a))
  {
  }

  lemma TimerPays(w: World, k: nat, expired: bool)
    requires k < |w.timers| && TimerNext(w, k, expired).Some?
    ensures Paid(w, TimerNext(w, k, expired).value, 0, 0, One(expired))
  {
    ExpiredMoves(w.timers, k, TimerNext(w, k, expired).value.timers[k]);
  }

  lemma StepPays(w: World, a: Action)
    requires Control(w) && Step(w, a).Some? && !Step(w, a).value.c.procDone
    ensures Paid(w, Step(w, a).value, TermsOwedBy(a), TimersOwedBy(a), KillsOwedBy(w, a))
  {
    match a
    case MainStep(answer) => MainPays(w, answer);
    case ReceiverStep(got) => ReceiverPays(w, got);
    case TimerStep(k, expired) => TimerPays(w, k, expired);
    case _ => OthersPay(w, a);
  }

  lemma WatcherPays(w: World, disconnected: bool)
    requires WatcherNext(w, disconnected).Some?
    ensures Paid(w, WatcherNext(w, disconnected).value, 0, 0, KillsOwedBy(w, WatcherStep(disconnected)))
  {
  }

  lemma OthersPay(w: World, a: Action)
    requires !a.MainStep? && !a.ReceiverStep? && !a.TimerStep? && Control(w) && Step(w, a).Some? && !Step(w, a).value.c.procDone
    ensures Paid(w, Step(w, a).value, 0, 0, KillsOwedBy(w, a))
  {
    if a.WatcherStep? {
      WatcherPays(w, a.disconnected);
    } else {
      var w' := Step(w, a).value;
      assert w'.p.kills == w.p.kills && w'.p.terms == w.p.terms && w'.timers == w.timers;
      assert w'.main == w.main && w'.receiver == w.receiver && w'.watcher == w.watcher;
    }
  }

  lemma ProcDoneStays(w: World, a: Action)
    requires Step(w, a).Some? && w.c.procDone
    ensures Step(w, a).value.c.procDone
  {
    if a.MainStep? {
      MainLeavesTimers(w, a.answer);
    }
  }

  lemma {:induction false} RunPays(w: World, labels: seq<Action>)
    requires Control(w) && Run(Step, w, labels).Some?
    ensures !Run(Step, w, labels).value.c.procDone ==>
      !w.c.procDone && Paid(w, Run(Step, w, labels).value, TermsOwed(labels), TimersOwed(labels), KillsOwed(w, labels))
    decreases |labels|
  {
    if labels != [] {
      var v := Step(w, labels[0]).value;
      StepKeepsControl(w, labels[0]);
      RunPays(v, labels[1..]);
      if w.c.procDone {
        ProcDoneStays(w, labels[0]);
      }
      if !v.c.procDone {
        StepPays(w, labels[0]);
      }
    }
  }

  /**
   * In every run, as long as procDone is open: the SIGTERMs sent, the grace timers armed and the SIGKILLs sent are
   * as many as were asked for, but for those whose goroutine is still on its way to send them.
   */
  lemma SignalsConserved(labels: seq<Action>)
    requires Run(Step, INIT, labels).Some? && !Run(Step, INIT, labels).value.c.procDone
    ensures var w := Run(Step, INIT, labels).value;
      && w.p.terms + One(AtHand(w.receiver) && OwesTerm(w.receiver.t)) == TermsOwed(labels)
      && |w.timers| + One(AtHand(w.receiver) && OwesTimer(w.receiver.t)) == TimersOwed(labels)
      && w.p.kills + KillsDue(w) == KillsOwed(INIT, labels)
  {
    RunPays(INIT, labels);
  }

  // -- What ends the receiver, and how much a Read takes --

  /** The receiver waits for no further event. */
  predicate Deaf(pc: ReceiverPc) {
    pc.ReceiverDone? || pc.StreamBroken? || pc.BrokenKilling? || pc.ViolationKilling? || pc.Reporting?
  }

  lemma StaysDeaf(w: World, a: Action)
    requires Control(w) && Deaf(w.receiver) && Step(w, a).Some?
    ensures Deaf(Step(w, a).value.receiver) && !(a.ReceiverStep? && a.got.Some?)
  {
    if a.MainStep? {
      MainSparesOthers(w, a.answer);
    }
  }

  lemma {:induction false} DeafForGood(w: World, labels: seq<Action>)
    requires Control(w) && Deaf(w.receiver) && Run(Step, w, labels).Some?
    ensures forall a :: a in labels ==> !(a.ReceiverStep? && a.got.Some?)
    decreases |labels|
  {
    if labels != [] {
      StaysDeaf(w, labels[0]);
      StepKeepsControl(w, labels[0]);
      DeafForGood(Step(w, labels[0]).value, labels[1..]);
      assert labels == [labels[0]] + labels[1..];
    }
  }

  /** The end of the client's side, a broken stream and a violation are the last things the receiver takes in any run. */
  lemma LastReceived(w: World, got: Received, labels: seq<Action>)
    requires Reachable(w) && w.receiver.InRecv? && (got.Got? ==> got.e.OtherEvent?)
    requires Step(w, ReceiverStep(Some(got))).Some? && Run(Step, Step(w, ReceiverStep(Some(got))).value, labels).Some?
    ensures forall a :: a in labels ==> !(a.ReceiverStep? && a.got.Some?)
  {
    ReachableInv(w);
    StepKeepsControl(w, ReceiverStep(Some(got)));
    DeafForGood(Step(w, ReceiverStep(Some(got))).value, labels);
  }

  /** A Read takes at most 4096 bytes, and as many if they are there. */
  lemma ReadTakesUpTo4096(w: World, n: nat, end: ReadEnd)
    requires w.main.Reading?
    ensures Step(w, MainStep(ReadIs(n, end))).Some? ==> n <= 4096 && w.p.read + n <= |w.p.written|
    ensures n <= 4096 && w.p.read + n <= |w.p.written| ==> Step(w, MainStep(ReadIs(n, NoError))).Some?
  {
  }

  // -- Failed launches --

  /** Nothing but the main goroutine can step. */
  predicate Alone(w: World) {
    && !w.p.started && w.sent == [] && w.timers == []
    && w.waiter == WaiterUnborn && w.receiver == ReceiverUnborn && w.watcher == WatcherUnborn
  }

  predicate PipeFails(a: Action) {
    a.MainStep? && a.answer.PipeIs? && a.answer.error.Some?
  }

  predicate StartFails(a: Action) {
    a.MainStep? && a.answer.StartIs? && a.answer.error.Some?
  }

  /** The message of the failure among the labels, if there is one. */
  function FailureIn(labels: seq<Action>): Option<string> {
    if labels == [] then None
    else if PipeFails(labels[0]) then Some("pipe: " + labels[0].answer.error.value)
    else if StartFails(labels[0]) then Some("start: " + labels[0].answer.error.value)
    else FailureIn(labels[1..])
  }

  /** Once the failure is being sent, or RunCommand has returned, it is all there is. */
  lemma {:induction false} FailureIsSent(w: World, labels: seq<Action>)
    requires Alone(w) && w.main.SendingError? && Run(Step, w, labels).Some?
    ensures var w' := Run(Step, w, labels).value;
      w'.main == Returned(RetNil) ==> w'.sent == [Exited(-1, w.main.message)] && !w'.p.started
    decreases |labels|
  {
    if labels != [] {
      var v := Step(w, labels[0]).value;
      if v.main.Returned? {
        OverForGood(v, labels[1..]);
      }
    }
  }

  lemma {:induction false} OverForGood(w: World, labels: seq<Action>)
    requires w.main.Returned? && !w.p.started && w.timers == [] && Run(Step, w, labels).Some?
    requires w.waiter == WaiterUnborn && w.receiver == ReceiverUnborn && w.watcher == WatcherUnborn
    ensures Run(Step, w, labels).value == w
    decreases |labels|
  {
    if labels != [] {
      NobodySteps(w, labels[0]);
    }
  }

  lemma NobodySteps(w: World, a: Action)
    requires w.main.Returned? && !w.p.started && w.timers == []
    requires w.waiter == WaiterUnborn && w.receiver == ReceiverUnborn && w.watcher == WatcherUnborn
    ensures Step(w, a).None?
  {
  }

  lemma {:induction false} LaunchFails(w: World, labels: seq<Action>)
    requires Alone(w) && (w.main.ReceivingFirst? || w.main.Piping? || w.main.Launching?) && Run(Step, w, labels).Some?
    ensures var w' := Run(Step, w, labels).value;
      w'.main == Returned(RetNil) && !w'.p.started ==>
        FailureIn(labels).Some? && w'.sent == [Exited(-1, FailureIn(labels).value)]
    decreases |labels|
  {
    if labels != [] {
      var v := Step(w, labels[0]).value;
      if v.main.SendingError? {
        FailureIsSent(v, labels[1..]);
      } else if v.main.Returned? {
        OverForGood(v, labels[1..]);
      } else if v.p.started {
        StartedForGood(v, labels[1..]);
      } else {
        LaunchFails(v, labels[1..]);
      }
    }
  }

  lemma {:induction false} StartedForGood(w: World, labels: seq<Action>)
    requires w.p.started && Run(Step, w, labels).Some?
    ensures Run(Step, w, labels).value.p.started
    decreases |labels|
  {
    if labels != [] {
      StepLater(w, labels[0]);
      StartedForGood(Step(w, labels[0]).value, labels[1..]);
    }
  }

  /** A launch that fails is reported: one Exited with code -1, saying which call failed and how. */
  lemma FailedLaunchReported(labels: seq<Action>)
    requires Run(Step, INIT, labels).Some?
    requires Run(Step, INIT, labels).value.main == Returned(RetNil) && !Run(Step, INIT, labels).value.p.started
    ensures FailureIn(labels).Some? && FailureIn(labels).value != ""
    ensures Run(Step, INIT, labels).value.sent == [Exited(-1, FailureIn(labels).value)]
  {
    LaunchFails(INIT, labels);
    FailureSays(labels);
  }

  lemma {:induction false} FailureSays(labels: seq<Action>)
    ensures FailureIn(labels).Some? ==> FailureIn(labels).value != ""
    ensures FailureIn(labels).Some? <==> exists a :: a in labels && (PipeFails(a) || StartFails(a))
    decreases |labels|
  {
    if labels != [] {
      FailureSays(labels[1..]);
      assert labels == [labels[0]] + labels[1..];
      assert labels[0] in labels;
    }
  }

  // -- Returned errors --

  predicate SendFailed(pc: MainPc) {
    pc.AbortKilling? || pc.AbortWaiting? || pc.DrainKilling? || pc.DrainWaiting? || pc == Returned(RetSendError)
  }

  lemma {:induction false} SendErrorBecause(w: World, labels: seq<Action>)
    requires Run(Step, w, labels).Some?
    ensures SendFailed(Run(Step, w, labels).value.main) <==> SendFailed(w.main) || MainStep(SendIs(false)) in labels
    decreases |labels|
  {
    if labels != [] {
      SendErrorStep(w, labels[0]);
      SendErrorBecause(Step(w, labels[0]).value, labels[1..]);
      assert labels == [labels[0]] + labels[1..];
    }
  }

  lemma SendErrorStep(w: World, a: Action)
    requires Step(w, a).Some?
    ensures SendFailed(Step(w, a).value.main) <==> SendFailed(w.main) || a == MainStep(SendIs(false))
  {
    if a.ReceiverStep? {
      assert ReceiverNext(w, a.got).value.main == w.main;
    }
  }

  predicate FirstLabel(a: Action) {
    a.MainStep? && a.answer.First?
  }

  /** Past the first message, neither of its errors is returned any more, and no other first message is taken. */
  lemma {:induction false} FirstOnlyOnce(w: World, labels: seq<Action>)
    requires !w.main.ReceivingFirst? && Run(Step, w, labels).Some?
    ensures var pc := Run(Step, w, labels).value.main;
      && !pc.ReceivingFirst? && (forall a :: a in labels ==> !FirstLabel(a))
      && (pc == Returned(RetBadFirst) <==> w.main == Returned(RetBadFirst))
      && (pc == Returned(RetRecvError) <==> w.main == Returned(RetRecvError))
    decreases |labels|
  {
    if labels != [] {
      FirstStaysOver(w, labels[0]);
      FirstOnlyOnce(Step(w, labels[0]).value, labels[1..]);
      assert labels == [labels[0]] + labels[1..];
    }
  }

  lemma FirstStaysOver(w: World, a: Action)
    requires !w.main.ReceivingFirst? && Step(w, a).Some?
    ensures var pc := Step(w, a).value.main;
      && !pc.ReceivingFirst? && !FirstLabel(a)
      && (pc == Returned(RetBadFirst) <==> w.main == Returned(RetBadFirst))
      && (pc == Returned(RetRecvError) <==> w.main == Returned(RetRecvError))
  {
    if a.ReceiverStep? {
      assert ReceiverNext(w, a.got).value.main == w.main;
    }
  }

  /**
   * Why RunCommand returns what it returns: InvalidArgument for a first message that is missing or of the wrong
   * kind, the Recv error for a first message that could not be read, the Send error for any Send that failed.
   */
  lemma ReturnedBecause(labels: seq<Action>)
    requires Run(Step, INIT, labels).Some? && Run(Step, INIT, labels).value.main.Returned?
    ensures var ret := Run(Step, INIT, labels).value.main.ret;
      && (ret == RetBadFirst <==> MainStep(First(FirstEof)) in labels || MainStep(First(FirstOther)) in labels)
      && (ret == RetRecvError <==> MainStep(First(FirstError)) in labels)
      && (ret == RetSendError <==> MainStep(SendIs(false)) in labels)
  {
    SendErrorBecause(INIT, labels);
    var v := Step(INIT, labels[0]).value;
    assert FirstLabel(labels[0]);
    FirstOnlyOnce(v, labels[1..]);
    assert labels == [labels[0]] + labels[1..];
  }
}
