/** RunCommand returns, in every fair run in which the command exits, whoever keeps the pipe open. */
module ExecLiveness {
  import opened Prelude
  import opened ExecTypes
  import opened ExecServer
  import opened ExecControl

  datatype Thread = MainThread | WaiterThread | NoThread

  function ThreadOf(a: Action): Thread {
    match a
    case MainStep(_) => MainThread
    case WaiterStep => WaiterThread
    case _ => NoThread
  }

  /**
   * The thread may not stay where it is for ever. Pipe, Start, Send, Kill and SetReadDeadline return; Wait returns
   * once the command has exited, Read once the deadline is set, and a receive once its channel holds a value.
   */
  predicate Obliged(w: World, t: Thread) {
    match t
    case MainThread =>
      && !w.main.ReceivingFirst? && !w.main.Returned?
      && (w.main.Reading? ==> w.p.deadline)
      && (w.main.AbortWaiting? ==> w.p.exited.Some?)
      && (w.main.DrainWaiting? || w.main.Collecting? ==> w.c.waitCh.Some?)
    case WaiterThread =>
      && w.waiter != WaiterUnborn && w.waiter != WaiterDone
      && (w.waiter.InWait? ==> w.p.exited.Some?)
      && (w.waiter.Delivering? ==> w.c.waitCh.None?)
    case NoThread => false
  }

  /** An obliged thread has a step to take, a Read that fails at once if it is in a Read. */
  lemma ObligedCanStep(w: World, t: Thread) returns (a: Action)
    requires Control(w) && Obliged(w, t)
    ensures ThreadOf(a) == t && Step(w, a).Some? && !ReadsOn(w, a)
  {
    match t
    case MainThread =>
      a := MainStep(match w.main
        case Piping => PipeIs(None)
        case Launching => StartIs(None)
        case SendingError(_) => SendIs(true)
        case SendingStarted => SendIs(true)
        case SendingOutput(_, _) => SendIs(true)
        case SendingExited(_) => SendIs(true)
        case Reading => ReadIs(0, DeadlineExceeded)
        case _ => NoAnswer);
    case WaiterThread => a := WaiterStep;
  }

  /** A Read that, with the deadline set, still succeeds. */
  predicate ReadsOn(w: World, a: Action) {
    w.p.deadline && a.MainStep? && a.answer.ReadIs? && a.answer.end == NoError
  }

  predicate StepsAt(world: nat -> World, act: nat -> Action, n: nat) {
    Step(world(n), act(n)) == Some(world(n + 1))
  }

  ghost predicate IsRun(world: nat -> World, act: nat -> Action) {
    world(0) == INIT && forall n: nat :: StepsAt(world, act, n)
  }

  predicate ServedAt(world: nat -> World, act: nat -> Action, t: Thread, m: nat) {
    ThreadOf(act(m)) == t || !Obliged(world(m), t)
  }

  ghost predicate ServedAfter(world: nat -> World, act: nat -> Action, t: Thread, n: nat) {
    exists m: nat :: n <= m && ServedAt(world, act, t, m)
  }

  /** No thread stays obliged for ever without taking a step. */
  ghost predicate Fair(world: nat -> World, act: nat -> Action) {
    forall t: Thread, n: nat :: ServedAfter(world, act, t, n)
  }

  predicate ExitedBy(world: nat -> World, n: nat) {
    world(n).p.exited.Some?
  }

  /** A command that is started exits at some time. */
  ghost predicate CommandEnds(world: nat -> World) {
    forall n: nat :: world(n).p.started ==> exists m: nat :: n <= m && ExitedBy(world, m)
  }

  /** From step late on, Read fails once the deadline is set. */
  ghost predicate DeadlineHolds(world: nat -> World, act: nat -> Action, late: nat) {
    forall n: nat :: late <= n ==> !ReadsOn(world(n), act(n))
  }

  // -- The measure --

  function WaiterRank(pc: WaiterPc): nat {
    match pc
    case WaiterUnborn => 6
    case InWait => 5
    case ClosingDone(_) => 4
    case KillingGroup(_) => 3
    case SettingDeadline(_) => 2
    case Delivering(_) => 1
    case WaiterDone => 0
  }

  function MainRank(pc: MainPc): nat {
    match pc
    case ReceivingFirst => 50
    case Piping => 43
    case Launching => 42
    case SendingError(_) => 41
    case SendingStarted => 40
    case SendingOutput(_, NoError) => 9
    case Reading => 8
    case SendingOutput(_, _) => 7
    case DrainKilling(_) => 5
    case Collecting => 5
    case DrainWaiting(_) => 4
    case Checking(_) => 4
    case SendingExited(_) => 3
    case AbortKilling => 2
    case AbortWaiting => 1
    case Returned(_) => 0
  }

  /** While the command runs its own course the waiter decides; before and after that the main goroutine does. */
  predicate OnWaiter(w: World) {
    Spawned(w.main) && w.waiter != WaiterDone
  }

  function Rank(w: World): nat {
    if OnWaiter(w) then 20 + WaiterRank(w.waiter) else MainRank(w.main)
  }

  function Helper(w: World): Thread {
    if OnWaiter(w) then WaiterThread else MainThread
  }

  /** The environment has done its part: a command that was started has exited. */
  predicate Ready(w: World) {
    !w.main.ReceivingFirst? && (w.p.started ==> w.p.exited.Some?)
  }

  lemma HelperIsObliged(w: World)
    requires Control(w) && Ready(w) && !w.main.Returned?
    ensures Obliged(w, Helper(w))
  {
  }

  predicate Closer(w: World, w': World, t: Thread) {
    Rank(w') < Rank(w) || (Rank(w') == Rank(w) && Helper(w') == Helper(w) != t)
  }

  /** While the waiter has not delivered, the main goroutine cannot get past the read loop. */
  lemma MainLeavesWaiter(w: World, a: Answer)
    requires Control(w) && OnWaiter(w) && MainNext(w, a).Some?
    ensures OnWaiter(MainNext(w, a).value) && MainNext(w, a).value.waiter == w.waiter
  {
  }

  lemma MainStepRank(w: World, a: Answer)
    requires Control(w) && !w.main.ReceivingFirst? && MainNext(w, a).Some? && !ReadsOn(w, MainStep(a))
    ensures Closer(w, MainNext(w, a).value, MainThread)
  {
    if OnWaiter(w) {
      MainLeavesWaiter(w, a);
    }
  }

  lemma WaiterStepRank(w: World)
    requires Control(w) && WaiterNext(w).Some?
    ensures Closer(w, WaiterNext(w).value, WaiterThread)
  {
  }

  /** No step leads away from the return; a step of the helper leads closer, any other step keeps the helper. */
  lemma StepRank(w: World, a: Action)
    requires Control(w) && !w.main.ReceivingFirst? && Step(w, a).Some? && !ReadsOn(w, a)
    ensures !Step(w, a).value.main.ReceivingFirst? && Closer(w, Step(w, a).value, ThreadOf(a))
  {
    match a
    case MainStep(answer) => MainStepRank(w, answer);
    case WaiterStep => WaiterStepRank(w);
    case ReceiverStep(got) => assert ReceiverNext(w, got).value.main == w.main && ReceiverNext(w, got).value.waiter == w.waiter;
    case _ =>
  }

  // -- Fair runs --

  lemma {:induction false} RunControl(world: nat -> World, act: nat -> Action, n: nat)
    requires IsRun(world, act)
    ensures Control(world(n))
  {
    if n == 0 {
      InitControl();
    } else {
      RunControl(world, act, n - 1);
      assert StepsAt(world, act, n - 1);
      ControlAfter(world(n - 1), act(n - 1), world(n));
    }
  }

  lemma InitControl()
    ensures Control(INIT)
  {
  }

  lemma ControlAfter(w: World, a: Action, w': World)
    requires Control(w) && Step(w, a) == Some(w')
    ensures Control(w')
  {
    StepKeepsControl(w, a);
  }

  lemma {:induction false} RunLater(world: nat -> World, act: nat -> Action, n: nat, m: nat)
    requires IsRun(world, act) && n <= m
    ensures Later(world(n), world(m))
    decreases m - n
  {
    if n < m {
      RunLater(world, act, n, m - 1);
      assert StepsAt(world, act, m - 1);
      StepLater(world(m - 1), act(m - 1));
    }
  }

  lemma OneStepRank(world: nat -> World, act: nat -> Action, late: nat, n: nat)
    requires IsRun(world, act) && DeadlineHolds(world, act, late) && late <= n && !world(n).main.ReceivingFirst?
    ensures Closer(world(n), world(n + 1), ThreadOf(act(n)))
  {
    RunControl(world, act, n);
    assert StepsAt(world, act, n) && !ReadsOn(world(n), act(n));
    StepRank(world(n), act(n));
  }

  /** From n to m the rank has gone down, or the helper is still the same and has not moved. */
  lemma {:induction false} UntilHelped(world: nat -> World, act: nat -> Action, late: nat, n: nat, m: nat)
    requires IsRun(world, act) && DeadlineHolds(world, act, late) && late <= n <= m && !world(n).main.ReceivingFirst?
    ensures Rank(world(m)) < Rank(world(n)) || (Rank(world(m)) == Rank(world(n)) && Helper(world(m)) == Helper(world(n)))
    decreases m - n
  {
    if n < m {
      UntilHelped(world, act, late, n, m - 1);
      RunLater(world, act, n, m - 1);
      OneStepRank(world, act, late, m - 1);
    }
  }

  /** Sooner or later a started command has exited. */
  lemma ReadyLater(world: nat -> World, act: nat -> Action, n: nat) returns (m: nat)
    requires IsRun(world, act) && CommandEnds(world) && !world(n).main.ReceivingFirst?
    ensures n <= m && Ready(world(m))
  {
    if world(n).p.started {
      m :| n <= m && ExitedBy(world, m);
      RunLater(world, act, n, m);
    } else {
      m := n;
    }
  }

  /** As long as the rank stays the same no command is started. */
  lemma StaysReady(w: World, w': World)
    requires Control(w) && Control(w') && Ready(w) && Later(w, w') && Rank(w') == Rank(w) && !w.main.Returned?
    ensures Ready(w')
  {
  }

  lemma {:induction false} ReturnsFrom(world: nat -> World, act: nat -> Action, late: nat, n: nat)
    requires IsRun(world, act) && Fair(world, act) && CommandEnds(world) && DeadlineHolds(world, act, late)
    requires late <= n && !world(n).main.ReceivingFirst?
    ensures exists m: nat :: n <= m && world(m).main.Returned?
    decreases Rank(world(n))
  {
    if !world(n).main.Returned? {
      var r := ReadyLater(world, act, n);
      UntilHelped(world, act, late, n, r);
      RunLater(world, act, n, r);
      if world(r).main.Returned? {
      } else if Rank(world(r)) < Rank(world(n)) {
        ReturnsFrom(world, act, late, r);
      } else {
        var m := HelpComes(world, act, late, r);
        if !world(m).main.Returned? {
          ReturnsFrom(world, act, late, m);
        }
      }
    }
  }

  /** From a ready world the rank goes down. */
  lemma HelpComes(world: nat -> World, act: nat -> Action, late: nat, n: nat) returns (m: nat)
    requires IsRun(world, act) && Fair(world, act) && DeadlineHolds(world, act, late)
    requires late <= n && Ready(world(n)) && !world(n).main.Returned?
    ensures n <= m && !world(m).main.ReceivingFirst? && Rank(world(m)) < Rank(world(n))
  {
    m := Served(world, act, Helper(world(n)), n);
    UntilHelped(world, act, late, n, m);
    RunLater(world, act, n, m);
    if Rank(world(m)) == Rank(world(n)) {
      StillReady(world, act, n, m);
      assert StepsAt(world, act, m) && !ReadsOn(world(m), act(m));
      HelpSteps(world, act, m);
      m := m + 1;
    }
  }

  lemma Served(world: nat -> World, act: nat -> Action, t: Thread, n: nat) returns (m: nat)
    requires Fair(world, act)
    ensures n <= m && ServedAt(world, act, t, m)
  {
    assert ServedAfter(world, act, t, n);
    m :| n <= m && ServedAt(world, act, t, m);
  }

  lemma StillReady(world: nat -> World, act: nat -> Action, n: nat, m: nat)
    requires IsRun(world, act) && n <= m && Ready(world(n)) && !world(n).main.Returned? && Rank(world(m)) == Rank(world(n))
    ensures Control(world(m)) && Ready(world(m)) && !world(m).main.Returned?
  {
    RunControl(world, act, n);
    RunControl(world, act, m);
    RunLater(world, act, n, m);
    StaysReady(world(n), world(m));
  }

  lemma HelpSteps(world: nat -> World, act: nat -> Action, m: nat)
    requires StepsAt(world, act, m) && Control(world(m)) && Ready(world(m)) && !world(m).main.Returned? && !ReadsOn(world(m), act(m))
    requires ServedAt(world, act, Helper(world(m)), m)
    ensures !world(m + 1).main.ReceivingFirst? && Rank(world(m + 1)) < Rank(world(m))
  {
    HelperIsObliged(world(m));
    StepRank(world(m), act(m));
  }

  /**
   * In every fair run RunCommand returns once it has received its first message, if the command, when started,
   * exits, and reads fail from some time on after the deadline is set. No process has to close the pipe.
   */
  lemma RunCommandReturns(world: nat -> World, act: nat -> Action, late: nat, n: nat)
    requires IsRun(world, act) && Fair(world, act) && CommandEnds(world) && DeadlineHolds(world, act, late)
    requires !world(n).main.ReceivingFirst?
    ensures exists m: nat :: n <= m && world(m).main.Returned?
  {
    var k := if n < late then late else n;
    RunLater(world, act, n, k);
    ReturnsFrom(world, act, late, k);
  }
}
