/** SIGKILL after the exit of the command is known: how many there can be, and exactly when there can be another. */
module ExecAfterExit {
  import opened Prelude
  import opened ExecTypes
  import opened ExecServer
  import opened ExecControl
  import opened ExecInvariant
  import opened ExecSafety

  // -- How many --

  function PendingTimers(timers: seq<TimerPc>): nat {
    if timers == [] then 0 else PendingTimers(timers[..|timers| - 1]) + if Last(timers).TimerDone? then 0 else 1
  }

  /** The event at hand may still kill or arm a timer, and a violation after it kill once more. */
  function ReceiverMayKill(pc: ReceiverPc): nat {
    match pc
    case InRecv => 1
    case Handling(_) => 1
    case ViolationKilling => 1
    case BrokenKilling => 1
    case Acting(t) => if t.force then 2 else 1
    case _ => 0
  }

  function MainMayKill(pc: MainPc): nat {
    if pc.Reading? || pc.SendingOutput? || pc.DrainKilling? then 1 else 0
  }

  /** How often each goroutine may still kill once procDone is closed. */
  function MayKill(w: World): nat {
    (if w.waiter.KillingGroup? then 1 else 0)
    + MainMayKill(w.main)
    + (if w.watcher.Watching? || w.watcher.DisconnectKilling? then 1 else 0)
    + ReceiverMayKill(w.receiver)
    + PendingTimers(w.timers)
  }

  lemma {:induction false} OneTimerLess(timers: seq<TimerPc>, k: nat, pc: TimerPc)
    requires k < |timers| && !timers[k].TimerDone?
    ensures PendingTimers(timers[k := pc]) == PendingTimers(timers) - if pc.TimerDone? then 1 else 0
    decreases |timers|
  {
    var front, timers' := timers[..|timers| - 1], timers[k := pc];
    if k == |timers| - 1 {
      assert timers'[..|timers'| - 1] == front;
    } else {
      OneTimerLess(front, k, pc);
      assert timers'[..|timers'| - 1] == front[k := pc];
    }
  }

  lemma MainSpends(w: World, a: Answer)
    requires Spawned(w.main) && MainNext(w, a).Some?
    ensures var w' := MainNext(w, a).value; w'.p.kills + MainMayKill(w'.main) <= w.p.kills + MainMayKill(w.main)
  {
  }

  lemma MainLeavesOthers(w: World, a: Answer)
    requires Spawned(w.main) && MainNext(w, a).Some?
    ensures var w' := MainNext(w, a).value;
      w'.c.procDone == w.c.procDone && w'.waiter == w.waiter && w'.watcher == w.watcher && w'.receiver == w.receiver && w'.timers == w.timers
  {
  }

  lemma ReceiverSpends(w: World, got: Option<Received>)
    requires w.c.procDone && ReceiverNext(w, got).Some?
    ensures var w' := ReceiverNext(w, got).value; w'.c.procDone && w'.p.kills + MayKill(w') <= w.p.kills + MayKill(w)
  {
    if w.receiver.Acting? {
      ActSpends(w, w.receiver.t);
    }
  }

  lemma ActSpends(w: World, t: Terminate)
    requires w.receiver == Acting(t)
    ensures var w' := Act(w, t); w'.c == w.c && w'.p.kills + MayKill(w') <= w.p.kills + MayKill(w)
  {
    if ReactionTo(t).TermThenKill? {
      var timers' := Act(w, t).timers;
      assert timers'[..|timers'| - 1] == w.timers;
    }
  }

  lemma TimerSpends(w: World, k: nat, expired: bool)
    requires w.c.procDone && k < |w.timers| && TimerNext(w, k, expired).Some?
    ensures var w' := TimerNext(w, k, expired).value; w'.c.procDone && w'.p.kills + MayKill(w') <= w.p.kills + MayKill(w)
  {
    OneTimerLess(w.timers, k, TimerNext(w, k, expired).value.timers[k]);
  }

  lemma StepSpends(w: World, a: Action)
    requires Control(w) && w.c.procDone && Step(w, a).Some?
    ensures var w' := Step(w, a).value; w'.c.procDone && w'.p.kills + MayKill(w') <= w.p.kills + MayKill(w)
  {
    match a
    case MainStep(answer) =>
      MainSpends(w, answer);
      MainLeavesOthers(w, answer);
    case ReceiverStep(got) => ReceiverSpends(w, got);
    case TimerStep(k, expired) => TimerSpends(w, k, expired);
    case _ =>
  }

  /**
   * Once procDone is closed, each of the waiter, the main goroutine, the watcher and each pending timer kills at
   * most once more, in any run; the receiver at most once, or twice if it is acting on an event with force.
   */
  lemma {:induction false} KillsAfterExitBounded(w: World, labels: seq<Action>)
    requires Control(w) && w.c.procDone && Run(Step, w, labels).Some?
    ensures var w' := Run(Step, w, labels).value; w'.p.kills + MayKill(w') <= w.p.kills + MayKill(w)
    decreases |labels|
  {
    if labels != [] {
      StepSpends(w, labels[0]);
      StepKeepsControl(w, labels[0]);
      KillsAfterExitBounded(Step(w, labels[0]).value, labels[1..]);
    }
  }

  // -- When --

  /** The main goroutine has, or may yet get, bytes whose Send can fail. */
  predicate MainCanKill(main: MainPc, p: Process) {
    main.DrainKilling? || main.SendingOutput? || (main.Reading? && (p.read < |p.written| || !p.writersGone))
  }

  predicate CanKill(w: World) {
    || w.waiter.KillingGroup?
    || MainCanKill(w.main, w.p)
    || w.watcher.Watching? || w.watcher.DisconnectKilling?
    || ReceiverMayKill(w.receiver) > 0
    || exists k :: 0 <= k < |w.timers| && !w.timers[k].TimerDone?
  }

  ghost predicate KillsAgain(w: World, labels: seq<Action>) {
    Run(Step, w, labels).Some? && Run(Step, w, labels).value.p.kills > w.p.kills
  }

  lemma MainCannot(w: World, a: Answer)
    requires Control(w) && w.c.procDone && !CanKill(w) && MainNext(w, a).Some?
    ensures var w' := MainNext(w, a).value;
      w'.c.procDone && !MainCanKill(w'.main, w'.p) && w'.p.kills == w.p.kills
      && w'.waiter == w.waiter && w'.watcher == w.watcher && w'.receiver == w.receiver && w'.timers == w.timers
  {
  }

  lemma StepCannot(w: World, a: Action)
    requires Control(w) && w.c.procDone && !CanKill(w) && Step(w, a).Some?
    ensures var w' := Step(w, a).value; w'.c.procDone && !CanKill(w') && w'.p.kills == w.p.kills
  {
    if a.MainStep? {
      MainCannot(w, a.answer);
    }
  }

  lemma {:induction false} RunCannot(w: World, labels: seq<Action>)
    requires Control(w) && w.c.procDone && !CanKill(w)
    ensures !KillsAgain(w, labels)
    decreases |labels|
  {
    if labels != [] && Step(w, labels[0]).Some? {
      StepCannot(w, labels[0]);
      StepKeepsControl(w, labels[0]);
      RunCannot(Step(w, labels[0]).value, labels[1..]);
    }
  }

  /** A step that kills, or one that leaves the count and after which some run kills. */
  lemma KillsLater(w: World, a: Action, labels: seq<Action>)
    requires Step(w, a).Some? && Step(w, a).value.p.kills == w.p.kills && KillsAgain(Step(w, a).value, labels)
    ensures KillsAgain(w, [a] + labels)
  {
    assert ([a] + labels)[1..] == labels;
  }

  lemma KillsNow(w: World, a: Action)
    requires Step(w, a).Some? && Step(w, a).value.p.kills > w.p.kills
    ensures KillsAgain(w, [a])
  {
    assert Run(Step, Step(w, a).value, [a][1..]) == Some(Step(w, a).value);
  }

  lemma DrainKills(w: World) returns (labels: seq<Action>)
    requires w.main.DrainKilling? || w.main.SendingOutput?
    ensures KillsAgain(w, labels)
  {
    if w.main.DrainKilling? {
      labels := [MainStep(NoAnswer)];
      KillsNow(w, labels[0]);
    } else {
      var w' := Step(w, MainStep(SendIs(false))).value;
      KillsNow(w', MainStep(NoAnswer));
      labels := [MainStep(SendIs(false))] + [MainStep(NoAnswer)];
      KillsLater(w, MainStep(SendIs(false)), [MainStep(NoAnswer)]);
    }
  }

  lemma ReadingKills(w: World) returns (labels: seq<Action>)
    requires w.p.started && w.p.read <= |w.p.written| && w.main.Reading? && MainCanKill(w.main, w.p)
    ensures KillsAgain(w, labels)
    decreases w.p.read - |w.p.written| + 1
  {
    if w.p.read < |w.p.written| {
      var read := MainStep(ReadIs(1, NoError));
      var rest := DrainKills(Step(w, read).value);
      labels := [read] + rest;
      KillsLater(w, read, rest);
    } else {
      var write := CommandWrites([0]);
      var rest := ReadingKills(Step(w, write).value);
      labels := [write] + rest;
      KillsLater(w, write, rest);
    }
  }

  lemma ReceiverKills(w: World) returns (labels: seq<Action>)
    requires w.c.procDone && ReceiverMayKill(w.receiver) > 0
    ensures KillsAgain(w, labels)
    decreases match w.receiver case Acting(_) => 3 case Handling(_) => 2 case InRecv => 1 case _ => 0
  {
    var a := ReceiverStep(if w.receiver.InRecv? then Some(Got(OtherEvent)) else None);
    if w.receiver.ViolationKilling? || w.receiver.BrokenKilling? || (w.receiver.Acting? && ReactionTo(w.receiver.t).KillNow?) {
      labels := [a];
      KillsNow(w, a);
    } else {
      var rest := ReceiverKills(Step(w, a).value);
      labels := [a] + rest;
      KillsLater(w, a, rest);
    }
  }

  lemma TimerKills(w: World, k: nat) returns (labels: seq<Action>)
    requires k < |w.timers| && !w.timers[k].TimerDone?
    ensures KillsAgain(w, labels)
  {
    if w.timers[k].TimerKilling? {
      labels := [TimerStep(k, false)];
      KillsNow(w, TimerStep(k, false));
    } else {
      KillsNow(Step(w, TimerStep(k, true)).value, TimerStep(k, false));
      labels := [TimerStep(k, true)] + [TimerStep(k, false)];
      KillsLater(w, TimerStep(k, true), [TimerStep(k, false)]);
    }
  }

  lemma WatcherKills(w: World) returns (labels: seq<Action>)
    requires w.watcher.Watching? || w.watcher.DisconnectKilling?
    ensures KillsAgain(w, labels)
  {
    if w.watcher.DisconnectKilling? {
      labels := [WatcherStep(false)];
      KillsNow(w, WatcherStep(false));
    } else {
      KillsNow(Step(w, WatcherStep(true)).value, WatcherStep(false));
      labels := [WatcherStep(true)] + [WatcherStep(false)];
      KillsLater(w, WatcherStep(true), [WatcherStep(false)]);
    }
  }

  lemma CanMeansWill(w: World) returns (labels: seq<Action>)
    requires Control(w) && w.c.procDone && CanKill(w)
    ensures KillsAgain(w, labels)
  {
    if w.waiter.KillingGroup? {
      labels := [WaiterStep];
      KillsNow(w, WaiterStep);
    } else if w.watcher.Watching? || w.watcher.DisconnectKilling? {
      labels := WatcherKills(w);
    } else if ReceiverMayKill(w.receiver) > 0 {
      labels := ReceiverKills(w);
    } else if w.main.Reading? && MainCanKill(w.main, w.p) {
      labels := ReadingKills(w);
    } else if MainCanKill(w.main, w.p) {
      labels := DrainKills(w);
    } else {
      var k :| 0 <= k < |w.timers| && !w.timers[k].TimerDone?;
      labels := TimerKills(w, k);
    }
  }

  /** Once procDone is closed, some run sends another SIGKILL if and only if somebody can still come to it. */
  lemma KillsAfterExitIff(w: World)
    requires Reachable(w) && w.c.procDone
    ensures (exists labels :: KillsAgain(w, labels)) <==> CanKill(w)
  {
    ReachableInv(w);
    if CanKill(w) {
      var labels := CanMeansWill(w);
    } else {
      forall labels ensures !KillsAgain(w, labels) {
        RunCannot(w, labels);
      }
    }
  }

  /** A grace timer that expires as the command exits: the select takes the timer, and the group is killed once more. */
  lemma TimerAfterExitWitness() returns (w: World, w': World)
    ensures Reachable(w) && w.c.procDone && w.p.exited.Some? && w.p.kills == 0
    ensures Run(Step, w, [TimerStep(0, true)] + [TimerStep(0, false)]) == Some(w') && w'.p.kills == 1
  {
    w := Launched();
    w := Take(Step, INIT, w, ReceiverStep(Some(Got(TerminateEvent(Terminate(true, Some(5)))))));
    w := Take(Step, INIT, w, ReceiverStep(None));
    w := Take(Step, INIT, w, ReceiverStep(None));
    w := ExitNoted(w);
    var expired := Step(w, TimerStep(0, true)).value;
    w' := Step(expired, TimerStep(0, false)).value;
    assert Run(Step, w, [TimerStep(0, true)]) == Some(expired) by {
      assert Run(Step, expired, [TimerStep(0, true)][1..]) == Some(expired);
    }
    w' := Then(Step, w, [TimerStep(0, true)], expired, TimerStep(0, false));
  }

  lemma ExitNoted(w: World) returns (w': World)
    requires Reachable(w) && w.p.started && w.p.exited.None? && w.waiter == InWait
    ensures Reachable(w') && w'.c.procDone && w'.p.exited.Some? && w'.timers == w.timers && w'.p.kills == w.p.kills
  {
    w' := Take(Step, INIT, w, CommandExits(Clean));
    w' := Take(Step, INIT, w', WaiterStep);
    w' := Take(Step, INIT, w', WaiterStep);
  }
}
