/**
 * RunCommand under a clock: the full interleaving of ExecServer, in which time passes only while no grace timer is
 * due and no event is being handled. One tick is one nanosecond.
 */
module TimedExec {
  import opened Prelude
  import opened ExecTypes
  import opened ExecServer
  import opened ExecControl
  import opened ExecSafety
  import Termination

  /**
   * due: when each grace timer is due. kills: when each SIGKILL was sent. deadlines: for each TerminateCommand with
   * force, the time it was received plus its grace period.
   */
  datatype Timed = Timed(w: World, now: nat, due: seq<nat>, kills: seq<nat>, deadlines: seq<nat>)

  datatype TimedAction = Do(a: Action) | Tick

  const START := Timed(INIT, 0, [], [], [])

  predicate Pending(s: Timed, k: nat) {
    k < |s.w.timers| && k < |s.due| && !s.w.timers[k].TimerDone?
  }

  predicate MayTick(s: Timed) {
    && (forall k :: 0 <= k < |s.w.timers| && Pending(s, k) ==> s.now < s.due[k])
    && !s.w.receiver.Handling? && !s.w.receiver.Acting?
  }

  /** A timer does not expire before it is due. */
  predicate TooEarly(s: Timed, a: Action) {
    a.TimerStep? && a.expired && a.timer < |s.due| && s.now < s.due[a.timer]
  }

  function DeadlineOf(a: Action, now: nat): seq<nat> {
    match a
    case ReceiverStep(Some(Got(TerminateEvent(t)))) => if t.force then [now + Termination.Grace(t)] else []
    case _ => []
  }

  function DueOf(w: World, w': World, now: nat): seq<nat> {
    if |w'.timers| > |w.timers| && Last(w'.timers).Armed? then [now + Last(w'.timers).grace] else []
  }

  /** The world has stepped from s.w to w' by a. */
  function Stamped(s: Timed, a: Action, w': World): Timed {
    Timed(w', s.now, s.due + DueOf(s.w, w', s.now), s.kills + (if w'.p.kills > s.w.p.kills then [s.now] else []),
          s.deadlines + DeadlineOf(a, s.now))
  }

  function TimedStep(s: Timed, a: TimedAction): Option<Timed> {
    match a
    case Tick => if MayTick(s) then Some(s.(now := s.now + 1)) else None
    case Do(a) =>
      if TooEarly(s, a) then None
      else match Step(s.w, a)
        case None => None
        case Some(w') => Some(Stamped(s, a, w'))
  }

  /** A step arms at most one timer, and that one last. */
  lemma OneMoreTimer(w: World, a: Action)
    requires Step(w, a).Some?
    ensures var w' := Step(w, a).value;
      |w'.timers| == |w.timers| || (|w'.timers| == |w.timers| + 1 && Last(w'.timers).Armed?)
  {
    if a.MainStep? {
      MainLeavesTimers(w, a.answer);
    } else if a.ReceiverStep? {
      assert ReceiverNext(w, a.got).value.timers != w.timers ==> w.receiver.Acting?;
    }
  }

  /** Every timer has its due time, in every run. */
  lemma {:induction false} TimersHaveDueTimes(s: Timed, labels: seq<TimedAction>)
    requires |s.due| == |s.w.timers| && Run(TimedStep, s, labels).Some?
    ensures var s' := Run(TimedStep, s, labels).value; |s'.due| == |s'.w.timers|
    decreases |labels|
  {
    if labels != [] {
      if labels[0].Do? {
        OneMoreTimer(s.w, labels[0].a);
      }
      TimersHaveDueTimes(TimedStep(s, labels[0]).value, labels[1..]);
    }
  }

  /** In no run is the clock held up for ever: what it waits for can step. */
  lemma ClockMovesOn(labels: seq<TimedAction>) returns (a: TimedAction)
    requires Run(TimedStep, START, labels).Some?
    ensures TimedStep(Run(TimedStep, START, labels).value, a).Some?
    ensures a.Tick? || a.a.TimerStep? || a.a == ReceiverStep(None)
  {
    var s := Run(TimedStep, START, labels).value;
    TimersHaveDueTimes(START, labels);
    if MayTick(s) {
      a := Tick;
    } else if s.w.receiver.Handling? || s.w.receiver.Acting? {
      a := Do(ReceiverStep(None));
    } else {
      var k :| 0 <= k < |s.w.timers| && Pending(s, k) && s.due[k] <= s.now;
      a := Do(TimerStep(k, s.w.timers[k].Armed?));
    }
  }

  /** The command is killed for no other reason: no violation, broken stream, disconnect or failed Send. */
  predicate Calm(a: TimedAction) {
    a.Do? && Provokes(a.a) ==> DeadlineOf(a.a, 0) != []
  }

  // -- What every step keeps while the command runs --

  predicate NobodyElseKills(w: World) {
    && !w.main.AbortKilling? && !w.main.AbortWaiting? && !w.main.DrainKilling? && !w.main.DrainWaiting?
    && !w.receiver.StreamBroken? && !w.receiver.BrokenKilling? && !w.receiver.ViolationKilling? && !w.receiver.Reporting?
    && !w.watcher.DisconnectKilling?
  }

  predicate TimersOk(s: Timed) {
    && |s.due| == |s.w.timers|
    && forall k :: 0 <= k < |s.w.timers| && Pending(s, k) ==>
         && s.now <= s.due[k] && s.due[k] in s.deadlines
         && (s.w.timers[k].TimerKilling? ==> s.due[k] == s.now)
  }

  predicate EventOk(s: Timed) {
    (s.w.receiver.Handling? || s.w.receiver.Acting?) && s.w.receiver.t.force ==> s.now + Termination.Grace(s.w.receiver.t) in s.deadlines
  }

  /** Somebody is going to kill at this time. */
  predicate Awaited(s: Timed, time: nat) {
    && s.now <= time
    && ((exists k :: 0 <= k < |s.w.timers| && Pending(s, k) && s.due[k] == time)
        || ((s.w.receiver.Handling? || s.w.receiver.Acting?) && s.w.receiver.t.force && s.now + Termination.Grace(s.w.receiver.t) == time))
  }

  predicate KillsOk(s: Timed) {
    && |s.kills| == s.w.p.kills
    && (s.kills == [] ==> forall time :: time in s.deadlines ==> Awaited(s, time))
    && (s.kills != [] ==> s.kills[0] in s.deadlines && s.kills[0] <= s.now && forall time :: time in s.deadlines ==> s.kills[0] <= time)
  }

  predicate Punctual(s: Timed) {
    NobodyElseKills(s.w) && TimersOk(s) && EventOk(s) && KillsOk(s)
  }

  lemma TickKeepsPunctual(s: Timed)
    requires Punctual(s) && MayTick(s)
    ensures Punctual(s.(now := s.now + 1))
  {
    var s' := s.(now := s.now + 1);
    forall k | 0 <= k < |s'.w.timers| && Pending(s', k) ensures s'.now <= s'.due[k] && s.due[k] in s.deadlines && !s.w.timers[k].TimerKilling? {
      assert Pending(s, k);
    }
    forall time | time in s.deadlines && s.kills == [] ensures Awaited(s', time) {
      assert Awaited(s, time);
      var k :| 0 <= k < |s.w.timers| && Pending(s, k) && s.due[k] == time;
      assert Pending(s', k);
    }
  }

  /** A step that handles no event and moves no timer. */
  lemma QuietStepKeepsPunctual(s: Timed, a: Action, w': World)
    requires Punctual(s) && DeadlineOf(a, s.now) == [] && NobodyElseKills(w')
    requires w'.timers == s.w.timers && w'.p.kills == s.w.p.kills
    requires w'.receiver == s.w.receiver
          || (!(s.w.receiver.Handling? || s.w.receiver.Acting?) && (w'.receiver.Handling? ==> !w'.receiver.t.force) && !w'.receiver.Acting?)
    ensures Punctual(Stamped(s, a, w'))
  {
    var s' := Stamped(s, a, w');
    assert s' == s.(w := w');
    forall k | 0 <= k < |s.w.timers| ensures Pending(s', k) <==> Pending(s, k) {}
    forall time | time in s.deadlines && s.kills == [] ensures Awaited(s', time) {
      assert Awaited(s, time);
    }
  }

  lemma ForceKeepsPunctual(s: Timed, t: Terminate, w': World)
    requires Punctual(s) && t.force && s.w.receiver.InRecv?
    requires w' == Dispatch(s.w, Got(TerminateEvent(t)))
    ensures Punctual(Stamped(s, ReceiverStep(Some(Got(TerminateEvent(t)))), w'))
  {
    var s' := Stamped(s, ReceiverStep(Some(Got(TerminateEvent(t)))), w');
    forall k | 0 <= k < |s.w.timers| ensures Pending(s', k) <==> Pending(s, k) {}
    forall time | time in s'.deadlines && s.kills == [] ensures Awaited(s', time) {
      if time in s.deadlines {
        assert Awaited(s, time);
      }
    }
  }

  lemma HandlingKeepsPunctual(s: Timed, t: Terminate, w': World)
    requires Punctual(s) && s.w.receiver == Handling(t) && w' == s.w.(receiver := Acting(t))
    ensures Punctual(Stamped(s, ReceiverStep(None), w'))
  {
    var s' := Stamped(s, ReceiverStep(None), w');
    assert s' == s.(w := w');
    forall k | 0 <= k < |s.w.timers| ensures Pending(s', k) <==> Pending(s, k) {}
    forall time | time in s.deadlines && s.kills == [] ensures Awaited(s', time) {
      assert Awaited(s, time);
    }
  }

  lemma ArmingKeepsPunctual(s: Timed, t: Terminate)
    requires Punctual(s) && s.w.receiver == Acting(t) && ReactionTo(t).TermThenKill?
    ensures Punctual(Stamped(s, ReceiverStep(None), Act(s.w, t)))
  {
    var s' := Stamped(s, ReceiverStep(None), Act(s.w, t));
    var n := |s.w.timers|;
    assert s'.due == s.due + [s.now + Termination.Grace(t)] && Pending(s', n);
    forall k | 0 <= k < n ensures Pending(s', k) <==> Pending(s, k) {}
    forall time | time in s.deadlines && s.kills == [] ensures Awaited(s', time) {
      assert Awaited(s, time);
      if k :| 0 <= k < n && Pending(s, k) && s.due[k] == time {
        assert Pending(s', k) && s'.due[k] == time;
      }
    }
  }

  lemma KillNowKeepsPunctual(s: Timed, t: Terminate)
    requires Punctual(s) && s.w.receiver == Acting(t) && !ReactionTo(t).TermThenKill?
    ensures Punctual(Stamped(s, ReceiverStep(None), Act(s.w, t)))
  {
    var s' := Stamped(s, ReceiverStep(None), Act(s.w, t));
    forall k | 0 <= k < |s.w.timers| ensures Pending(s', k) <==> Pending(s, k) {}
    forall time | time in s.deadlines && s.kills == [] ensures s.now <= time && (s'.kills == [] ==> Awaited(s', time)) {
      assert Awaited(s, time);
    }
  }

  lemma TimerKeepsPunctual(s: Timed, k: nat, expired: bool)
    requires Punctual(s) && k < |s.w.timers| && !TooEarly(s, TimerStep(k, expired)) && !s.w.c.procDone
    requires TimerNext(s.w, k, expired).Some?
    ensures Punctual(Stamped(s, TimerStep(k, expired), TimerNext(s.w, k, expired).value))
  {
    var s' := Stamped(s, TimerStep(k, expired), TimerNext(s.w, k, expired).value);
    assert Pending(s, k);
    forall i | 0 <= i < |s.w.timers| && Pending(s', i) ensures Pending(s, i) {}
    forall time | time in s.deadlines && s.kills == [] ensures s.now <= time && (s'.kills == [] ==> Awaited(s', time)) {
      assert Awaited(s, time);
      if i :| 0 <= i < |s.w.timers| && Pending(s, i) && s.due[i] == time {
        assert s'.kills == [] ==> Pending(s', i);
      }
    }
  }

  lemma ReceiverKeepsPunctual(s: Timed, got: Option<Received>)
    requires Punctual(s) && Calm(Do(ReceiverStep(got))) && !s.w.c.procDone && ReceiverNext(s.w, got).Some?
    ensures Punctual(Stamped(s, ReceiverStep(got), ReceiverNext(s.w, got).value))
  {
    var w' := ReceiverNext(s.w, got).value;
    match s.w.receiver
    case Handling(t) => HandlingKeepsPunctual(s, t, w');
    case Acting(t) => if ReactionTo(t).TermThenKill? { ArmingKeepsPunctual(s, t); } else { KillNowKeepsPunctual(s, t); }
    case InRecv =>
      if got.value.Got? && got.value.e.TerminateEvent? && got.value.e.t.force {
        ForceKeepsPunctual(s, got.value.e.t, w');
      } else {
        QuietStepKeepsPunctual(s, ReceiverStep(got), w');
      }
    case _ =>
  }

  /** While the command runs, the main goroutine, the waiter, the watcher and the command itself send no signal. */
  lemma OtherStepIsQuiet(w: World, a: Action)
    requires Control(w) && NobodyElseKills(w) && w.p.exited.None? && !Provokes(a)
    requires !a.ReceiverStep? && !a.TimerStep? && Step(w, a).Some?
    ensures var w' := Step(w, a).value;
      && NobodyElseKills(w') && w'.timers == w.timers && w'.p.kills == w.p.kills
      && (w'.receiver == w.receiver || (w.receiver.ReceiverUnborn? && w'.receiver.InRecv?))
  {
  }

  lemma StepKeepsPunctual(s: Timed, a: TimedAction)
    requires Control(s.w) && s.w.p.exited.None? && Punctual(s) && Calm(a) && TimedStep(s, a).Some?
    ensures Punctual(TimedStep(s, a).value)
  {
    match a
    case Tick => TickKeepsPunctual(s);
    case Do(a) =>
      if a.ReceiverStep? {
        ReceiverKeepsPunctual(s, a.got);
      } else if a.TimerStep? {
        TimerKeepsPunctual(s, a.timer, a.expired);
      } else {
        OtherStepIsQuiet(s.w, a);
        QuietStepKeepsPunctual(s, a, Step(s.w, a).value);
      }
  }

  // -- Whole runs --

  lemma {:induction false} RunKeepsPunctual(s: Timed, labels: seq<TimedAction>)
    requires Control(s.w) && (s.w.p.exited.None? ==> Punctual(s))
    requires Run(TimedStep, s, labels).Some? && forall a :: a in labels ==> Calm(a)
    ensures var s' := Run(TimedStep, s, labels).value; s'.w.p.exited.None? ==> Punctual(s')
    decreases |labels|
  {
    if labels != [] {
      assert labels[0] in labels;
      if labels[0].Do? {
        StepKeepsControl(s.w, labels[0].a);
        StepLater(s.w, labels[0].a);
      }
      if s.w.p.exited.None? {
        StepKeepsPunctual(s, labels[0]);
      }
      RunKeepsPunctual(TimedStep(s, labels[0]).value, labels[1..]);
    }
  }

  /**
   * In every run of all the goroutines, while the command runs: the first SIGKILL is sent at the earliest of the
   * deadlines, and has been sent when the clock is past it.
   */
  lemma FirstKillOnTime(labels: seq<TimedAction>)
    requires Run(TimedStep, START, labels).Some? && forall a :: a in labels ==> Calm(a)
    requires Run(TimedStep, START, labels).value.w.p.exited.None?
    ensures var s := Run(TimedStep, START, labels).value;
      && |s.kills| == s.w.p.kills
      && (s.kills != [] ==> s.kills[0] in s.deadlines && s.kills[0] <= s.now && forall time :: time in s.deadlines ==> s.kills[0] <= time)
      && (forall time :: time in s.deadlines && time < s.now ==> s.kills != [])
  {
    RunKeepsPunctual(START, labels);
    var s := Run(TimedStep, START, labels).value;
    forall time | time in s.deadlines && time < s.now ensures s.kills != [] {
      assert s.kills == [] ==> Awaited(s, time);
    }
  }
}
