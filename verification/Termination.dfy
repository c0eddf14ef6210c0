/**
 * TerminateCommand and its grace timers on a running, connected command whose timers fire promptly. One tick is
 * one nanosecond; a timer is the time at which it is due.
 */
module Termination {
  import opened Prelude
  import opened ExecTypes
  import opened ExecServer

  datatype Input = Receive(t: Terminate) | Tick | Exit

  /** kills, terms: when SIGKILL and SIGTERM were sent. done: the command has exited and procDone is closed. */
  datatype Clockwork = Clockwork(now: nat, timers: seq<nat>, kills: seq<nat>, terms: seq<nat>, done: bool)

  const ZERO := Clockwork(0, [], [], [], false)

  /** The timers due at a given time, and the others. */
  function Due(timers: seq<nat>, now: nat): seq<nat> {
    if timers == [] then []
    else Due(timers[..|timers| - 1], now) + if Last(timers) <= now then [now] else []
  }

  function NotDue(timers: seq<nat>, now: nat): seq<nat> {
    if timers == [] then []
    else NotDue(timers[..|timers| - 1], now) + if Last(timers) <= now then [] else [Last(timers)]
  }

  /** Lines 130-148 for a received event; a tick lets the due timers kill; an exit stops them all. */
  function StepOn(s: Clockwork, input: Input): Clockwork {
    match input
    case Receive(t) =>
      if s.done then s else
      (match ReactionTo(t)
       case TermOnly => s.(terms := s.terms + [s.now])
       case TermThenKill(grace) => s.(terms := s.terms + [s.now], timers := s.timers + [s.now + grace])
       case KillNow => s.(kills := s.kills + [s.now]))
    case Tick =>
      s.(now := s.now + 1, kills := s.kills + Due(s.timers, s.now + 1), timers := NotDue(s.timers, s.now + 1))
    case Exit => s.(done := true, timers := [])
  }

  function Execute(inputs: seq<Input>): Clockwork {
    if inputs == [] then ZERO else StepOn(Execute(inputs[..|inputs| - 1]), Last(inputs))
  }

  /** The receiver of the interleaved model answers a running command's event as the clockwork does. */
  lemma ActIsStepOn(w: World, t: Terminate, s: Clockwork)
    requires !s.done
    ensures var w', s' := Act(w, t), StepOn(s, Receive(t));
      && w'.p.kills - w.p.kills == |s'.kills| - |s.kills|
      && w'.p.terms - w.p.terms == |s'.terms| - |s.terms|
      && (forall time :: time in s'.kills[|s.kills|..] + s'.terms[|s.terms|..] ==> time == s.now)
      && |w'.timers| - |w.timers| == |s'.timers| - |s.timers| <= 1
      && (|w'.timers| > |w.timers| ==>
          && w'.timers[..|w.timers|] == w.timers && s'.timers[..|s.timers|] == s.timers
          && Last(w'.timers).Armed? && Last(s'.timers) == s.now + Last(w'.timers).grace)
  {
  }

  /** A timer that expires sends one SIGKILL and is over. */
  lemma ExpiryKillsOnce(w: World, k: nat) returns (expired: World)
    requires k < |w.timers| && w.timers[k].Armed?
    ensures Step(w, TimerStep(k, true)) == Some(expired)
    ensures Step(expired, TimerStep(k, false)) == Some(Killed(w).(timers := w.timers[k := TimerDone]))
  {
    expired := w.(timers := w.timers[k := TimerKilling]);
    assert expired.timers[k := TimerDone] == w.timers[k := TimerDone];
  }

  // -- The one deadline the timers stand for --

  predicate Forced(inputs: seq<Input>, i: nat) {
    i < |inputs| && inputs[i].Receive? && inputs[i].t.force
  }

  function Ticks(inputs: seq<Input>): nat {
    if inputs == [] then 0 else Ticks(inputs[..|inputs| - 1]) + if Last(inputs).Tick? then 1 else 0
  }

  function Grace(t: Terminate): nat {
    if t.gracePeriod.Some? && t.gracePeriod.value > 0 then t.gracePeriod.value else 0
  }

  /** The time a force event was received, plus its grace period. */
  function DueAt(inputs: seq<Input>, i: nat): nat
    requires Forced(inputs, i)
  {
    Ticks(inputs[..i]) + Grace(inputs[i].t)
  }

  predicate Running(inputs: seq<Input>) {
    forall i :: 0 <= i < |inputs| ==> !inputs[i].Exit?
  }

  lemma {:induction false} DueMembers(timers: seq<nat>, now: nat)
    ensures forall d :: d in NotDue(timers, now) <==> d in timers && d > now
    ensures forall d :: d in Due(timers, now) ==> d == now
    ensures Due(timers, now) != [] <==> exists d :: d in timers && d <= now
    decreases |timers|
  {
    if timers != [] {
      var front := timers[..|timers| - 1];
      DueMembers(front, now);
      assert timers == front + [Last(timers)];
      if Due(front, now) != [] {
        var d :| d in front && d <= now;
        assert d in timers;
      }
      if Last(timers) <= now {
        assert Last(timers) in timers;
      }
    }
  }

  /** Some force event is due at that time. */
  ghost predicate Deadline(inputs: seq<Input>, time: nat) {
    exists i :: Forced(inputs, i) && DueAt(inputs, i) == time
  }

  /** The timers and the kills agree with the force events received so far. */
  ghost predicate Faithful(inputs: seq<Input>, s: Clockwork) {
    && s.now == Ticks(inputs) && !s.done
    && (forall d :: d in s.timers ==> d > s.now && Deadline(inputs, d))
    && (forall i :: Forced(inputs, i) ==>
         if DueAt(inputs, i) > s.now then DueAt(inputs, i) in s.timers else s.kills != [] && s.kills[0] <= DueAt(inputs, i))
    && (s.kills != [] ==> s.kills[0] <= s.now && Deadline(inputs, s.kills[0]))
  }

  lemma EarlierDue(inputs: seq<Input>, input: Input, i: nat)
    requires Forced(inputs, i)
    ensures Forced(inputs + [input], i) && DueAt(inputs + [input], i) == DueAt(inputs, i)
  {
    assert (inputs + [input])[..i] == inputs[..i];
  }

  lemma ReceiveKeepsFaithful(inputs: seq<Input>, s: Clockwork, t: Terminate)
    requires Faithful(inputs, s)
    ensures Faithful(inputs + [Receive(t)], StepOn(s, Receive(t)))
  {
    var inputs' := inputs + [Receive(t)];
    var s' := StepOn(s, Receive(t));
    var last := |inputs|;
    assert inputs'[..last] == inputs;
    assert Ticks(inputs') == Ticks(inputs);
    forall i: nat | Forced(inputs, i) ensures Forced(inputs', i) && DueAt(inputs', i) == DueAt(inputs, i) {
      EarlierDue(inputs, Receive(t), i);
    }
    forall d: nat | Deadline(inputs, d) ensures Deadline(inputs', d) {
      var i :| Forced(inputs, i) && DueAt(inputs, i) == d;
      assert Forced(inputs', i);
    }
    forall i: nat | Forced(inputs', i)
      ensures if DueAt(inputs', i) > s'.now then DueAt(inputs', i) in s'.timers else s'.kills != [] && s'.kills[0] <= DueAt(inputs', i)
    {
      if i < last {
        assert Forced(inputs, i);
      }
    }
    assert t.force ==> Forced(inputs', last) && DueAt(inputs', last) == s.now + Grace(t) && Deadline(inputs', s.now + Grace(t));
  }

  lemma TickKeepsFaithful(inputs: seq<Input>, s: Clockwork)
    requires Faithful(inputs, s)
    ensures Faithful(inputs + [Tick], StepOn(s, Tick))
  {
    var inputs' := inputs + [Tick];
    var s' := StepOn(s, Tick);
    assert inputs'[..|inputs|] == inputs;
    DueMembers(s.timers, s'.now);
    forall i: nat | Forced(inputs, i) ensures Forced(inputs', i) && DueAt(inputs', i) == DueAt(inputs, i) {
      EarlierDue(inputs, Tick, i);
    }
    forall d: nat | Deadline(inputs, d) ensures Deadline(inputs', d) {
      var i :| Forced(inputs, i) && DueAt(inputs, i) == d;
      assert Forced(inputs', i);
    }
    forall i: nat | Forced(inputs', i)
      ensures if DueAt(inputs', i) > s'.now then DueAt(inputs', i) in s'.timers else s'.kills != [] && s'.kills[0] <= DueAt(inputs', i)
    {
      assert Forced(inputs, i);
      if DueAt(inputs, i) == s'.now {
        assert DueAt(inputs, i) in s.timers;
        assert Due(s.timers, s'.now)[0] in Due(s.timers, s'.now);
      }
    }
    if s.kills == [] && s'.kills != [] {
      assert s'.kills[0] in Due(s.timers, s'.now);
      var d :| d in s.timers && d <= s'.now;
      assert d == s'.now;
    }
  }

  lemma {:induction false} ExecuteFaithful(inputs: seq<Input>)
    requires Running(inputs)
    ensures Faithful(inputs, Execute(inputs))
    decreases |inputs|
  {
    if inputs != [] {
      var front := inputs[..|inputs| - 1];
      ExecuteFaithful(front);
      assert inputs == front + [Last(inputs)];
      match Last(inputs)
      case Receive(t) => ReceiveKeepsFaithful(front, Execute(front), t);
      case Tick => TickKeepsFaithful(front, Execute(front));
    }
  }

  /**
   * While the command runs, SIGKILL has been sent exactly if some force event's deadline has passed, and it was
   * first sent at the earliest of the deadlines.
   */
  lemma FirstKillAtEarliestDeadline(inputs: seq<Input>)
    requires Running(inputs)
    ensures var s := Execute(inputs);
      && (s.kills != [] <==> exists time: nat :: Deadline(inputs, time) && time <= Ticks(inputs))
      && (s.kills != [] ==> Deadline(inputs, s.kills[0]) && forall time: nat :: Deadline(inputs, time) ==> s.kills[0] <= time)
  {
    ExecuteFaithful(inputs);
    var s := Execute(inputs);
    forall time: nat | Deadline(inputs, time) ensures time <= s.now ==> s.kills != []
      ensures s.kills != [] ==> s.kills[0] <= time
    {
      var i :| Forced(inputs, i) && DueAt(inputs, i) == time;
    }
  }

  /** No later event postpones a deadline: it is kept at the latest, whatever else arrives. */
  lemma DeadlineNeverPostponed(inputs: seq<Input>, more: seq<Input>, i: nat)
    requires Running(inputs + more) && Forced(inputs, i) && DueAt(inputs, i) <= Ticks(inputs + more)
    ensures Execute(inputs + more).kills != [] && Execute(inputs + more).kills[0] <= DueAt(inputs, i)
  {
    assert (inputs + more)[..i] == inputs[..i];
    assert Forced(inputs + more, i) && DueAt(inputs + more, i) == DueAt(inputs, i);
    assert Deadline(inputs + more, DueAt(inputs, i));
    FirstKillAtEarliestDeadline(inputs + more);
  }

  /** The exit of the command settles it: no timer and no later event sends SIGKILL any more. */
  lemma {:induction false} NoKillAfterExit(inputs: seq<Input>, more: seq<Input>)
    ensures var s := Execute(inputs + [Exit] + more);
      s.done && s.timers == [] && s.kills == Execute(inputs).kills && s.terms == Execute(inputs).terms
    decreases |more|
  {
    var all := inputs + [Exit] + more;
    if more == [] {
      assert all == inputs + [Exit] && all[..|all| - 1] == inputs;
    } else {
      assert all[..|all| - 1] == inputs + [Exit] + more[..|more| - 1];
      NoKillAfterExit(inputs, more[..|more| - 1]);
    }
  }

  /** An event that is answered with SIGTERM: one without force, or one that leaves a grace period. */
  predicate Polite(inputs: seq<Input>, i: nat) {
    i < |inputs| && inputs[i].Receive? && (!inputs[i].t.force || Grace(inputs[i].t) > 0)
  }

  ghost predicate PoliteAt(inputs: seq<Input>, time: nat) {
    exists i: nat :: Polite(inputs, i) && Ticks(inputs[..i]) == time
  }

  lemma PoliteAtSnoc(inputs: seq<Input>, input: Input, time: nat)
    ensures PoliteAt(inputs + [input], time)
       <==> PoliteAt(inputs, time) || (input.Receive? && !ReactionTo(input.t).KillNow? && Ticks(inputs) == time)
  {
    var all := inputs + [input];
    assert all[..|inputs|] == inputs;
    forall i: nat | i < |inputs| ensures all[..i] == inputs[..i] && (Polite(all, i) <==> Polite(inputs, i)) {}
    if PoliteAt(inputs, time) {
      var i: nat :| Polite(inputs, i) && Ticks(inputs[..i]) == time;
      assert Polite(all, i);
    }
    assert Polite(all, |inputs|) <==> input.Receive? && !ReactionTo(input.t).KillNow?;
  }

  /** SIGTERM is sent exactly when such an event is received. */
  lemma {:induction false} SigTermOnReceipt(inputs: seq<Input>, time: nat)
    requires Running(inputs)
    ensures time in Execute(inputs).terms <==> PoliteAt(inputs, time)
    decreases |inputs|
  {
    if inputs != [] {
      var front := inputs[..|inputs| - 1];
      assert inputs == front + [Last(inputs)];
      ExecuteFaithful(front);
      SigTermOnReceipt(front, time);
      PoliteAtSnoc(front, Last(inputs), time);
    }
  }

  /** The inputs without the events that do not force. */
  function OnlyForce(inputs: seq<Input>): seq<Input> {
    if inputs == [] then []
    else OnlyForce(inputs[..|inputs| - 1]) + if Last(inputs).Receive? && !Last(inputs).t.force then [] else [Last(inputs)]
  }

  /** An event without force has no part in any SIGKILL; it only adds a SIGTERM. */
  lemma {:induction false} SoftEventsNeverKill(inputs: seq<Input>)
    ensures var s, f := Execute(inputs), Execute(OnlyForce(inputs));
      f == s.(terms := f.terms) && |f.terms| <= |s.terms|
    decreases |inputs|
  {
    if inputs != [] {
      var front := inputs[..|inputs| - 1];
      SoftEventsNeverKill(front);
      if Last(inputs).Receive? && !Last(inputs).t.force {
        assert OnlyForce(inputs) == OnlyForce(front);
      } else {
        assert OnlyForce(inputs) == OnlyForce(front) + [Last(inputs)];
        assert OnlyForce(inputs)[..|OnlyForce(inputs)| - 1] == OnlyForce(front);
        assert Execute(OnlyForce(inputs)) == StepOn(Execute(OnlyForce(front)), Last(inputs));
      }
    }
  }
}
