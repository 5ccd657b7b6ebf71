/** How often a timer's callback runs: as often as it is counted, and for a one-shot timer exactly once. */
module TimersOnce {
  import opened Machine
  import opened ListModel
  import opened Timers
  import opened TimersKept
  import opened TimersRuns
  import opened TimersEffects

  /** The callbacks of t that the run makes. */
  function Calls(d: Daemon, steps: seq<Step>, t: Id): nat
    requires Legal(d, steps)
    decreases |steps|
  {
    if steps == [] then 0 else (if Fires(d, steps[0], t) then 1 else 0) + Calls(Apply(d, steps[0]), steps[1..], t)
  }

  predicate NoCommand(steps: seq<Step>, t: Id) { forall step <- steps :: step.User? ==> step.cmd.t != t }

  /** The count that the schedule is about is the count of callbacks. */
  lemma {:induction false} CallsCounted(d: Daemon, steps: seq<Step>, t: Id)
    requires Inv(d) && Legal(d, steps) && t in d.tracked && NoCommand(steps, t)
    ensures var e := Exec(d, steps); t in e.tracked && e.tracked[t].calls == d.tracked[t].calls + Calls(d, steps, t)
    decreases |steps|
  {
    hide Inv, Apply, Enabled, Fires;
    if steps != [] {
      assert steps[0] in steps && forall step :: step in steps[1..] ==> step in steps;
      StepKept(d, steps[0]);
      StartStep(d, steps[0], t);
      StepExact(d, steps[0]);
      CallsCounted(Apply(d, steps[0]), steps[1..], t);
    }
  }

  // ---- one-shot timers ----

  /** No command on t is under way. */
  predicate LeftAlone(d: Daemon, t: Id) { CmdsOn(d.queue, t) == [] && !InHand(d, t) }

  lemma HandFrom(d: Daemon, step: Step, t: Id)
    requires Enabled(d, step) && LeftAlone(d, t)
    ensures !InHand(Apply(d, step), t)
  {
    hide Judge, Inserted, Low, SetValue, ListModel.Without, Counted, Followed, Add32, Value, DueAt, Period, Auto, Frequent, Timely;
  }

  lemma QueueStays(d: Daemon, step: Step, t: Id)
    requires Inv(d) && Enabled(d, step) && LeftAlone(d, t) && !Auto(d.timers, t) && (step.User? ==> step.cmd.t != t)
    ensures CmdsOn(Apply(d, step).queue, t) == []
  {
    hide Inv, Enabled, Apply, Auto;
    StepExact(d, step);
    var rest := if step.Receive? && d.queue != [] then d.queue[1..] else d.queue;
    assert CmdsOn(rest, t) == [];
    if Sends(d, step) != [] {
      CmdsAppend(rest, Sends(d, step)[0], t);
    } else {
      assert rest + [] == rest;
    }
  }

  lemma OneStep(d: Daemon, step: Step, t: Id)
    requires Inv(d) && Enabled(d, step) && LeftAlone(d, t) && !Auto(d.timers, t) && (step.User? ==> step.cmd.t != t)
    ensures var d' := Apply(d, step);
      && LeftAlone(d', t) && !Auto(d'.timers, t)
      && (Fires(d, step, t) ==> Running(d, t) && !Running(d', t))
      && (!Fires(d, step, t) ==> (Running(d', t) <==> Running(d, t)) && (Running(d, t) ==> DueAt(d'.timers, t) == DueAt(d.timers, t)))
  {
    hide Inv, Apply, Enabled, Auto, DueAt, Period, CmdsOn, InHand;
    StepExact(d, step);
    HandFrom(d, step, t);
    QueueStays(d, step, t);
    NotNext(d, step, t);
    assert Seen(Apply(d, step), t) == After(d, step, t, Seen(d, t));
  }

  lemma NotNext(d: Daemon, step: Step, t: Id)
    requires LeftAlone(d, t)
    ensures d.queue != [] ==> d.queue[0].t != t
    ensures d.place.Handling? ==> d.place.cmd.t != t
  {
  }

  /** A callback is never early. */
  lemma FiresLate(d: Daemon, step: Step, t: Id)
    requires Inv(d) && Enabled(d, step) && Fires(d, step, t) && LeftAlone(d, t)
    ensures DueAt(d.timers, t) <= d.now
  {
    NotNext(d, step, t);
    hide CmdsOn, InHand;
    if step.SwitchOne? {
      assert t in d.current && Period(d.timers, t) > 0;
      SwitchTimes(d, t);
    }
  }

  lemma {:induction false} Dead(d: Daemon, steps: seq<Step>, t: Id)
    requires Inv(d) && Legal(d, steps) && NoCommand(steps, t) && LeftAlone(d, t) && !Auto(d.timers, t) && !Running(d, t)
    ensures Calls(d, steps, t) == 0 && !Running(Exec(d, steps), t)
    decreases |steps|
  {
    hide Inv, Apply, Enabled, Fires, LeftAlone, Auto, Running;
    if steps != [] {
      assert steps[0] in steps && forall step :: step in steps[1..] ==> step in steps;
      StepKept(d, steps[0]);
      OneStep(d, steps[0], t);
      Dead(Apply(d, steps[0]), steps[1..], t);
    }
  }

  lemma {:induction false} AtMostOnce(d: Daemon, steps: seq<Step>, t: Id)
    requires Inv(d) && Legal(d, steps) && NoCommand(steps, t) && LeftAlone(d, t) && !Auto(d.timers, t) && Running(d, t)
    ensures var e, due := Exec(d, steps), DueAt(d.timers, t);
      && Inv(e) && Calls(d, steps, t) <= 1 && (Calls(d, steps, t) == 0 ==> Running(e, t) && DueAt(e.timers, t) == due)
      && (Calls(d, steps, t) == 1 ==> !Running(e, t) && due <= e.now)
    decreases |steps|
  {
    hide Inv, Apply, Enabled, Fires, LeftAlone, Auto, Running, DueAt;
    if steps != [] {
      var step, d' := steps[0], Apply(d, steps[0]);
      assert steps[0] in steps && forall step :: step in steps[1..] ==> step in steps;
      StepKept(d, step);
      OneStep(d, step, t);
      if Fires(d, step, t) {
        FiresLate(d, step, t);
        Dead(d', steps[1..], t);
        RunKept(d', steps[1..]);
        NeverBack(d, steps);
      } else {
        AtMostOnce(d', steps[1..], t);
      }
    }
  }

  lemma {:induction false} NeverBack(d: Daemon, steps: seq<Step>)
    requires Inv(d) && Legal(d, steps)
    ensures d.now <= Exec(d, steps).now
    decreases |steps|
  {
    hide Inv, Apply, Enabled;
    if steps != [] {
      StepKept(d, steps[0]);
      StepExact(d, steps[0]);
      NeverBack(Apply(d, steps[0]), steps[1..]);
    }
  }

  /** A one-shot timer that runs, and is sent no command, has its callback once and never early; after it the timer is
      in no list. Whenever the daemon rests, the callback has run if it was due by then, and only then. */
  lemma OneShotOnce(d: Daemon, steps: seq<Step>, t: Id)
    requires Inv(d) && Legal(d, steps) && NoCommand(steps, t) && LeftAlone(d, t) && !Auto(d.timers, t) && Running(d, t)
    ensures var e, due, n := Exec(d, steps), DueAt(d.timers, t), Calls(d, steps, t);
      && n <= 1 && (n == 1 ==> due <= e.now) && (Running(e, t) <==> n == 0)
      && (AtRest(e) ==> (n == 1 <==> due <= e.now))
  {
    hide Inv, Legal, Exec, Calls, LeftAlone, AtRest, DueAt, Running;
    AtMostOnce(d, steps, t);
    var e := Exec(d, steps);
    if AtRest(e) && Running(e, t) { NextToCome(e, t); }
  }
}
