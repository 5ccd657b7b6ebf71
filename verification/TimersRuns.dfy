/** What holds after every run of the timer daemon. */
module TimersRuns {
  import opened Machine
  import opened ListModel
  import opened Timers
  import opened TimersKept

  predicate Legal(d: Daemon, steps: seq<Step>)
    decreases |steps|
  {
    steps == [] || (Enabled(d, steps[0]) && Legal(Apply(d, steps[0]), steps[1..]))
  }

  function Exec(d: Daemon, steps: seq<Step>): Daemon
    requires Legal(d, steps)
    decreases |steps|
  {
    if steps == [] then d else Exec(Apply(d, steps[0]), steps[1..])
  }

  lemma {:induction false} RunKept(d: Daemon, steps: seq<Step>)
    requires Inv(d) && Legal(d, steps)
    ensures Inv(Exec(d, steps))
    decreases |steps|
  {
    hide Inv, Apply;
    if steps != [] {
      StepKept(d, steps[0]);
      RunKept(Apply(d, steps[0]), steps[1..]);
    }
  }

  /** The daemon as it starts: timers created, none started, no command sent. */
  predicate Created(d: Daemon) {
    && d.current == [] && d.overflow == [] && d.queue == [] && d.place.Top? && d.tracked == map[]
    && d.seen == 0 && d.last == 0 && (forall t <- d.timers :: d.timers[t].period > 0)
  }

  /** Never early: at any time of any run, a followed timer's callback has run for no boundary that is
      still to come. */
  lemma NeverEarly(d: Daemon, steps: seq<Step>, t: Id)
    requires Created(d) && Legal(d, steps) && t in Exec(d, steps).tracked
    ensures var e := Exec(d, steps); var k := e.tracked[t];
      k.start + k.calls * Period(e.timers, t) <= e.now && t in e.timers && e.timers[t].auto
  {
    RunKept(d, steps);
    NotEarly(Exec(d, steps), t);
  }

  lemma NotEarly(e: Daemon, t: Id)
    requires Inv(e) && t in e.tracked
    ensures var k := e.tracked[t]; k.start + k.calls * Period(e.timers, t) <= e.now && t in e.timers && e.timers[t].auto
  {
    assert InPhase(e, t);
    hide Placed;
    OneLess(e.tracked[t].calls, Period(e.timers, t));
  }

  lemma OneLess(calls: nat, p: int)
    ensures (calls + 1) * p == calls * p + p
  {
  }

  /** The daemon has emptied its queue and blocks. */
  predicate AtRest(d: Daemon) { Blocks(d) && d.queue == [] && Frequent(d) }

  predicate Running(d: Daemon, t: Id) { t in d.current || t in d.overflow }

  /** The boundaries up to `calls`, and no others, are past. */
  predicate OnTime(k: Track, p: nat, now: nat) { k.start + k.calls * p <= now < k.start + (k.calls + 1) * p }

  /** Exactly once for every boundary: when the daemon has emptied its queue and blocks, the callback of
      every auto-reload timer that runs has run for all of start + period, start + 2 * period and so on
      that are not in the future, and for no others; however late the daemon has been, however often the
      tick count has wrapped, and whatever commands have been sent before. */
  lemma OnSchedule(d: Daemon, steps: seq<Step>, t: Id)
    requires Created(d) && Legal(d, steps)
    requires var e := Exec(d, steps); AtRest(e) && Running(e, t) && Auto(e.timers, t)
    ensures var e := Exec(d, steps); t in e.tracked && OnTime(e.tracked[t], Period(e.timers, t), e.now)
  {
    RunKept(d, steps);
    InTimeAtRest(Exec(d, steps), t);
  }

  lemma InTimeAtRest(e: Daemon, t: Id)
    requires Inv(e) && AtRest(e) && Running(e, t) && Auto(e.timers, t)
    ensures t in e.tracked && OnTime(e.tracked[t], Period(e.timers, t), e.now)
  {
    assert Complete(e, t);
    NotEarly(e, t);
    NextToCome(e, t);
    assert InPhase(e, t);
  }

  /** The time that `start` is stays what it was, until a user sends a command on the timer. */
  lemma {:induction false} StartStays(d: Daemon, steps: seq<Step>, t: Id)
    requires Inv(d) && Legal(d, steps) && t in d.tracked
    requires forall step <- steps :: step.User? ==> step.cmd.t != t
    ensures t in Exec(d, steps).tracked && Exec(d, steps).tracked[t].start == d.tracked[t].start
    decreases |steps|
  {
    hide Inv, Apply;
    if steps != [] {
      StepKept(d, steps[0]);
      assert steps[0] in steps && forall step :: step in steps[1..] ==> step in steps;
      StartStep(d, steps[0], t);
      StartStays(Apply(d, steps[0]), steps[1..], t);
    }
  }

  lemma StartStep(d: Daemon, step: Step, t: Id)
    requires Enabled(d, step) && t in d.tracked && (step.User? ==> step.cmd.t != t)
    ensures t in Apply(d, step).tracked && Apply(d, step).tracked[t].start == d.tracked[t].start
  {
    hide Judge, Inserted, Low, Without, CmdsOn, SetValue;
  }

  /** A timer not at the head expires no earlier than the head. */
  lemma HeadFirst(d: Daemon, t: Id)
    requires Lists(d) && t in d.current
    ensures Value(d.timers, d.current[0]) <= Value(d.timers, t)
  {
    var i :| 0 <= i < |d.current| && d.current[i] == t;
  }

  lemma NextToCome(d: Daemon, t: Id)
    requires Inv(d) && AtRest(d) && Running(d, t)
    ensures var due := DueAt(d.timers, t);
      && due > d.now && (t in d.tracked ==> due == d.tracked[t].next)
      && (t in d.current ==> due - d.now == Value(d.timers, t) - Low(d.now))
      && (t !in d.current ==> due / WORD == d.now / WORD + 1)
  {
    if t in d.tracked { InListOnly(d, t); }
    Epochs(d);
    Split(d.now);
    Split(DueAt(d.timers, t));
    if t in d.current { HeadFirst(d, t); }
    hide Lists, Phases;
  }

  /** Nor is any timer overdue, one-shot timers included; the daemon blocks no longer than to the next
      due time, and exactly to that of the timer that heads the list. */
  lemma SleepsToNext(d: Daemon, steps: seq<Step>, t: Id)
    requires Created(d) && Legal(d, steps)
    requires var e := Exec(d, steps); AtRest(e) && Running(e, t)
    ensures var e := Exec(d, steps); var due := DueAt(e.timers, t);
      && e.now < due && e.now + BlockTicks(e) <= due
      && (e.current != [] && e.current[0] == t ==> e.now + BlockTicks(e) == due)
      && (t in e.tracked ==> due == e.tracked[t].next)
  {
    RunKept(d, steps);
    var e := Exec(d, steps);
    hide Legal, Exec;
    NextToCome(e, t);
    Split(e.now);
    Split(DueAt(e.timers, t));
    if t in e.current { HeadFirst(e, t); }
    hide Inv;
  }

  /** With nothing in the current list it blocks until the tick count wraps, when the lists change places, and not a
      tick longer. */
  lemma SleepsToWrap(d: Daemon)
    requires Blocks(d) && d.current == []
    ensures Low(d.now + BlockTicks(d)) == 0 && BlockTicks(d) < WORD
  {
    Split(d.now);
    Added(d.now, BlockTicks(d));
  }

  // ---- Runs put together step by step ----

  ghost predicate Runs(d: Daemon, steps: seq<Step>, e: Daemon) { Legal(d, steps) && Exec(d, steps) == e }

  lemma Nothing(d: Daemon)
    ensures Runs(d, [], d)
  {
  }

  lemma RunsTo(d: Daemon, steps: seq<Step>, e: Daemon)
    requires Runs(d, steps, e)
    ensures Legal(d, steps) && Exec(d, steps) == e
  {
  }

  lemma {:induction false} RunsNext(d: Daemon, steps: seq<Step>, e: Daemon, step: Step)
    requires Runs(d, steps, e) && Enabled(e, step)
    ensures Runs(d, steps + [step], Apply(e, step))
    decreases |steps|
  {
    hide Apply, Enabled;
    var all := steps + [step];
    if steps == [] {
      assert all[0] == step && all[1..] == [] && d == e;
      Nothing(Apply(e, step));
    } else {
      assert all[0] == steps[0] && all[1..] == steps[1..] + [step];
      RunsNext(Apply(d, steps[0]), steps[1..], e, step);
    }
  }
}
