/** The timer daemon with a command queue of limited length. A user whose command does not fit is told so; the daemon
    asserts that its own always do (timers.c:485, 766, 879), and if one does not, the timer it was for is lost. */
module TimersQueue {
  import opened Machine
  import opened ListModel
  import opened Timers
  import opened TimersKept
  import opened TimersRuns

  /** The daemon sends itself a start command in this step. */
  predicate Posts(d: Daemon, step: Step)
    requires Enabled(d, step)
  {
    !step.User? && |Apply(d, step).queue| > |d.queue|
  }

  /** The step when the queue has n places. */
  function Bounded(d: Daemon, step: Step, n: nat): Daemon
    requires Enabled(d, step)
  {
    if |d.queue| < n || (!step.User? && !Posts(d, step)) then Apply(d, step)
    else if step.User? then d
    else Apply(d, step).(queue := d.queue)
  }

  /** An assertion on the daemon's own command fails. */
  predicate Refuses(d: Daemon, step: Step, n: nat)
    requires Enabled(d, step)
  {
    Posts(d, step) && |d.queue| >= n
  }

  /** The timer of the command that the daemon sends itself. */
  function Subject(d: Daemon, step: Step): Id
    requires Enabled(d, step) && Posts(d, step)
  {
    Apply(d, step).queue[|d.queue|].t
  }

  /** And with it the timer is lost, since no command of a user on it is under way. */
  predicate Loses(d: Daemon, step: Step, n: nat)
    requires Enabled(d, step)
  {
    Refuses(d, step, n) && Subject(d, step) in Apply(d, step).tracked
  }

  // ---- Every step ----

  /** The daemon sends a start of a timer that is in no list. */
  ghost predicate Sends(d: Daemon, e: Daemon) {
    && |e.queue| == |d.queue| + 1 && e.queue[..|d.queue|] == d.queue && e.queue[|d.queue|].Start?
    && e.queue[|d.queue|].t !in e.current && e.queue[|d.queue|].t !in e.overflow
  }

  lemma PostShape(d: Daemon, step: Step)
    requires Inv(d) && Enabled(d, step) && Posts(d, step)
    ensures Sends(d, Apply(d, step))
  {
    assert Lists(d);
    hide Inv, Lists, Process, Reload, Handled, Sends;
    match step {
      case Look => LeftShape(Sampled(d, Commands), d.current[0]);
      case SwitchOne => LeftShape(d, d.current[0]);
      case Handle => HandledShape(d.(place := Commands), d.place.cmd, d.place.sample) by { InHandUnlisted(d); }
      case _ => assert false;
    }
  }

  lemma LeftShape(d: Daemon, t: Id)
    requires ListOk(d.timers, d.current) && t in d.current && t !in d.overflow
    ensures |Process(d, t).queue| > |d.queue| ==> Sends(d, Process(d, t))
    ensures |Reload(d, t).queue| > |d.queue| ==> Sends(d, Reload(d, t))
  {
    hide Judge, Inserted, Low, Counted, SetValue;
    WithoutItems(d.current, t);
    hide Without;
  }

  lemma HandledShape(d: Daemon, cmd: Cmd, sample: nat)
    requires cmd.t !in d.current && cmd.t !in d.overflow && |Handled(d, cmd, sample).queue| > |d.queue|
    ensures Sends(d, Handled(d, cmd, sample))
  {
    hide Judge, Inserted, Low, Counted, SetValue, Followed;
  }

  lemma InHandUnlisted(d: Daemon)
    requires Lists(d) && d.place.Handling?
    ensures d.place.cmd.t !in d.current && d.place.cmd.t !in d.overflow
  {
  }

  lemma Unsent(e: Daemon, e': Daemon, cmd: Cmd)
    requires Inv(e) && cmd.Start? && cmd.t !in e.current && cmd.t !in e.overflow
    requires e.queue == e'.queue + [cmd] && e' == e.(queue := e'.queue)
    ensures Inv(e') <==> cmd.t !in e.tracked
  {
    UnsentParts(e, e', cmd);
    hide TimesOk, Lists, Clocks;
    if cmd.t in e.tracked {
      CmdsAppend(e'.queue, cmd, cmd.t);
      assert InPhase(e, cmd.t);
      assert !InPhase(e', cmd.t);
    } else {
      forall t | t in e'.tracked ensures InPhase(e', t) {
        assert InPhase(e, t);
        CmdsAppend(e'.queue, cmd, t);
      }
      hide InPhase;
      forall t | t in e'.timers ensures Complete(e', t) {
        assert Complete(e, t);
        CmdsAppend(e'.queue, cmd, t);
      }
    }
  }

  lemma UnsentParts(e: Daemon, e': Daemon, cmd: Cmd)
    requires TimesOk(e) && Lists(e) && Clocks(e) && e.queue == e'.queue + [cmd] && e' == e.(queue := e'.queue)
    ensures TimesOk(e') && Lists(e') && Clocks(e')
  {
    assert forall c :: c in e'.queue ==> c in e.queue;
    assert forall c :: CmdOk(e, c) == CmdOk(e', c);
    hide ListOk, Low;
  }

  /** Every step of the bounded daemon keeps the invariant, except exactly one that loses a timer. */
  lemma BoundedKept(d: Daemon, step: Step, n: nat)
    requires Inv(d) && Enabled(d, step)
    ensures Inv(Bounded(d, step, n)) <==> !Loses(d, step, n)
  {
    hide Inv, Apply, Enabled;
    StepKept(d, step);
    if Refuses(d, step, n) {
      var e := Apply(d, step);
      PostShape(d, step);
      assert e.queue == d.queue + [e.queue[|d.queue|]];
      Unsent(e, e.(queue := d.queue), e.queue[|d.queue|]);
    }
  }

  // ---- Runs ----

  predicate Possible(d: Daemon, steps: seq<Step>, n: nat)
    decreases |steps|
  {
    steps == [] || (Enabled(d, steps[0]) && Possible(Bounded(d, steps[0], n), steps[1..], n))
  }

  function After(d: Daemon, steps: seq<Step>, n: nat): Daemon
    requires Possible(d, steps, n)
    decreases |steps|
  {
    if steps == [] then d else After(Bounded(d, steps[0], n), steps[1..], n)
  }

  predicate NoneLost(d: Daemon, steps: seq<Step>, n: nat)
    requires Possible(d, steps, n)
    decreases |steps|
  {
    steps == [] || (!Loses(d, steps[0], n) && NoneLost(Bounded(d, steps[0], n), steps[1..], n))
  }

  /** The invariant holds in every state of the run. */
  ghost predicate Throughout(d: Daemon, steps: seq<Step>, n: nat)
    requires Possible(d, steps, n)
    decreases |steps|
  {
    Inv(d) && (steps == [] || Throughout(Bounded(d, steps[0], n), steps[1..], n))
  }

  /** A run keeps the invariant throughout exactly if no step of it loses a timer. */
  lemma {:induction false} BoundedRun(d: Daemon, steps: seq<Step>, n: nat)
    requires Inv(d) && Possible(d, steps, n)
    ensures Throughout(d, steps, n) <==> NoneLost(d, steps, n)
    ensures NoneLost(d, steps, n) ==> Inv(After(d, steps, n))
    decreases |steps|
  {
    hide Inv, Bounded, Enabled, Loses;
    if steps != [] {
      var d' := Bounded(d, steps[0], n);
      BoundedKept(d, steps[0], n);
      if Inv(d') { BoundedRun(d', steps[1..], n); }
    }
  }

  /** Exactly once for every boundary, with a queue of any length, in every run in which no timer is lost. */
  lemma BoundedSchedule(d: Daemon, steps: seq<Step>, n: nat, t: Id)
    requires Created(d) && Possible(d, steps, n) && NoneLost(d, steps, n)
    requires var e := After(d, steps, n); AtRest(e) && Running(e, t) && Auto(e.timers, t)
    ensures var e := After(d, steps, n); t in e.tracked && OnTime(e.tracked[t], Period(e.timers, t), e.now)
  {
    BoundedRun(d, steps, n);
    InTimeAtRest(After(d, steps, n), t);
  }

  // ---- A lost timer ----

  /** A timer that is in no list, with no command on it under way, stays so, and its callback does not run again,
      until a user sends a command on it. */
  lemma {:induction false} LostForGood(d: Daemon, steps: seq<Step>, n: nat, t: Id)
    requires Possible(d, steps, n) && Dormant(d, t) && forall step <- steps :: step.User? ==> step.cmd.t != t
    ensures var e := After(d, steps, n);
      Dormant(e, t) && (t in e.tracked <==> t in d.tracked) && (t in d.tracked ==> e.tracked[t] == d.tracked[t])
    decreases |steps|
  {
    hide Bounded, Enabled, Dormant;
    if steps != [] {
      var step := steps[0];
      assert step in steps && forall x :: x in steps[1..] ==> x in steps;
      DormantStep(d, step, n, t);
      LostForGood(Bounded(d, step, n), steps[1..], n, t);
    }
  }

  lemma DormantStep(d: Daemon, step: Step, n: nat, t: Id)
    requires Enabled(d, step) && Dormant(d, t) && (step.User? ==> step.cmd.t != t)
    ensures var e := Bounded(d, step, n);
      Dormant(e, t) && (t in e.tracked <==> t in d.tracked) && (t in d.tracked ==> e.tracked[t] == d.tracked[t])
  {
    DormantApply(d, step, t);
    hide Apply;
  }

  lemma DormantApply(d: Daemon, step: Step, t: Id)
    requires Enabled(d, step) && Dormant(d, t) && (step.User? ==> step.cmd.t != t)
    ensures var e := Apply(d, step);
      Dormant(e, t) && (t in e.tracked <==> t in d.tracked) && (t in d.tracked ==> e.tracked[t] == d.tracked[t])
  {
    hide CmdsOn, Process, Reload, Handled, Without;
    match step {
      case User(cmd) => CmdsAppend(d.queue, cmd, t);
      case Look => if Expired(d) { LeftAlone(Sampled(d, Commands), d.current[0], t); }
      case SwitchOne => LeftAlone(d, d.current[0], t);
      case Receive => ReceiveDormant(d, t);
      case Handle => HandledAlone(d.(place := Commands), d.place.cmd, d.place.sample, t);
      case _ => {}
    }
  }

  lemma ReceiveDormant(d: Daemon, t: Id)
    requires Enabled(d, Receive) && Dormant(d, t)
    ensures Dormant(Apply(d, Receive), t) && Apply(d, Receive).tracked == d.tracked
  {
    hide Without;
    if d.queue != [] {
      OnlyOthers(d.current, d.queue[0].t);
      OnlyOthers(d.overflow, d.queue[0].t);
    }
  }

  lemma OnlyOthers(l: seq<Id>, x: Id)
    ensures forall y :: y in Without(l, x) ==> y in l
  {
  }

  /** Handling timer x does nothing to timer t. */
  ghost predicate Alone(d: Daemon, e: Daemon, t: Id) {
    && (t !in d.current ==> t !in e.current) && (t !in d.overflow ==> t !in e.overflow) && CmdsOn(e.queue, t) == CmdsOn(d.queue, t)
    && (t in e.tracked <==> t in d.tracked) && (t in d.tracked ==> e.tracked[t] == d.tracked[t]) && e.place == d.place
  }

  lemma InsertAlone(d: Daemon, x: Id, verdict: Verdict, expiry: Tick, due: nat, t: Id)
    requires x != t
    ensures Alone(d, InsertTimer(d, x, verdict, expiry, due), t)
  {
    hide SearchPos, CmdsOn, SetValue;
  }

  lemma PostAlone(d: Daemon, cmd: Cmd, t: Id)
    requires cmd.t != t
    ensures Alone(d, Post(d, cmd), t)
  {
    CmdsAppend(d.queue, cmd, t);
    hide CmdsOn;
  }

  lemma TakeAlone(d: Daemon, x: Id, p: Tick, t: Id)
    requires x != t
    ensures Alone(d, d.(current := Without(d.current, x), tracked := Counted(d.tracked, x, p)), t)
  {
    OnlyOthers(d.current, x);
    hide CmdsOn, Without;
  }

  lemma LeftAlone(d: Daemon, x: Id, t: Id)
    requires x != t
    ensures Alone(d, Process(d, x), t) && Alone(d, Reload(d, x), t)
  {
    var expiry, due, p := Value(d.timers, x), DueAt(d.timers, x), Period(d.timers, x);
    var d1 := d.(current := Without(d.current, x), tracked := Counted(d.tracked, x, p));
    var verdict := Judge(Add32(expiry, p), Low(d.now), expiry, p);
    TakeAlone(d, x, p, t);
    InsertAlone(d1, x, verdict, Add32(expiry, p), due + p, t);
    InsertAlone(d1, x, InCurrent, Add32(expiry, p), due + p, t);
    PostAlone(d1, Start(x, expiry, true, due), t);
    PostAlone(InsertTimer(d1, x, verdict, Add32(expiry, p), due + p), Start(x, expiry, true, due), t);
    hide CmdsOn, Without, Counted, Judge, InsertTimer, Post;
  }

  lemma HandledAlone(d: Daemon, cmd: Cmd, sample: nat, t: Id)
    requires cmd.t != t
    ensures Alone(d, Handled(d, cmd, sample), t)
  {
    hide CmdsOn, Judge, InsertTimer, Post, Low;
    match cmd {
      case Start(x, v, _, at) =>
        var p := Period(d.timers, x);
        var verdict := Judge(Add32(v, p), Low(sample), v, p);
        var d0 := d.(tracked := Followed(d, x, at, p));
        InsertAlone(d0, x, verdict, Add32(v, p), at + p, t);
        var d1 := InsertTimer(d0, x, verdict, Add32(v, p), at + p);
        PostAlone(d1.(tracked := Counted(d1.tracked, x, p)), Start(x, Add32(v, p), true, at + p), t);
      case Stop(_) => {}
      case ChangePeriod(x, p) =>
        var now := Low(sample);
        var d0 := d.(timers := if x in d.timers then d.timers[x := d.timers[x].(period := p)] else d.timers,
                     tracked := Followed(d, x, sample, p));
        InsertAlone(d0, x, Judge(Add32(now, p), now, now, p), Add32(now, p), sample + p, t);
    }
  }

  lemma UnsentDormant(e: Daemon, queue: seq<Cmd>, cmd: Cmd)
    requires e.queue == queue + [cmd] && cmd.t in e.tracked && InPhase(e, cmd.t)
    requires cmd.t !in e.current && cmd.t !in e.overflow
    ensures Dormant(e.(queue := queue), cmd.t) && Auto(e.timers, cmd.t)
  {
    CmdsAppend(queue, cmd, cmd.t);
    hide CmdsOn;
  }

  lemma LosesDormant(d: Daemon, step: Step, n: nat)
    requires Inv(d) && Enabled(d, step) && Loses(d, step, n)
    ensures var e, t := Bounded(d, step, n), Subject(d, step); Dormant(e, t) && t in e.tracked && Auto(e.timers, t)
  {
    hide Apply, Enabled, InPhase, TimesOk, Lists, Clocks, CmdsOn, Dormant, Auto;
    var e := Apply(d, step);
    StepKept(d, step);
    PostShape(d, step);
    assert e.queue == d.queue + [e.queue[|d.queue|]];
    UnsentDormant(e, d.queue, e.queue[|d.queue|]);
  }

  /** A timer that the daemon loses was running and in phase; whatever happens then, its callback does not run again
      until its user sends a command on it. */
  lemma Lost(d: Daemon, step: Step, n: nat, steps: seq<Step>)
    requires Inv(d) && Enabled(d, step) && Loses(d, step, n) && Possible(Bounded(d, step, n), steps, n)
    requires forall x <- steps :: x.User? ==> x.cmd.t != Subject(d, step)
    ensures var before, e, t := Bounded(d, step, n), After(Bounded(d, step, n), steps, n), Subject(d, step);
      Dormant(e, t) && t in e.tracked && e.tracked[t] == before.tracked[t]
  {
    hide Inv, Bounded, Enabled, Dormant, Possible, After, Apply, Posts;
    LosesDormant(d, step, n);
    LostForGood(Bounded(d, step, n), steps, n, Subject(d, step));
  }

  // ---- A run that loses a timer ----

  ghost predicate Goes(d: Daemon, steps: seq<Step>, e: Daemon) { Possible(d, steps, 1) && NoneLost(d, steps, 1) && After(d, steps, 1) == e }

  lemma Stays(d: Daemon)
    ensures Goes(d, [], d)
  {
  }

  lemma {:induction false} GoesNext(d: Daemon, steps: seq<Step>, e: Daemon, step: Step)
    requires Goes(d, steps, e) && Enabled(e, step) && !Loses(e, step, 1)
    ensures Goes(d, steps + [step], Bounded(e, step, 1))
    decreases |steps|
  {
    hide Bounded, Enabled, Loses;
    var all := steps + [step];
    if steps == [] {
      assert all[0] == step && all[1..] == [] && d == e;
      Stays(Bounded(e, step, 1));
    } else {
      assert all[0] == steps[0] && all[1..] == steps[1..] + [step];
      GoesNext(Bounded(d, steps[0], 1), steps[1..], e, step);
    }
  }

  lemma Then(d: Daemon, steps: seq<Step>, e: Daemon, step: Step, e': Daemon) returns (more: seq<Step>)
    requires Goes(d, steps, e) && Enabled(e, step) && Apply(e, step) == e' && (|e'.queue| <= |e.queue| || e.queue == [])
    requires step.User? ==> e.queue == []
    ensures Goes(d, more, e')
  {
    more := steps + [step];
    assert !Loses(e, step, 1) && Bounded(e, step, 1) == e';
    GoesNext(d, steps, e, step);
  }

  /** Timer 0, of period 1, reloads itself; timer 1 is never started. */
  function Both(value: Tick, due: nat, current: seq<Id>, queue: seq<Cmd>, place: Place, now: nat, tracked: map<Id, Track>): Daemon {
    Daemon(map[0 := Timer(1, true, value, due), 1 := Timer(1, false, 0, 0)], current, [], queue, 0, place, now, 0, tracked)
  }

  /** With one place in the queue: timer 0 is started at 0; at 3 a user stops timer 1, which does not even run, before
      the daemon has looked. The daemon then finds timer 0 late and cannot send itself the start. */
  lemma TimerLost() returns (d: Daemon, steps: seq<Step>)
    ensures Created(d) && Possible(d, steps, 1) && NoneLost(d, steps, 1)
    ensures var e := After(d, steps, 1); Inv(e) && Running(e, 0) && Enabled(e, Look) && Loses(e, Look, 1) && Subject(e, Look) == 0
  {
    d := Both(0, 0, [], [], Top, 0, map[]);
    Stays(d);
    var first: Cmd := Start(0, 0, false, 0);
    var running := Both(1, 1, [0], [], Top, 0, map[0 := Track(0, 0, 1)]);
    steps := Started(d, first, running);
    var full := running.(now := 3, queue := [Stop(1)]);
    steps := Late(d, steps, running, full);
    BoundedRun(d, steps, 1) by { CreatedInv(d); }
    Looks(full);
  }

  lemma CreatedInv(d: Daemon)
    requires Created(d)
    ensures Inv(d)
  {
  }

  lemma Started(d: Daemon, first: Cmd, running: Daemon) returns (steps: seq<Step>)
    requires d == Both(0, 0, [], [], Top, 0, map[]) && first == Start(0, 0, false, 0) && Goes(d, [], d)
    requires running == Both(1, 1, [0], [], Top, 0, map[0 := Track(0, 0, 1)])
    ensures Goes(d, steps, running)
  {
    hide Goes;
    var sent := d.(queue := [first]);
    steps := Then(d, [], d, User(first), sent);
    steps := Then(d, steps, sent, Look, sent.(place := Commands));
    steps := Hears(d, steps, first, running);
  }

  lemma Hears(d: Daemon, before: seq<Step>, first: Cmd, running: Daemon) returns (steps: seq<Step>)
    requires d == Both(0, 0, [], [], Top, 0, map[]) && first == Start(0, 0, false, 0)
    requires Goes(d, before, d.(queue := [first], place := Commands))
    requires running == Both(1, 1, [0], [], Top, 0, map[0 := Track(0, 0, 1)])
    ensures Goes(d, steps, running)
  {
    hide Goes;
    var handling := d.(place := Handling(0, first));
    steps := Then(d, before, d.(queue := [first], place := Commands), Receive, handling);
    steps := Then(d, steps, handling, Handle, running.(place := Commands));
    steps := Then(d, steps, running.(place := Commands), Receive, running);
  }

  lemma Late(d: Daemon, before: seq<Step>, running: Daemon, full: Daemon) returns (steps: seq<Step>)
    requires running == Both(1, 1, [0], [], Top, 0, map[0 := Track(0, 0, 1)]) && Goes(d, before, running)
    requires full == running.(now := 3, queue := [Stop(1)])
    ensures Goes(d, steps, full)
  {
    hide Goes;
    steps := Then(d, before, running, Advance(3), running.(now := 3));
    steps := Then(d, steps, running.(now := 3), User(Stop(1)), full);
  }

  lemma Looks(full: Daemon)
    requires full == Both(1, 1, [0], [Stop(1)], Top, 3, map[0 := Track(0, 0, 1)])
    ensures Enabled(full, Look) && Loses(full, Look, 1) && Subject(full, Look) == 0
  {
    assert Judge(2, 3, 1, 1).ProcessNow?;
  }
}
