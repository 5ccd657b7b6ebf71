/** When a user's command on a running timer takes effect. The daemon handles commands in the order they
    were sent, and sends itself a start command when it finds a timer more than a period late or a list
    switch in the way of its next boundary. Such a command stands behind those that users have sent
    before, and undoes them. */
module TimersCommands {
  import opened Machine
  import opened ListModel
  import opened Timers
  import opened TimersKept
  import opened TimersRuns

  /** The step runs the callback of t from a list and sends a start command on t. */
  predicate Overtakes(d: Daemon, step: Step, t: Id) {
    var v, p := Value(d.timers, t), Period(d.timers, t);
    && d.current != [] && d.current[0] == t && Auto(d.timers, t)
    && match step
       case Look => !Wrapped(d) && Expired(d) && Judge(Add32(v, p), Low(d.now), v, p).ProcessNow?
       case SwitchOne => Add32(v, p) <= v
       case _ => false
  }

  /** In unbounded time: looking at the lists, the daemon does so exactly if the head is a full period late;
      while it switches them, exactly if the head's next boundary lies behind the wrap of the tick count. */
  lemma OvertakesWhen(d: Daemon, t: Id)
    requires Inv(d) && d.current != [] && d.current[0] == t && Auto(d.timers, t)
    ensures var due, p := DueAt(d.timers, t), Period(d.timers, t);
      && (Enabled(d, Look) ==> (Overtakes(d, Look, t) <==> !Wrapped(d) && due + p <= d.now))
      && (Enabled(d, SwitchOne) ==> (Overtakes(d, SwitchOne, t) <==> (due + p) / WORD != due / WORD))
  {
    var due, p := DueAt(d.timers, t), Period(d.timers, t);
    assert t in d.current && p > 0;
    Added(due, p);
    if Enabled(d, Look) && !Wrapped(d) {
      LookTimes(d);
      Split(due);
      Split(d.now);
      if due <= d.now { Belongs(due, p, d.now); }
    }
    if Enabled(d, SwitchOne) { SwitchTimes(d, t); }
    hide Judge, Low, Lists, Phases;
  }

  /** cmd waits for the daemon or is in its hands, no other user command on t is about, and `behind` are
      the start commands the daemon has sent after it. */
  ghost predicate Waits(d: Daemon, t: Id, cmd: Cmd, behind: seq<Cmd>) {
    && t !in d.tracked && (behind != [] ==> !Running(d, t)) && cmd.t == t
    && if InHand(d, t) then d.place.cmd == cmd && CmdsOn(d.queue, t) == behind else CmdsOn(d.queue, t) == [cmd] + behind
  }

  function OwnStart(t: Id, at: nat): Cmd { Start(t, Low(at), true, at) }

  /** Nobody else sends a command on t, and none is handled. */
  predicate Undisturbed(d: Daemon, step: Step, t: Id) {
    (step.User? ==> step.cmd.t != t) && (step.Handle? ==> !InHand(d, t))
  }

  /** What a step does to the commands on t. */
  ghost predicate Onward(d: Daemon, d': Daemon, step: Step, t: Id, cmd: Cmd, behind: seq<Cmd>) {
    && (if Overtakes(d, step, t) then behind == [] && Waits(d', t, cmd, [OwnStart(t, DueAt(d.timers, t))])
        else Waits(d', t, cmd, behind))
    && (!Overtakes(d, step, t) ==>
          DueAt(d'.timers, t) == DueAt(d.timers, t) || DueAt(d'.timers, t) == DueAt(d.timers, t) + Period(d.timers, t))
    && Period(d'.timers, t) == Period(d.timers, t) && Auto(d'.timers, t) == Auto(d.timers, t)
    && (Running(d', t) ==> Running(d, t))
  }

  /** A step that concerns another timer. */
  lemma MovedOn(d: Daemon, d': Daemon, x: Id, verdict: Verdict, due: nat, post: seq<Cmd>, step: Step, t: Id, cmd: Cmd, behind: seq<Cmd>)
    requires Waits(d, t, cmd, behind) && Moves(d, d', x, verdict, due, post) && PostOk(d, x, post) && x != t
    requires !Overtakes(d, step, t)
    ensures Onward(d, d', step, t, cmd, behind)
  {
    if post != [] { CmdsAppend(d.queue, post[0], t); } else { assert d.queue == d.queue + []; }
    hide ListOk, CmdsOn, Low, Overtakes;
  }

  /** A timer from the current list is reloaded. */
  lemma ReloadedOn(d: Daemon, d': Daemon, x: Id, verdict: Verdict, step: Step, t: Id, cmd: Cmd, behind: seq<Cmd>)
    requires Lists(d) && Waits(d, t, cmd, behind) && x in d.current && Reloads(d, d', x, verdict) && !d.place.Handling?
    requires DueAt(d.timers, x) <= d.now && (Overtakes(d, step, t) <==> x == t && verdict.ProcessNow?)
    ensures Onward(d, d', step, t, cmd, behind)
  {
    var due, p := DueAt(d.timers, x), Period(d.timers, x);
    var post := if verdict.ProcessNow? then [OwnStart(x, due)] else [];
    if x == t {
      if post != [] { CmdsAppend(d.queue, post[0], t); } else { assert d.queue == d.queue + []; }
      assert !InHand(d, t) && behind == [];
      hide ListOk, CmdsOn, Low, Overtakes, Lists;
      assert [cmd] + [] + post == [cmd] + post && [cmd] + [] == [cmd];
    } else {
      hide Lists, Moves, Low, Overtakes;
      assert PostOk(d, x, post);
      MovedOn(d, d', x, verdict, due + p, post, step, t, cmd, behind);
    }
  }

  /** A step that moves no timer, or removes one that is done. */
  lemma SameOn(d: Daemon, d': Daemon, step: Step, t: Id, cmd: Cmd, behind: seq<Cmd>)
    requires Waits(d, t, cmd, behind) && !Overtakes(d, step, t) && CmdsOn(d'.queue, t) == CmdsOn(d.queue, t)
    requires d'.timers == d.timers && (t in d'.tracked ==> t in d.tracked) && (Running(d', t) ==> Running(d, t))
    requires (InHand(d', t) <==> InHand(d, t)) && (InHand(d, t) ==> d'.place.cmd == d.place.cmd)
    ensures Onward(d, d', step, t, cmd, behind)
  {
    hide Overtakes;
  }

  lemma LookOn(d: Daemon, t: Id, cmd: Cmd, behind: seq<Cmd>)
    requires Inv(d) && Enabled(d, Look) && Waits(d, t, cmd, behind)
    ensures Onward(d, Apply(d, Look), Look, t, cmd, behind)
  {
    var d' := Apply(d, Look);
    if Wrapped(d) || !Expired(d) {
      hide Inv, CmdsOn;
      SameOn(d, d', Look, t, cmd, behind);
    } else {
      var x, d0 := d.current[0], Sampled(d, Commands);
      assert x in d.current && Lists(d0);
      LookTimes(d);
      if Auto(d.timers, x) {
        var due, p := DueAt(d.timers, x), Period(d.timers, x);
        HeadDue(d, x, d.now);
        Added(due, p);
        var verdict := Judge(Low(due + p), Low(d.now), Low(due), p);
        hide Inv, Lists, Low, Judge, CmdsOn;
        ProcessReloads(d0, x, due, p, verdict);
        hide Process, Reloads;
        SampledSame(d, t, cmd, behind);
        ReloadedOn(d0, d', x, verdict, Look, t, cmd, behind);
        SampledBack(d, d', t, cmd, behind);
      } else {
        OneShot(d0, x);
        HeadOut(d, x);
        hide Inv, CmdsOn, Without, Process;
        SameOn(d, d', Look, t, cmd, behind);
      }
    }
  }

  /** Sampling the time concerns no timer. */
  lemma SampledSame(d: Daemon, t: Id, cmd: Cmd, behind: seq<Cmd>)
    requires Waits(d, t, cmd, behind) && d.place.Top? && !Wrapped(d)
    ensures Waits(Sampled(d, Commands), t, cmd, behind)
    ensures Overtakes(Sampled(d, Commands), Look, t) <==> Overtakes(d, Look, t)
  {
    hide CmdsOn, Judge;
  }

  lemma SampledBack(d: Daemon, d': Daemon, t: Id, cmd: Cmd, behind: seq<Cmd>)
    requires Onward(Sampled(d, Commands), d', Look, t, cmd, behind)
    requires Overtakes(Sampled(d, Commands), Look, t) <==> Overtakes(d, Look, t)
    ensures Onward(d, d', Look, t, cmd, behind)
  {
    hide Overtakes, Waits;
  }

  lemma SwitchOneOn(d: Daemon, t: Id, cmd: Cmd, behind: seq<Cmd>)
    requires Inv(d) && Enabled(d, SwitchOne) && Waits(d, t, cmd, behind)
    ensures Onward(d, Apply(d, SwitchOne), SwitchOne, t, cmd, behind)
  {
    var x, d' := d.current[0], Apply(d, SwitchOne);
    assert x in d.current;
    if Auto(d.timers, x) {
      var due, p := DueAt(d.timers, x), Period(d.timers, x);
      assert p > 0;
      SwitchTimes(d, x);
      hide Inv, Lists, Low, CmdsOn, Add32;
      var verdict := ReloadReloads(d, x, due, p);
      hide Reload, Reloads;
      ReloadedOn(d, d', x, verdict, SwitchOne, t, cmd, behind);
    } else {
      OneShot(d, x);
      HeadOut(d, x);
      hide Inv, CmdsOn, Without, Reload;
      SameOn(d, d', SwitchOne, t, cmd, behind);
    }
  }

  lemma ReceiveOn(d: Daemon, t: Id, cmd: Cmd, behind: seq<Cmd>)
    requires Inv(d) && Enabled(d, Receive) && Waits(d, t, cmd, behind)
    ensures Onward(d, Apply(d, Receive), Receive, t, cmd, behind)
  {
    var d' := Apply(d, Receive);
    if d.queue != [] {
      var c := d.queue[0];
      Epochs(d);
      assert Taken(d, d');
      hide Inv, Apply;
      TakenRest(d, d', t);
      if c.t == t { ItselfTaken(d, d', t, cmd, behind); } else { OtherTaken(d, d', t, cmd, behind); }
    } else {
      hide Inv, CmdsOn;
      SameOn(d, d', Receive, t, cmd, behind);
    }
  }

  lemma TakenRest(d: Daemon, d': Daemon, t: Id)
    requires Taken(d, d') && NoDup(d.current) && NoDup(d.overflow)
    ensures CmdsOn(d.queue, t) == (if d.queue[0].t == t then [d.queue[0]] else []) + CmdsOn(d'.queue, t)
    ensures Running(d', t) <==> Running(d, t) && d.queue[0].t != t
  {
    WithoutItems(d.current, d.queue[0].t);
    WithoutItems(d.overflow, d.queue[0].t);
    hide Without, NoDup;
  }

  lemma ItselfTaken(d: Daemon, d': Daemon, t: Id, cmd: Cmd, behind: seq<Cmd>)
    requires Taken(d, d') && Waits(d, t, cmd, behind) && d.queue[0].t == t && d.place.Commands?
    requires CmdsOn(d.queue, t) == [d.queue[0]] + CmdsOn(d'.queue, t) && !Running(d', t)
    ensures Onward(d, d', Receive, t, cmd, behind)
  {
    hide CmdsOn, Without;
    assert CmdsOn(d.queue, t)[0] == d.queue[0] == cmd;
    assert CmdsOn(d'.queue, t) == CmdsOn(d.queue, t)[1..] == behind;
  }

  lemma OtherTaken(d: Daemon, d': Daemon, t: Id, cmd: Cmd, behind: seq<Cmd>)
    requires Taken(d, d') && Waits(d, t, cmd, behind) && d.queue[0].t != t && d.place.Commands?
    requires CmdsOn(d.queue, t) == [] + CmdsOn(d'.queue, t) && (Running(d', t) <==> Running(d, t))
    ensures Onward(d, d', Receive, t, cmd, behind)
  {
    hide CmdsOn, Without;
    SameOn(d, d', Receive, t, cmd, behind);
  }

  /** A command on another timer is handled. */
  lemma StartOn(d: Daemon, c: Cmd, sample: nat, t: Id, cmd: Cmd, behind: seq<Cmd>)
    requires Inv(d) && d.place == Handling(sample, c) && c.Start? && Waits(d, t, cmd, behind) && c.t != t
    ensures Onward(d, Apply(d, Handle), Handle, t, cmd, behind)
  {
    var x, at, p := c.t, c.at, Period(d.timers, c.t);
    var d0, d' := d.(tracked := Followed(d, x, at, p)), Apply(d, Handle);
    var verdict := Judge(Low(at + p), Low(sample), Low(at), p);
    FollowsOnly(d, x, at, p);
    hide Inv, Lists, Apply, Judge, Low, Followed, Moves, CmdsOn;
    assert Waits(d0, t, cmd, behind);
    hide Waits, Starts;
    StartTimes(d, c, sample);
    HandledStarts(d, x, c.own, at, sample, p, verdict);
    Belongs(at, p, sample);
    StartedOn(d0, d', x, at, p, verdict, t, cmd, behind);
  }

  lemma StartedOn(d: Daemon, d': Daemon, x: Id, at: nat, p: Tick, verdict: Verdict, t: Id, cmd: Cmd, behind: seq<Cmd>)
    requires Waits(d, t, cmd, behind) && Starts(d, d', x, verdict, at, p) && x != t
    requires verdict.ProcessNow? ==> at + p <= d.now
    ensures Onward(d, d', Handle, t, cmd, behind)
  {
    hide Waits, Moves, Low;
    assert PostOk(d, x, Resent(d, x, verdict, at + p));
    MovedOn(d, d', x, verdict, at + p, Resent(d, x, verdict, at + p), Handle, t, cmd, behind);
  }

  lemma StopOn(d: Daemon, x: Id, sample: nat, t: Id, cmd: Cmd, behind: seq<Cmd>)
    requires Lists(d) && d.place == Handling(sample, Stop(x)) && Waits(d, t, cmd, behind) && x != t
    ensures Onward(d, Apply(d, Handle), Handle, t, cmd, behind)
  {
    InHandMoves(d, Apply(d, Handle), Stop(x), sample);
    hide Moves, Waits, Lists;
    MovedOn(d, Apply(d, Handle), x, ProcessNow, 0, [], Handle, t, cmd, behind);
  }

  lemma ChangePeriodOn(d: Daemon, x: Id, p: Tick, sample: nat, t: Id, cmd: Cmd, behind: seq<Cmd>)
    requires Lists(d) && d.place == Handling(sample, ChangePeriod(x, p)) && Waits(d, t, cmd, behind) && x != t
    ensures Onward(d, Apply(d, Handle), Handle, t, cmd, behind)
  {
    assert p > 0 && x in d.timers;
    hide Moves, Waits, Lists, Judge, Apply, Followed;
    var verdict := Judge(Low(sample + p), Low(sample), Low(sample), p);
    PeriodMoves(d, x, p, sample, verdict);
    MovedOn(d, Apply(d, Handle), x, verdict, sample + p, [], Handle, t, cmd, behind);
  }

  lemma StepOn(d: Daemon, step: Step, t: Id, cmd: Cmd, behind: seq<Cmd>)
    requires Inv(d) && Enabled(d, step) && Undisturbed(d, step, t) && Waits(d, t, cmd, behind)
    ensures Onward(d, Apply(d, step), step, t, cmd, behind)
  {
    var d' := Apply(d, step);
    match step {
      case Advance(n) => hide Inv, CmdsOn; SameOn(d, d', step, t, cmd, behind);
      case User(c) => CmdsAppend(d.queue, c, t); hide Inv, CmdsOn; SameOn(d, d', step, t, cmd, behind);
      case Look => LookOn(d, t, cmd, behind);
      case SwitchOne => SwitchOneOn(d, t, cmd, behind);
      case SwitchDone => hide Inv, CmdsOn; SameOn(d, d', step, t, cmd, behind);
      case Receive => ReceiveOn(d, t, cmd, behind);
      case Handle =>
        var c, sample := d.place.cmd, d.place.sample;
        match c {
          case Start(_, _, _, _) => StartOn(d, c, sample, t, cmd, behind);
          case Stop(x) => StopOn(d, x, sample, t, cmd, behind);
          case ChangePeriod(x, p) => ChangePeriodOn(d, x, p, sample, t, cmd, behind);
        }
    }
  }

  // ---- Whole runs ----

  /** Along the run nobody else sends a command on t, and none is handled. */
  predicate Calm(d: Daemon, steps: seq<Step>, t: Id)
    requires Legal(d, steps)
    decreases |steps|
  {
    steps == [] || (Undisturbed(d, steps[0], t) && Calm(Apply(d, steps[0]), steps[1..], t))
  }

  /** At some step of the run the daemon sends a start command on t. */
  predicate Overtaken(d: Daemon, steps: seq<Step>, t: Id)
    requires Legal(d, steps)
    decreases |steps|
  {
    steps != [] && (Overtakes(d, steps[0], t) || Overtaken(Apply(d, steps[0]), steps[1..], t))
  }

  /** The command the daemon sends refers to a boundary of the old phase. */
  ghost predicate OldPhase(at: nat, due: nat, p: nat) { exists n: nat :: at == due + n * p }

  lemma PhaseMore(at: nat, due: nat, p: nat)
    requires OldPhase(at, due + p, p)
    ensures OldPhase(at, due, p)
  {
    var n: nat :| at == due + p + n * p;
    assert at == due + (n + 1) * p;
  }

  lemma {:induction false} RunOn(d: Daemon, steps: seq<Step>, t: Id, cmd: Cmd, behind: seq<Cmd>) returns (at: nat)
    requires Inv(d) && Legal(d, steps) && Calm(d, steps, t) && Waits(d, t, cmd, behind)
    ensures var e := Exec(d, steps);
      && Inv(e) && Auto(e.timers, t) == Auto(d.timers, t) && Period(e.timers, t) == Period(d.timers, t)
      && (Running(e, t) ==> Running(d, t))
      && if Overtaken(d, steps, t) then
           behind == [] && Waits(e, t, cmd, [OwnStart(t, at)]) && OldPhase(at, DueAt(d.timers, t), Period(d.timers, t))
         else Waits(e, t, cmd, behind)
    ensures Overtaken(d, steps, t) ==> Running(d, t)
    decreases |steps|
  {
    hide Inv, Apply, Waits, Overtakes, OldPhase;
    at := 0;
    if steps != [] {
      var step, d1, due, p := steps[0], Apply(d, steps[0]), DueAt(d.timers, t), Period(d.timers, t);
      StepKept(d, step);
      StepOn(d, step, t, cmd, behind);
      if Overtakes(d, step, t) {
        OvertakesRuns(d, step, t);
        var later := RunOn(d1, steps[1..], t, cmd, [OwnStart(t, due)]);
        at := due;
        Itself(due, p);
      } else {
        at := RunOn(d1, steps[1..], t, cmd, behind);
        if Overtaken(d1, steps[1..], t) && DueAt(d1.timers, t) != due { PhaseMore(at, due, p); }
      }
    }
  }

  lemma OvertakesRuns(d: Daemon, step: Step, t: Id)
    requires Overtakes(d, step, t)
    ensures Running(d, t)
  {
  }

  lemma Itself(due: nat, p: nat)
    ensures OldPhase(due, due, p)
  {
    assert due == due + 0 * p;
  }

  // ---- The effect ----

  /** What a command is for: to stop the timer; to have it count its period from the time of the command;
      to have it count the new period from the time the daemon sampled. */
  predicate Effective(d: Daemon, cmd: Cmd, sample: nat) {
    match cmd
    case Stop(t) => Dormant(d, t)
    case Start(t, _, _, at) => t in d.tracked && d.tracked[t].start == at
    case ChangePeriod(t, p) => t in d.tracked && d.tracked[t].start == sample && Period(d.timers, t) == p
  }

  lemma Alone(d: Daemon, cmd: Cmd, sample: nat)
    requires Inv(d) && d.place == Handling(sample, cmd) && Waits(d, cmd.t, cmd, []) && Auto(d.timers, cmd.t)
    ensures Effective(Apply(d, Handle), cmd, sample)
  {
    assert Lists(d);
    hide Judge, Inserted, Low, CmdsOn, ListOk;
  }

  lemma NotAlone(d: Daemon, cmd: Cmd, sample: nat, at: nat)
    requires Inv(d) && d.place == Handling(sample, cmd) && Waits(d, cmd.t, cmd, [OwnStart(cmd.t, at)])
    requires Auto(d.timers, cmd.t)
    ensures var f := Apply(d, Handle);
      && !Effective(f, cmd, sample) && cmd.t !in f.tracked
      && CmdsOn(f.queue, cmd.t) != [] && CmdsOn(f.queue, cmd.t)[0] == OwnStart(cmd.t, at)
      && (cmd.Stop? ==> Waits(f, cmd.t, OwnStart(cmd.t, at), []) && !Running(f, cmd.t) && f.timers == d.timers)
  {
    var t := cmd.t;
    if cmd.Start? {
      CmdsAppend(d.queue, OwnStart(t, cmd.at + Period(d.timers, t)), t);
      StartTimes(d, cmd, sample);
      Added(cmd.at, Period(d.timers, t));
    }
    hide Judge, Inserted, CmdsOn, Inv, Low;
  }

  /** A command sent when no other is waiting takes effect exactly if, between its sending and its handling,
      the daemon does not send itself a start of that timer. If it does, that start is what the daemon
      handles next, and it refers to a boundary of the old phase. */
  lemma TakesEffect(d: Daemon, steps: seq<Step>, cmd: Cmd, sample: nat) returns (at: nat)
    requires Inv(d) && Waits(d, cmd.t, cmd, []) && Auto(d.timers, cmd.t) && Legal(d, steps) && Calm(d, steps, cmd.t)
    requires Exec(d, steps).place == Handling(sample, cmd)
    ensures var f := Apply(Exec(d, steps), Handle);
      && (Effective(f, cmd, sample) <==> !Overtaken(d, steps, cmd.t))
      && (Overtaken(d, steps, cmd.t) ==>
            CmdsOn(f.queue, cmd.t) != [] && CmdsOn(f.queue, cmd.t)[0] == OwnStart(cmd.t, at)
            && OldPhase(at, DueAt(d.timers, cmd.t), Period(d.timers, cmd.t)))
  {
    var e := Exec(d, steps);
    at := RunOn(d, steps, cmd.t, cmd, []);
    hide Inv, Waits, Legal, Exec, Calm, Overtaken, OldPhase, Effective, Apply, CmdsOn;
    if Overtaken(d, steps, cmd.t) { NotAlone(e, cmd, sample, at); } else { Alone(e, cmd, sample); }
  }

  /** Sent when no other command on the timer is about, a user's command waits alone. */
  lemma Sent(d: Daemon, cmd: Cmd)
    requires Inv(d) && Enabled(d, User(cmd)) && CmdsOn(d.queue, cmd.t) == [] && !InHand(d, cmd.t)
    ensures Inv(Apply(d, User(cmd))) && Waits(Apply(d, User(cmd)), cmd.t, cmd, [])
  {
    StepKept(d, User(cmd));
    CmdsAppend(d.queue, cmd, cmd.t);
    hide Inv, CmdsOn;
  }

  /** A stop that is overtaken is in vain: when the daemon has handled its own start, the timer goes on in
      its old phase. */
  lemma StoppedInVain(d: Daemon, steps: seq<Step>, t: Id, sample: nat, rest: seq<Step>, later: nat) returns (at: nat)
    requires Inv(d) && Waits(d, t, Stop(t), []) && Auto(d.timers, t) && Legal(d, steps) && Calm(d, steps, t)
    requires Exec(d, steps).place == Handling(sample, Stop(t)) && Overtaken(d, steps, t)
    requires var f := Apply(Exec(d, steps), Handle);
      Legal(f, rest) && Calm(f, rest, t) && Exec(f, rest).place.Handling? && Exec(f, rest).place.sample == later
      && Exec(f, rest).place.cmd.t == t
    ensures var g := Apply(Exec(Apply(Exec(d, steps), Handle), rest), Handle);
      t in g.tracked && g.tracked[t].start == at && OldPhase(at, DueAt(d.timers, t), Period(d.timers, t))
  {
    at := RunOn(d, steps, t, Stop(t), []);
    var e := Exec(d, steps);
    var f := Apply(e, Handle);
    hide Inv, Legal, Exec, Calm, Overtaken, OldPhase, Apply, CmdsOn;
    NotAlone(e, Stop(t), sample, at);
    StepKept(e, Handle);
    var same := RunOn(f, rest, t, OwnStart(t, at), []);
    Alone(Exec(f, rest), OwnStart(t, at), later);
  }

  // ---- A timer that cannot be stopped ----

  /** One timer, of period 1, that reloads itself. */
  function Small(value: Tick, due: nat, current: seq<Id>, queue: seq<Cmd>, place: Place, now: nat, seen: nat,
                 tracked: map<Id, Track>): Daemon
  {
    Daemon(map[0 := Timer(1, true, value, due)], current, [], queue, Low(seen), place, now, seen, tracked)
  }

  lemma Then(d: Daemon, steps: seq<Step>, e: Daemon, step: Step, e': Daemon) returns (more: seq<Step>)
    requires Runs(d, steps, e) && Enabled(e, step) && Apply(e, step) == e'
    ensures Runs(d, more, e') && more == steps + [step]
  {
    more := steps + [step];
    RunsNext(d, steps, e, step);
  }

  /** Started at 0 and found three ticks late, the timer is stopped by its user, and no other command is
      sent; in the end the daemon is at rest, every command has been handled, and the timer is in the list.
      The callback has run twice since the stop was handled. */
  lemma StoppedAndRunning() returns (d: Daemon, before: seq<Step>, steps: seq<Step>)
    ensures Created(d) && Legal(d, before + [User(Stop(0))] + steps)
    ensures forall step <- steps :: !step.User?
    ensures var e := Exec(d, before + [User(Stop(0))] + steps);
      AtRest(e) && e.now == 3 && e.current == [0] && 0 in e.tracked && e.tracked[0] == Track(1, 2, 4)
  {
    d := Small(0, 0, [], [], Top, 0, 0, map[]);
    var first: Cmd := Start(0, 0, false, 0);
    var running := Small(1, 1, [0], [], Top, 0, 0, map[0 := Track(0, 0, 1)]);
    before := Started(d, first, running);
    var late := running.(now := 3);
    before := Then(d, before, running, Advance(3), late);
    var stopped := Small(1, 1, [0], [Stop(0)], Top, 3, 0, map[]);
    var all := Then(d, before, late, User(Stop(0)), stopped);
    steps := Goes(d, all, stopped);
    assert before + [User(Stop(0))] + steps == all + steps;
    RunsTo(d, all + steps, Small(4, 4, [0], [], Top, 3, 3, map[0 := Track(1, 2, 4)]));
  }

  lemma Started(d: Daemon, first: Cmd, running: Daemon) returns (steps: seq<Step>)
    requires d == Small(0, 0, [], [], Top, 0, 0, map[]) && first == Start(0, 0, false, 0)
    requires running == Small(1, 1, [0], [], Top, 0, 0, map[0 := Track(0, 0, 1)])
    ensures Runs(d, steps, running)
  {
    Nothing(d);
    var sent := Small(0, 0, [], [first], Top, 0, 0, map[]);
    steps := Then(d, [], d, User(first), sent);
    steps := Then(d, steps, sent, Look, sent.(place := Commands));
    var handling := Small(0, 0, [], [], Handling(0, first), 0, 0, map[]);
    steps := Then(d, steps, sent.(place := Commands), Receive, handling);
    steps := Then(d, steps, handling, Handle, running.(place := Commands));
    steps := Then(d, steps, running.(place := Commands), Receive, running);
  }

  lemma Goes(d: Daemon, all: seq<Step>, stopped: Daemon) returns (steps: seq<Step>)
    requires stopped == Small(1, 1, [0], [Stop(0)], Top, 3, 0, map[]) && Runs(d, all, stopped)
    ensures Runs(d, all + steps, Small(4, 4, [0], [], Top, 3, 3, map[0 := Track(1, 2, 4)]))
    ensures forall step <- steps :: !step.User?
  {
    hide Runs, Apply;
    var more := Heard(d, all, stopped);
    more := Again(d, more, 2, 1, map[]);
    more := Again(d, more, 2, 2, map[0 := Track(1, 1, 3)]);
    more := Rests(d, more);
    steps := [Look, Receive, Handle, Receive, Handle, Receive, Handle, Receive, Handle, Receive];
    assert more == all + steps;
  }

  /** Looking at the timer, the daemon finds it late, and then handles the stop. */
  lemma Heard(d: Daemon, all: seq<Step>, stopped: Daemon) returns (more: seq<Step>)
    requires stopped == Small(1, 1, [0], [Stop(0)], Top, 3, 0, map[]) && Runs(d, all, stopped)
    ensures Runs(d, more, Small(2, 2, [], [OwnStart(0, 1)], Commands, 3, 3, map[])) && more == all + [Look, Receive, Handle]
  {
    var e1 := Small(2, 2, [], [Stop(0), OwnStart(0, 1)], Commands, 3, 3, map[]);
    more := Then(d, all, stopped, Look, e1);
    var e2 := Small(2, 2, [], [OwnStart(0, 1)], Handling(3, Stop(0)), 3, 3, map[]);
    more := Then(d, more, e1, Receive, e2);
    more := Then(d, more, e2, Handle, e2.(place := Commands));
  }

  /** Its own start finds the timer late again. */
  lemma Again(d: Daemon, all: seq<Step>, v: Tick, at: Tick, k: map<Id, Track>) returns (more: seq<Step>)
    requires Runs(d, all, Small(v, v, [], [OwnStart(0, at)], Commands, 3, 3, k))
    requires at < 3 && (k == map[] || k == map[0 := Track(1, 1, 3)])
    ensures var k' := if 0 in k then Track(1, 2, 4) else Track(at, 1, at + 2);
      Runs(d, more, Small(at + 1, at + 1, [], [OwnStart(0, at + 1)], Commands, 3, 3, map[0 := k']))
    ensures more == all + [Receive, Handle]
  {
    var e1 := Small(v, v, [], [], Handling(3, OwnStart(0, at)), 3, 3, k);
    more := Then(d, all, Small(v, v, [], [OwnStart(0, at)], Commands, 3, 3, k), Receive, e1);
    LateAgain(v, at, k);
    hide Apply;
    more := Then(d, more, e1, Handle, Apply(e1, Handle));
  }

  lemma LateAgain(v: Tick, at: Tick, k: map<Id, Track>)
    requires at < 3 && (k == map[] || k == map[0 := Track(1, 1, 3)])
    ensures var k' := if 0 in k then Track(1, 2, 4) else Track(at, 1, at + 2);
      Apply(Small(v, v, [], [], Handling(3, OwnStart(0, at)), 3, 3, k), Handle)
      == Small(at + 1, at + 1, [], [OwnStart(0, at + 1)], Commands, 3, 3, map[0 := k'])
  {
    var d := Small(v, v, [], [], Commands, 3, 3, k);
    assert Judge(Add32(at, 1), 3, at, 1).ProcessNow?;
    var tracked := Followed(d, 0, at, 1);
    assert Counted(tracked, 0, 1) == map[0 := if 0 in k then Track(1, 2, 4) else Track(at, 1, at + 2)];
    hide Followed, Counted, Judge;
  }

  lemma Rests(d: Daemon, all: seq<Step>) returns (more: seq<Step>)
    requires Runs(d, all, Small(3, 3, [], [OwnStart(0, 3)], Commands, 3, 3, map[0 := Track(1, 2, 4)]))
    ensures Runs(d, more, Small(4, 4, [0], [], Top, 3, 3, map[0 := Track(1, 2, 4)])) && more == all + [Receive, Handle, Receive]
  {
    var k := map[0 := Track(1, 2, 4)];
    var e1 := Small(3, 3, [], [], Handling(3, OwnStart(0, 3)), 3, 3, k);
    more := Then(d, all, Small(3, 3, [], [OwnStart(0, 3)], Commands, 3, 3, k), Receive, e1);
    var e2 := Small(4, 4, [0], [], Commands, 3, 3, k);
    more := Then(d, more, e1, Handle, e2);
    more := Then(d, more, e2, Receive, e2.(place := Top));
  }
}
