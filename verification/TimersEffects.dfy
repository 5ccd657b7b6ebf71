/** What each step of the timer daemon does to every timer, told in unbounded time: when its callback runs, for when it
    is filed next, and what the daemon sends itself. The 32-bit lists and comparisons are proved to do exactly that. */
module TimersEffects {
  import opened Machine
  import opened ListModel
  import opened Timers
  import opened TimersKept
  import opened TimersRuns

  // ---- the reference ----

  /** In a list, to expire at `due`, or in none. */
  datatype Spot = Off | On(due: nat)

  datatype Card = Card(spot: Spot, period: Tick, auto: bool)

  ghost function Seen(d: Daemon, t: Id): Card {
    Card(if Running(d, t) then On(DueAt(d.timers, t)) else Off, Period(d.timers, t), Auto(d.timers, t))
  }

  /** The timer that heads the current list. */
  predicate Heads(d: Daemon, t: Id) { d.current != [] && d.current[0] == t }

  /** The callback of t runs: it heads the list and is due, or its epoch is over, or its start comes that late. */
  predicate Fires(d: Daemon, step: Step, t: Id) {
    match step
    case Look => Heads(d, t) && DueAt(d.timers, t) <= d.now && d.now / WORD == d.seen / WORD
    case SwitchOne => Heads(d, t)
    case Handle =>
      d.place.Handling? && d.place.cmd.Start? && d.place.cmd.t == t && d.place.cmd.at + Period(d.timers, t) <= d.place.sample
    case _ => false
  }

  /** A timer whose callback has run for `boundary`: a one-shot timer is done, another is filed a period on, unless
      that is past too or behind the wrap; then the daemon sends itself a start that refers to the boundary. */
  predicate Refiled(d: Daemon, step: Step, next: nat) {
    if step.Look? then next > d.now else next / WORD == d.seen / WORD
  }

  function After(d: Daemon, step: Step, t: Id, c: Card): Card {
    match step
    case Look => if Fires(d, step, t) then Fired(d, step, c) else c
    case SwitchOne => if Fires(d, step, t) then Fired(d, step, c) else c
    case Receive => if d.queue != [] && d.queue[0].t == t then c.(spot := Off) else c
    case Handle => if d.place.Handling? && d.place.cmd.t == t then Told(d.place.cmd, d.place.sample, c) else c
    case _ => c
  }

  function Fired(d: Daemon, step: Step, c: Card): Card {
    if c.auto && c.spot.On? && Refiled(d, step, c.spot.due + c.period) then c.(spot := On(c.spot.due + c.period))
    else c.(spot := Off)
  }

  /** What a command makes of the timer it is about, handled at `sample`. */
  function Told(cmd: Cmd, sample: nat, c: Card): Card {
    match cmd
    case Start(_, _, _, at) => c.(spot := if at + c.period <= sample then Off else On(at + c.period))
    case Stop(_) => c.(spot := Off)
    case ChangePeriod(_, p) => c.(spot := On(sample + p), period := p)
  }

  function Sends(d: Daemon, step: Step): seq<Cmd> {
    match step
    case User(cmd) => [cmd]
    case Handle =>
      if !d.place.Handling? || !d.place.cmd.Start? then [] else
      var t, next := d.place.cmd.t, d.place.cmd.at + Period(d.timers, d.place.cmd.t);
      if next <= d.place.sample && Auto(d.timers, t) then [Start(t, Low(next), true, next)] else []
    case _ =>
      if d.current == [] || !Fires(d, step, d.current[0]) || !Auto(d.timers, d.current[0]) then [] else
      var t, due := d.current[0], DueAt(d.timers, d.current[0]);
      if Refiled(d, step, due + Period(d.timers, t)) then [] else [Start(t, Low(due), true, due)]
  }

  function QueueAfter(d: Daemon, step: Step): seq<Cmd> {
    (if step.Receive? && d.queue != [] then d.queue[1..] else d.queue) + Sends(d, step)
  }

  /** The count kept of a timer's callbacks. */
  ghost predicate Counts(d: Daemon, d': Daemon, step: Step) {
    forall t :: t in d.tracked && t in d'.tracked ==> d'.tracked[t].calls == d.tracked[t].calls + if Fires(d, step, t) then 1 else 0
  }

  ghost predicate Exact(d: Daemon, step: Step, d': Daemon) {
    && (forall t :: Seen(d', t) == After(d, step, t, Seen(d, t)))
    && d'.queue == QueueAfter(d, step) && Counts(d, d', step)
    && d'.now == if step.Advance? then d.now + step.ticks else d.now
  }

  // ---- each step ----

  /** What Moves says of every timer. */
  lemma MovesSeen(d: Daemon, d': Daemon, t: Id, verdict: Verdict, due: nat, post: seq<Cmd>, x: Id)
    requires Moves(d, d', t, verdict, due, post)
    ensures x != t ==> Seen(d', x) == Seen(d, x)
    ensures Seen(d', t) == Card(if verdict.ProcessNow? then Off else On(due), d'.timers[t].period, Auto(d.timers, t))
    ensures d'.queue == d.queue + post && d'.now == d.now
    ensures x != t ==> (x in d'.tracked <==> x in d.tracked) && (x in d.tracked ==> d'.tracked[x] == d.tracked[x])
  {
    hide ListOk, Low;
  }

  lemma CountedCalls(d: Daemon, t: Id, p: Tick)
    requires t in d.tracked
    ensures t in Counted(d.tracked, t, p) && Counted(d.tracked, t, p)[t].calls == d.tracked[t].calls + 1
  {
  }

  lemma ReloadsExact(d: Daemon, d': Daemon, step: Step, t: Id, verdict: Verdict)
    requires Reloads(d, d', t, verdict) && Auto(d.timers, t) && Heads(d, t) && (step.Look? || step.SwitchOne?)
    requires Fires(d, step, t) && (verdict.ProcessNow? <==> !Refiled(d, step, DueAt(d.timers, t) + Period(d.timers, t)))
    ensures Exact(d, step, d')
  {
    var due, p := DueAt(d.timers, t), Period(d.timers, t);
    var post := if verdict.ProcessNow? then [Start(t, Low(due), true, due)] else [];
    assert Running(d, t);
    if t in d.tracked { CountedCalls(d, t, p); }
    hide Moves, Low, Refiled, Running, Auto, Period, DueAt;
    forall x ensures Seen(d', x) == After(d, step, x, Seen(d, x)) { MovesSeen(d, d', t, verdict, due + p, post, x); }
    forall x | x in d.tracked && x in d'.tracked
      ensures d'.tracked[x].calls == d.tracked[x].calls + if Fires(d, step, x) then 1 else 0
    {
      MovesSeen(d, d', t, verdict, due + p, post, x);
    }
    MovesSeen(d, d', t, verdict, due + p, post, t);
  }

  /** A one-shot timer that heads the list is taken out, and that is all. */
  lemma OneShotExact(d: Daemon, d': Daemon, step: Step, t: Id)
    requires Inv(d) && Heads(d, t) && !Auto(d.timers, t) && (step.Look? || step.SwitchOne?) && Fires(d, step, t)
    requires d' == d.(current := Without(d.current, t), tracked := Counted(d.tracked, t, Period(d.timers, t)))
    ensures Exact(d, step, d')
  {
    HeadOut(d, t);
    OnlyAuto(d);
    assert d.queue + [] == d.queue;
    hide Inv, Without, Low, ListOk;
  }

  lemma SampledExact(d: Daemon, d': Daemon, d0: Daemon, t: Id)
    requires d0 == Sampled(d, Commands) && Exact(d0, Look, d') && d.now / WORD == d.seen / WORD && Heads(d, t) && Fires(d, Look, t)
    ensures Exact(d, Look, d')
  {
    hide Low;
    assert forall x :: Seen(d0, x) == Seen(d, x);
    assert forall x :: After(d0, Look, x, Seen(d0, x)) == After(d, Look, x, Seen(d, x));
  }

  /** A step that runs no callback and sends nothing, and leaves every timer where it is. */
  lemma QuietExact(d: Daemon, d': Daemon, step: Step)
    requires step.Advance? || step.Look? || step.SwitchDone?
    requires d.current == [] || !Fires(d, step, d.current[0])
    requires d'.timers == d.timers && d'.tracked == d.tracked && d'.queue == d.queue
    requires forall t :: Running(d', t) <==> Running(d, t)
    requires d'.now == if step.Advance? then d.now + step.ticks else d.now
    ensures Exact(d, step, d')
  {
    assert d.queue + [] == d.queue;
  }

  /** In one epoch the 32-bit comparison of the head tells whether it is due. */
  lemma ExpiredExact(d: Daemon)
    requires Clocks(d) && d.now / WORD == d.seen / WORD && d.current != []
    ensures Expired(d) <==> DueAt(d.timers, d.current[0]) <= d.now
  {
    Split(DueAt(d.timers, d.current[0]));
    Split(d.now);
    assert d.current[0] in d.current;
  }

  lemma LookExact(d: Daemon)
    requires Inv(d) && Enabled(d, Look)
    ensures Exact(d, Look, Apply(d, Look))
  {
    var d', d0 := Apply(d, Look), Sampled(d, Commands);
    Epochs(d);
    if Wrapped(d) {
      hide Inv, Low;
      QuietExact(d, d', Look);
    } else {
      if d.current != [] { ExpiredExact(d); }
      LookTimes(d);
      PlaceKept(d, d0);
      if Expired(d) {
        var t := d.current[0];
        assert t in d.current && Inv(d0);
        hide Clocks, Lists, Phases, TimesOk, Process, Exact;
        ProcessExact(d0, t);
        SampledExact(d, d', d0, t);
      } else {
        hide Inv, Low;
        QuietExact(d, d', Look);
      }
    }
  }

  lemma ProcessExact(d: Daemon, t: Id)
    requires Inv(d) && d.place.Commands? && d.seen == d.now && Heads(d, t) && Value(d.timers, t) <= Low(d.now)
    requires Fires(d, Look, t)
    ensures Exact(d, Look, Process(d, t))
  {
    var due, p := DueAt(d.timers, t), Period(d.timers, t);
    assert t in d.current;
    if Auto(d.timers, t) {
      HeadDue(d, t, d.now);
      assert p > 0 by { HeadOut(d, t); }
      assert Value(d.timers, t) == Low(due);
      var verdict := Judge(Low(due + p), Low(d.now), Low(due), p);
      hide Inv, Lists, Process, Judge, Low, Reloads;
      ProcessReloads(d, t, due, p, verdict);
      Belongs(due, p, d.now);
      hide Exact;
      ReloadsExact(d, Process(d, t), Look, t, verdict);
    } else {
      OneShot(d, t);
      hide Inv, Process, Exact;
      OneShotExact(d, Process(d, t), Look, t);
    }
  }

  lemma SwitchOneExact(d: Daemon)
    requires Inv(d) && Enabled(d, SwitchOne)
    ensures Exact(d, SwitchOne, Apply(d, SwitchOne))
  {
    var t := d.current[0];
    assert t in d.current;
    if Auto(d.timers, t) {
      var due, p := DueAt(d.timers, t), Period(d.timers, t);
      assert p > 0;
      SwitchTimes(d, t);
      hide Inv, Lists, Low, Add32, Exact;
      var verdict := ReloadReloads(d, t, due, p);
      hide Reload, Reloads;
      ReloadsExact(d, Reload(d, t), SwitchOne, t, verdict);
    } else {
      OneShot(d, t);
      hide Inv, Reload, Exact;
      OneShotExact(d, Reload(d, t), SwitchOne, t);
    }
  }

  lemma SwitchDoneExact(d: Daemon)
    requires Enabled(d, SwitchDone)
    ensures Exact(d, SwitchDone, Apply(d, SwitchDone))
  {
    hide Exact, Low;
    QuietExact(d, Apply(d, SwitchDone), SwitchDone);
  }

  lemma ReceiveExact(d: Daemon)
    requires Inv(d) && Enabled(d, Receive)
    ensures Exact(d, Receive, Apply(d, Receive))
  {
    assert NoDup(d.current) && NoDup(d.overflow);
    hide Inv, Exact, NoDup;
    if d.queue == [] { EmptyExact(d); } else { TakenExact(d, Apply(d, Receive)); }
  }

  lemma EmptyExact(d: Daemon)
    requires Enabled(d, Receive) && d.queue == []
    ensures Exact(d, Receive, Apply(d, Receive))
  {
    hide Low;
  }

  lemma TakenExact(d: Daemon, d': Daemon)
    requires d.queue != [] && NoDup(d.current) && NoDup(d.overflow)
    requires d' == d.(queue := d.queue[1..], current := Without(d.current, d.queue[0].t),
      overflow := Without(d.overflow, d.queue[0].t), place := d'.place, seen := d'.seen, last := d'.last)
    ensures Exact(d, Receive, d')
  {
    WithoutItems(d.current, d.queue[0].t);
    WithoutItems(d.overflow, d.queue[0].t);
    assert d'.queue + [] == d'.queue;
    hide Without, NoDup;
    assert forall t :: Running(d', t) <==> Running(d, t) && d.queue[0].t != t;
  }

  // ---- a command is handled ----

  lemma HandleExact(d: Daemon)
    requires Inv(d) && Enabled(d, Handle)
    ensures Exact(d, Handle, Apply(d, Handle))
  {
    hide Exact, Inv, Apply;
    match d.place.cmd {
      case Start(_, _, _, _) => StartExact(d);
      case Stop(_) => StopExact(d);
      case ChangePeriod(_, _) => PeriodExact(d);
    }
  }

  lemma StartExact(d: Daemon)
    requires Inv(d) && Enabled(d, Handle) && d.place.cmd.Start?
    ensures Exact(d, Handle, Apply(d, Handle))
  {
    var cmd, sample, d' := d.place.cmd, d.place.sample, Apply(d, Handle);
    var t, at, p := cmd.t, cmd.at, Period(d.timers, cmd.t);
    var d0 := d.(tracked := Followed(d, t, at, p));
    var verdict := Judge(Low(at + p), Low(sample), Low(at), p);
    hide Inv, Lists, Apply, Judge, Low, Starts, Followed, Add32;
    StartTimes(d, cmd, sample);
    HandledStarts(d, t, cmd.own, at, sample, p, verdict);
    Belongs(at, p, sample);
    hide Exact;
    StartsExact(d, d0, d', t, verdict, at, p);
  }

  lemma StartsExact(d: Daemon, d0: Daemon, d': Daemon, t: Id, verdict: Verdict, at: nat, p: Tick)
    requires d.place.Handling? && d.place.cmd.Start? && d.place.cmd.t == t && d.place.cmd.at == at && p == Period(d.timers, t)
    requires d0 == d.(tracked := Followed(d, t, at, p)) && Starts(d0, d', t, verdict, at, p)
    requires verdict.ProcessNow? <==> at + p <= d.place.sample
    ensures Exact(d, Handle, d')
  {
    var post := Resent(d0, t, verdict, at + p);
    FollowsOnly(d, t, at, p);
    if t in d.tracked { FollowedStays(d, t, at, p); }
    if t in d0.tracked { CountedCalls(d0, t, p); }
    hide Moves, Low, Running, Followed;
    forall x ensures Seen(d', x) == After(d, Handle, x, Seen(d, x)) {
      MovesSeen(d0, d', t, verdict, at + p, post, x);
      assert Seen(d0, x) == Seen(d, x);
    }
    forall x | x in d.tracked && x in d'.tracked
      ensures d'.tracked[x].calls == d.tracked[x].calls + if Fires(d, Handle, x) then 1 else 0
    {
      MovesSeen(d0, d', t, verdict, at + p, post, x);
    }
    MovesSeen(d0, d', t, verdict, at + p, post, t);
  }

  lemma FollowedStays(d: Daemon, t: Id, start: nat, p: Tick)
    requires t in d.tracked
    ensures t in Followed(d, t, start, p) && Followed(d, t, start, p)[t] == d.tracked[t]
  {
  }

  lemma StopExact(d: Daemon)
    requires Inv(d) && Enabled(d, Handle) && d.place.cmd.Stop?
    ensures Exact(d, Handle, Apply(d, Handle))
  {
    var t, d' := d.place.cmd.t, Apply(d, Handle);
    StartTimes(d, d.place.cmd, d.place.sample);
    hide Inv, Lists, Moves;
    InHandMoves(d, d', d.place.cmd, d.place.sample);
    forall x ensures Seen(d', x) == After(d, Handle, x, Seen(d, x)) { MovesSeen(d, d', t, ProcessNow, 0, [], x); }
    assert d.queue + [] == d.queue;
  }

  lemma PeriodExact(d: Daemon)
    requires Inv(d) && Enabled(d, Handle) && d.place.cmd.ChangePeriod?
    ensures Exact(d, Handle, Apply(d, Handle))
  {
    hide Inv, Lists, Apply, Exact;
    PeriodFacts(d, d.place.cmd, d.place.sample);
    PeriodDone(d, d.place.cmd.t, d.place.cmd.period, d.place.sample);
  }

  lemma PeriodFacts(d: Daemon, cmd: Cmd, sample: nat)
    requires Inv(d) && d.place == Handling(sample, cmd) && cmd.ChangePeriod?
    ensures Lists(d) && cmd.t in d.timers && cmd.t !in d.tracked && cmd.period > 0
  {
    hide Inv, Lists;
    StartTimes(d, cmd, sample);
    NotStart(d, cmd, sample);
    PeriodGiven(d, cmd, sample);
  }

  lemma PeriodDone(d: Daemon, t: Id, p: Tick, sample: nat)
    requires Lists(d) && d.place == Handling(sample, ChangePeriod(t, p)) && p > 0 && t in d.timers && t !in d.tracked
    ensures Exact(d, Handle, Apply(d, Handle))
  {
    hide Lists, Moves, Apply, Judge, Low, Followed, Exact;
    var verdict := Judge(Low(sample + p), Low(sample), Low(sample), p);
    NotAtOnce(sample, p);
    PeriodMoves(d, t, p, sample, verdict);
    RefiledExact(d, Apply(d, Handle), verdict);
  }

  lemma NotAtOnce(sample: nat, p: Tick)
    requires p > 0
    ensures !Judge(Low(sample + p), Low(sample), Low(sample), p).ProcessNow?
  {
    Belongs(sample, p, sample);
  }

  lemma RefiledExact(d: Daemon, d': Daemon, verdict: Verdict)
    requires d.place.Handling? && d.place.cmd.ChangePeriod? && d.place.cmd.t !in d.tracked && !verdict.ProcessNow?
    requires var t, p, sample := d.place.cmd.t, d.place.cmd.period, d.place.sample;
      Moves(d, d', t, verdict, sample + p, []) && d'.timers[t].period == p && d'.tracked == Followed(d, t, sample, p)
    ensures Exact(d, Handle, d')
  {
    var t, p, sample := d.place.cmd.t, d.place.cmd.period, d.place.sample;
    FollowsOnly(d, t, sample, p);
    hide Moves, Low, Followed;
    forall x ensures Seen(d', x) == After(d, Handle, x, Seen(d, x)) { MovesSeen(d, d', t, verdict, sample + p, [], x); }
    MovesSeen(d, d', t, verdict, sample + p, [], t);
    assert d.queue + [] == d.queue;
  }

  lemma PeriodGiven(d: Daemon, cmd: Cmd, sample: nat)
    requires Inv(d) && d.place == Handling(sample, cmd) && cmd.ChangePeriod?
    ensures cmd.period > 0
  {
    hide Phases, Clocks, ListOk;
  }

  /** Every step runs exactly the callbacks, files every timer exactly for the time, and sends exactly the commands
      that the reference says. */
  lemma StepExact(d: Daemon, step: Step)
    requires Inv(d) && Enabled(d, step)
    ensures Exact(d, step, Apply(d, step))
  {
    hide Exact, Inv, Apply;
    match step {
      case Advance(n) => AdvanceExact(d, n);
      case User(cmd) => UserExact(d, cmd);
      case Look => LookExact(d);
      case SwitchOne => SwitchOneExact(d);
      case SwitchDone => SwitchDoneExact(d);
      case Receive => ReceiveExact(d);
      case Handle => HandleExact(d);
    }
  }

  lemma AdvanceExact(d: Daemon, n: nat)
    ensures Exact(d, Advance(n), Apply(d, Advance(n)))
  {
    hide Exact;
    QuietExact(d, Apply(d, Advance(n)), Advance(n));
  }

  lemma UserExact(d: Daemon, cmd: Cmd)
    requires Enabled(d, User(cmd))
    ensures Exact(d, User(cmd), Apply(d, User(cmd)))
  {
    hide Low;
  }
}
