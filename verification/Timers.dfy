/** The software timer daemon of timers.c. Expiry times are 32-bit tick values kept in two lists that
    change places when the tick counter wraps; commands reach the daemon late, through a queue. */
module Timers {
  import opened Machine
  import opened ListModel

  type Id = nat

  /** Timer_t: period, auto-reload, and the value of its list item. `due` is not in the source: it is the
      unbounded time of that value. */
  datatype Timer = Timer(period: Tick, auto: bool, value: Tick, due: nat)

  /** A message in the command queue. A start is tmrCOMMAND_START or _RESET if a user sends it and
      _START_DONT_TRACE if the daemon does; `at`, the unbounded time of its value, is not in the source. */
  datatype Cmd =
    | Start(t: Id, value: Tick, own: bool, at: nat)
    | Stop(t: Id)                        // tmrCOMMAND_STOP, _DELETE
    | ChangePeriod(t: Id, period: Tick)  // tmrCOMMAND_CHANGE_PERIOD

  /** What the specification knows of a timer since the last command on it took effect: the time that
      command refers to, how often the callback has run since, and the next boundary
      start + (calls + 1) * period. */
  datatype Track = Track(start: nat, calls: nat, next: nat)

  /** Where the daemon is. `sample` is the unbounded time of the tick count it has read. */
  datatype Place =
    | Top                                 // about to look at the timer lists
    | Commands                            // in prvProcessReceivedCommands, about to receive
    | Switching(sample: nat, cmd: Cmd)    // in prvSwitchTimerLists, with a command in hand
    | SwitchingIdle(sample: nat)          // in prvSwitchTimerLists, called from the top
    | Handling(sample: nat, cmd: Cmd)     // with a command in hand and the time sampled

  datatype Daemon = Daemon(
    timers: map<Id, Timer>,
    current: seq<Id>,                     // pxCurrentTimerList
    overflow: seq<Id>,                    // pxOverflowTimerList
    queue: seq<Cmd>,                      // xTimerQueue
    last: Tick,                           // xLastTime
    place: Place,
    now: nat,                             // unbounded tick time
    seen: nat,                            // unbounded time of the last sample whose lists are in place
    tracked: map<Id, Track>
  )

  // ---- prvInsertTimerInActiveList ----

  datatype Verdict = ProcessNow | InCurrent | InOverflow

  function Judge(expiry: Tick, now: Tick, command: Tick, period: Tick): Verdict {
    if expiry <= now then
      if Sub32(now, command) >= period then ProcessNow else InOverflow
    else if now < command && expiry >= command then ProcessNow
    else InCurrent
  }

  /** What it should say, in unbounded time. */
  function Due(boundary: nat, now: nat): Verdict {
    if boundary <= now then ProcessNow
    else if boundary / WORD == now / WORD then InCurrent else InOverflow
  }

  /** The times that 32-bit counters show determine those times, up to whole wraps. */
  lemma SameEpoch(a: nat, b: nat)
    requires a <= b < a + WORD
    ensures b / WORD == a / WORD || b / WORD == a / WORD + 1
    ensures b / WORD == a / WORD <==> Low(a) <= Low(b)
    ensures b / WORD == a / WORD ==> Low(b) - Low(a) == b - a
    ensures b / WORD == a / WORD + 1 ==> Low(b) - Low(a) == b - a - WORD
  {
    Split(a);
    Split(b);
    var q := b / WORD - a / WORD;
    assert b - a == q * WORD + Low(b) - Low(a);
    assert q == 0 || q == 1;
  }

  /** The insertion decides rightly whenever the command is handled less than 2^32 ticks after the time
      it refers to, however the counter has wrapped in between. */
  lemma JudgeExact(command: nat, period: Tick, now: nat)
    requires command <= now < command + WORD && period > 0
    ensures Judge(Low(command + period), Low(now), Low(command), period) == Due(command + period, now)
  {
    var b := command + period;
    SameEpoch(command, now);
    SameEpoch(command, b);
    if b <= now { SameEpoch(b, now); } else { SameEpoch(now, b); }
  }

  /** Handled later than that, it is right exactly when the lateness that shows is at least the period. */
  lemma JudgeLate(command: nat, period: Tick, now: nat)
    requires now >= command + WORD && period > 0
    ensures Judge(Low(command + period), Low(now), Low(command), period) == Due(command + period, now)
      <==> Low(now - command) >= period
  {
    var d := now - command;
    var near := command + Low(d);
    Split(d);
    Split(command); Split(near); Split(now);
    assert Low(now) == Low(near) by { Whole(near, d / WORD); }
    JudgeExact(command, period, near);
  }

  /** And it is wrong then: a timer of five ticks started at 0 and handled at 2^32 + 2 is filed as if it
      were to expire in three ticks. */
  lemma Misjudged()
    ensures var now: nat := WORD + 2;
      Judge(Low(0 + 5), Low(now), Low(0), 5).InCurrent? && Due(0 + 5, now).ProcessNow?
  {
  }

  lemma Whole(a: nat, k: nat)
    ensures Low(a + k * WORD) == Low(a)
  {
  }

  // ---- The daemon ----

  function Value(timers: map<Id, Timer>, t: Id): Tick { if t in timers then timers[t].value else 0 }

  function DueAt(timers: map<Id, Timer>, t: Id): nat { if t in timers then timers[t].due else 0 }

  function Period(timers: map<Id, Timer>, t: Id): Tick { if t in timers then timers[t].period else 0 }

  predicate Auto(timers: map<Id, Timer>, t: Id) { t in timers && timers[t].auto }

  function Keys(timers: map<Id, Timer>, l: seq<Id>): (k: seq<int>)
    ensures |k| == |l|
  {
    seq(|l|, i requires 0 <= i < |l| => Value(timers, l[i]))
  }

  /** vListInsert by item value. */
  function Inserted(timers: map<Id, Timer>, l: seq<Id>, t: Id): seq<Id> {
    var k := SearchPos(Keys(timers, l), Value(timers, t));
    l[..k] + [t] + l[k..]
  }

  function SetValue(timers: map<Id, Timer>, t: Id, v: Tick, due: nat): map<Id, Timer> {
    if t in timers then timers[t := timers[t].(value := v, due := due)] else timers
  }

  function InsertTimer(d: Daemon, t: Id, verdict: Verdict, expiry: Tick, due: nat): Daemon {
    var d1 := d.(timers := SetValue(d.timers, t, expiry, due));
    match verdict
    case ProcessNow => d1
    case InCurrent => d1.(current := Inserted(d1.timers, d.current, t))
    case InOverflow => d1.(overflow := Inserted(d1.timers, d.overflow, t))
  }

  /** The callback of t, of period p, runs. */
  function Counted(tracked: map<Id, Track>, t: Id, p: Tick): map<Id, Track> {
    if t !in tracked then tracked
    else var k := tracked[t]; tracked[t := Track(k.start, k.calls + 1, k.next + p)]
  }

  function Post(d: Daemon, cmd: Cmd): Daemon { d.(queue := d.queue + [cmd]) }

  function Sampled(d: Daemon, place: Place): Daemon { d.(seen := d.now, last := Low(d.now), place := place) }

  datatype Step =
    | Advance(ticks: nat)     // the tick interrupt
    | User(cmd: Cmd)          // a task or interrupt sends a command
    | Look                    // prvProcessTimerOrBlockTask, up to a list switch
    | SwitchOne               // one round of the loop of prvSwitchTimerLists
    | SwitchDone              // the lists change places
    | Receive                 // xQueueReceive, and prvSampleTimeNow up to a list switch
    | Handle                  // the command in hand

  predicate Wrapped(d: Daemon) { Low(d.now) < d.last }

  predicate Expired(d: Daemon) { d.current != [] && Value(d.timers, d.current[0]) <= Low(d.now) }

  /** The daemon finds nothing to do and blocks for a command or the next expiry. */
  predicate Blocks(d: Daemon) { d.place.Top? && !Wrapped(d) && !Expired(d) }

  /** The ticks it blocks for. */
  function BlockTicks(d: Daemon): Tick {
    Sub32(if d.current == [] then 0 else Value(d.timers, d.current[0]), Low(d.now))
  }

  predicate InHand(d: Daemon, t: Id) { (d.place.Switching? || d.place.Handling?) && d.place.cmd.t == t }

  /** The commands on one timer, oldest first. */
  function CmdsOn(queue: seq<Cmd>, t: Id): seq<Cmd> {
    if queue == [] then [] else (if queue[0].t == t then [queue[0]] else []) + CmdsOn(queue[1..], t)
  }

  /** Not running, and no command about it under way. */
  predicate Dormant(d: Daemon, t: Id) {
    t !in d.current && t !in d.overflow && CmdsOn(d.queue, t) == [] && !InHand(d, t)
  }

  /** The daemon samples the time before it can have gone once round. */
  predicate Frequent(d: Daemon) { d.now < d.seen + WORD }

  /** A start command is handled less than 2^32 ticks after the time it refers to. */
  predicate Timely(d: Daemon, cmd: Cmd) { cmd.Start? ==> d.now < cmd.at + WORD }

  predicate Enabled(d: Daemon, step: Step) {
    match step
    case Advance(_) => true
    case User(cmd) =>
      cmd.t in d.timers && (cmd.ChangePeriod? ==> cmd.period > 0)
      && (cmd.Start? ==> !cmd.own && cmd.value == Low(cmd.at) && cmd.at <= d.now)
    case Look => d.place.Top? && Frequent(d)
    case SwitchOne => (d.place.Switching? || d.place.SwitchingIdle?) && d.current != []
    case SwitchDone => (d.place.Switching? || d.place.SwitchingIdle?) && d.current == []
    case Receive => d.place.Commands? && Frequent(d) && (d.queue != [] ==> Timely(d, d.queue[0]))
    case Handle => d.place.Handling?
  }

  /** t is followed from `start` on, if it reloads itself and no other command on it is waiting. */
  function Followed(d: Daemon, t: Id, start: nat, p: Tick): map<Id, Track> {
    if t !in d.tracked && Auto(d.timers, t) && CmdsOn(d.queue, t) == [] then d.tracked[t := Track(start, 0, start + p)]
    else d.tracked
  }

  /** prvProcessExpiredTimer. */
  function Process(d: Daemon, t: Id): Daemon {
    var expiry, due, p := Value(d.timers, t), DueAt(d.timers, t), Period(d.timers, t);
    var d1 := d.(current := Without(d.current, t), tracked := Counted(d.tracked, t, p));
    if !Auto(d.timers, t) then d1 else
    var verdict := Judge(Add32(expiry, p), Low(d.now), expiry, p);
    Reposted(InsertTimer(d1, t, verdict, Add32(expiry, p), due + p), verdict, Start(t, expiry, true, due))
  }

  /** The daemon sends itself a command if the timer was not put in a list. */
  function Reposted(d: Daemon, verdict: Verdict, cmd: Cmd): Daemon {
    if verdict.ProcessNow? then Post(d, cmd) else d
  }

  /** One round of the loop of prvSwitchTimerLists. */
  function Reload(d: Daemon, t: Id): Daemon {
    var expiry, due, p := Value(d.timers, t), DueAt(d.timers, t), Period(d.timers, t);
    var d1 := d.(current := Without(d.current, t), tracked := Counted(d.tracked, t, p));
    if !Auto(d.timers, t) then d1 else
    if Add32(expiry, p) > expiry then InsertTimer(d1, t, InCurrent, Add32(expiry, p), due + p)
    else Post(d1, Start(t, expiry, true, due))
  }

  /** The switch statement of prvProcessReceivedCommands, at the time `sample`. */
  function Handled(d: Daemon, cmd: Cmd, sample: nat): Daemon {
    var now := Low(sample);
    match cmd
    case Start(t, v, _, at) =>
      var p := Period(d.timers, t);
      var verdict := Judge(Add32(v, p), now, v, p);
      var d1 := InsertTimer(d.(tracked := Followed(d, t, at, p)), t, verdict, Add32(v, p), at + p);
      if !verdict.ProcessNow? then d1 else
      var d2 := d1.(tracked := Counted(d1.tracked, t, p));
      if Auto(d.timers, t) then Post(d2, Start(t, Add32(v, p), true, at + p)) else d2
    case Stop(_) => d
    case ChangePeriod(t, p) =>
      var d1 := d.(timers := if t in d.timers then d.timers[t := d.timers[t].(period := p)] else d.timers,
                   tracked := Followed(d, t, sample, p));
      InsertTimer(d1, t, Judge(Add32(now, p), now, now, p), Add32(now, p), sample + p)
  }

  function Apply(d: Daemon, step: Step): Daemon
    requires Enabled(d, step)
  {
    match step
    case Advance(n) => d.(now := d.now + n)
    // a timer with a user command waiting is not followed
    case User(cmd) => Post(d, cmd).(tracked := d.tracked - {cmd.t})
    case Look =>
      if Wrapped(d) then d.(place := SwitchingIdle(d.now))
      else if Expired(d) then Process(Sampled(d, Commands), d.current[0])
      else Sampled(d, Commands)
    case SwitchOne => Reload(d, d.current[0])
    case SwitchDone =>
      var sample := d.place.sample;
      d.(current := d.overflow, overflow := [], seen := sample, last := Low(sample),
         place := if d.place.Switching? then Handling(sample, d.place.cmd) else Commands)
    case Receive =>
      if d.queue == [] then d.(place := Top) else
      var cmd := d.queue[0];
      var d1 := d.(queue := d.queue[1..], current := Without(d.current, cmd.t), overflow := Without(d.overflow, cmd.t));
      if Wrapped(d) then d1.(place := Switching(d.now, cmd)) else Sampled(d1, Handling(d.now, cmd))
    case Handle => Handled(d.(place := Commands), d.place.cmd, d.place.sample)
  }

  // ---- The invariant ----

  predicate Rising(timers: map<Id, Timer>, l: seq<Id>) {
    forall i, j :: 0 <= i < j < |l| ==> Value(timers, l[i]) <= Value(timers, l[j])
  }

  ghost predicate ListOk(timers: map<Id, Timer>, l: seq<Id>) { NoDup(l) && Rising(timers, l) && forall t <- l :: t in timers }

  /** The times the daemon works with. */
  predicate TimesOk(d: Daemon) {
    && d.last == Low(d.seen) && d.seen <= d.now
    && match d.place
       case Switching(sample, _) => sample <= d.now && sample / WORD == d.seen / WORD + 1
       case SwitchingIdle(sample) => sample <= d.now && sample / WORD == d.seen / WORD + 1
       case Handling(sample, _) => sample == d.seen
       case _ => true
  }

  /** The structure of the lists and of the commands. */
  ghost predicate Lists(d: Daemon) {
    && ListOk(d.timers, d.current) && ListOk(d.timers, d.overflow) && (forall t <- d.current :: t !in d.overflow)
    && (forall t <- d.timers :: d.timers[t].period > 0)
    && (forall cmd <- d.queue :: CmdOk(d, cmd))
    && (d.place.Switching? || d.place.Handling? ==>
          CmdOk(d, d.place.cmd) && d.place.cmd.t !in d.current && d.place.cmd.t !in d.overflow)
  }

  predicate CmdOk(d: Daemon, cmd: Cmd) {
    && cmd.t in d.timers && (cmd.ChangePeriod? ==> cmd.period > 0)
    && (cmd.Start? ==> cmd.value == Low(cmd.at) && cmd.at <= d.now)
  }

  /** Every timer is in the list of the epoch of its due time, followed or not. */
  ghost predicate Clocks(d: Daemon) {
    && (forall t <- d.current :: Value(d.timers, t) == Low(DueAt(d.timers, t)) && DueAt(d.timers, t) / WORD == d.seen / WORD)
    && (forall t <- d.overflow ::
          Value(d.timers, t) == Low(DueAt(d.timers, t)) && DueAt(d.timers, t) / WORD == d.seen / WORD + 1)
    && ((d.place.Switching? || d.place.Handling?) && d.place.cmd.Start? ==>
          d.place.cmd.at <= d.place.sample < d.place.cmd.at + WORD)
  }

  predicate Refers(cmd: Cmd, before: nat) { cmd.Start? && cmd.at == before }

  /** Where a followed timer is: in a list, due at its next boundary, or the subject of one start command
      that refers to the boundary before. */
  ghost predicate Placed(d: Daemon, t: Id, next: nat, before: nat) {
    if InHand(d, t) then Refers(d.place.cmd, before) && CmdsOn(d.queue, t) == []
    else if CmdsOn(d.queue, t) != [] then
      |CmdsOn(d.queue, t)| == 1 && Refers(CmdsOn(d.queue, t)[0], before) && t !in d.current && t !in d.overflow
    else (t in d.current || t in d.overflow) && DueAt(d.timers, t) == next
  }

  /** The callback has run once for each boundary up to `calls`, none of them early. */
  ghost predicate InPhase(d: Daemon, t: Id)
    requires t in d.tracked
  {
    var k, p := d.tracked[t], Period(d.timers, t);
    && Auto(d.timers, t) && k.next == k.start + (k.calls + 1) * p && k.next <= d.now + p
    && p <= k.next && Placed(d, t, k.next, k.next - p)
  }

  /** Every auto-reload timer that runs is followed, unless a command on it is waiting. */
  ghost predicate Complete(d: Daemon, t: Id) {
    (t in d.current || t in d.overflow) && Auto(d.timers, t) ==> t in d.tracked || CmdsOn(d.queue, t) != []
  }

  ghost predicate Phases(d: Daemon) {
    (forall t <- d.tracked :: InPhase(d, t)) && forall t <- d.timers :: Complete(d, t)
  }

  ghost predicate Inv(d: Daemon) { TimesOk(d) && Lists(d) && Clocks(d) && Phases(d) }
}
