/** The timer daemon in the form of timers.c: file-level variables that its functions change in place.
    Each function is proved to take the steps of Timers it stands for: the insertion of a timer, the head
    that has expired, one round of the loop that empties the current list when the tick count has wrapped,
    the whole of that loop, and the switch statement over a command received. What the steps mean for the
    timers is proved of the model. */
module TimersControl {
  import opened Machine
  import opened ListModel
  import opened Timers
  import opened TimersKept
  import opened TimersRuns

  /** How far the timers of a list are, together, from the end of the epoch. */
  ghost function Weight(timers: map<Id, Timer>, l: seq<Id>): nat {
    if l == [] then 0 else WORD - Value(timers, l[0]) + Weight(timers, l[1..])
  }

  lemma {:induction false} WeightParts(timers: map<Id, Timer>, a: seq<Id>, b: seq<Id>)
    ensures Weight(timers, a + b) == Weight(timers, a) + Weight(timers, b)
    decreases |a|
  {
    if a == [] {
      assert a + b == b;
    } else {
      assert (a + b)[1..] == a[1..] + b;
      WeightParts(timers, a[1..], b);
    }
  }

  lemma {:induction false} WeightSame(timers: map<Id, Timer>, timers': map<Id, Timer>, l: seq<Id>)
    requires forall t <- l :: Value(timers', t) == Value(timers, t)
    ensures Weight(timers', l) == Weight(timers, l)
    decreases |l|
  {
    if l != [] {
      assert l[0] in l && forall t :: t in l[1..] ==> t in l;
      WeightSame(timers, timers', l[1..]);
    }
  }

  lemma WeightInserted(timers: map<Id, Timer>, l: seq<Id>, t: Id)
    ensures Weight(timers, Inserted(timers, l, t)) == Weight(timers, l) + WORD - Value(timers, t)
  {
    var k := SearchPos(Keys(timers, l), Value(timers, t));
    WeightParts(timers, l[..k] + [t], l[k..]);
    WeightParts(timers, l[..k], [t]);
    WeightParts(timers, l[..k], l[k..]);
    assert l == l[..k] + l[k..];
    assert Weight(timers, [t]) == WORD - Value(timers, t) by { assert [t][1..] == []; }
  }

  lemma WeightReloaded(timers: map<Id, Timer>, l: seq<Id>, t: Id, v: Tick, due: nat)
    requires l != [] && l[0] == t && NoDup(l) && t in timers && v > Value(timers, t)
    ensures var timers' := SetValue(timers, t, v, due);
      Weight(timers', Inserted(timers', l[1..], t)) < Weight(timers, l)
  {
    var timers' := SetValue(timers, t, v, due);
    forall x | x in l[1..] ensures x != t {}
    WeightSame(timers, timers', l[1..]);
    WeightInserted(timers', l[1..], t);
  }

  /** A round of the loop, with its head taken from the front. */
  lemma ReloadedList(d: Daemon, t: Id, v: Tick)
    requires d.current != [] && d.current[0] == t && v == Add32(Value(d.timers, t), Period(d.timers, t))
    ensures var d1 := d.(current := d.current[1..], tracked := Counted(d.tracked, t, Period(d.timers, t)));
      var timers := SetValue(d.timers, t, v, DueAt(d.timers, t) + Period(d.timers, t));
      Reload(d, t) ==
        if !Auto(d.timers, t) then d1
        else if v > Value(d.timers, t) then d1.(timers := timers, current := Inserted(timers, d1.current, t))
        else d1.(queue := d.queue + [Start(t, Value(d.timers, t), true, DueAt(d.timers, t))])
  {
    assert Without(d.current, t) == d.current[1..];
    hide Without, Inserted, SetValue, Add32, Counted, Value, Period, DueAt, Auto;
  }

  /** Every round of the switching loop brings the timers nearer the end of the epoch. */
  lemma LoopEnds(d: Daemon, t: Id, v: Tick)
    requires d.current != [] && d.current[0] == t && NoDup(d.current)
    requires v == Add32(Value(d.timers, t), Period(d.timers, t))
    ensures Weight(Reload(d, t).timers, Reload(d, t).current) < Weight(d.timers, d.current)
  {
    hide Reload, Inserted, NoDup, SetValue, Add32, Weight;
    ReloadedList(d, t, v);
    if Auto(d.timers, t) && v > Value(d.timers, t) {
      WeightReloaded(d.timers, d.current, t, v, DueAt(d.timers, t) + Period(d.timers, t));
    } else {
      WeightLess(d.timers, d.current);
    }
  }

  lemma WeightLess(timers: map<Id, Timer>, l: seq<Id>)
    requires l != []
    ensures Weight(timers, l[1..]) < Weight(timers, l)
  {
  }

  class TimerTask {
    var timers: map<Id, Timer>
    var currentTimerList: seq<Id>       // pxCurrentTimerList
    var overflowTimerList: seq<Id>      // pxOverflowTimerList
    var timerQueue: seq<Cmd>            // xTimerQueue
    var lastTime: Tick                  // xLastTime
    ghost var place: Place
    ghost var now: nat
    ghost var seen: nat
    ghost var tracked: map<Id, Track>

    ghost function View(): Daemon
      reads this
    {
      Daemon(timers, currentTimerList, overflowTimerList, timerQueue, lastTime, place, now, seen, tracked)
    }

    /** prvInsertTimerInActiveList. `due` is the unbounded time of nextExpiryTime: not in the source. */
    method InsertTimerInActiveList(t: Id, nextExpiryTime: Tick, timeNow: Tick, commandTime: Tick, due: nat)
      returns (processTimerNow: bool)
      requires t in timers
      modifies this`timers, this`currentTimerList, this`overflowTimerList
      ensures var verdict := Judge(nextExpiryTime, timeNow, commandTime, old(timers[t].period));
        View() == InsertTimer(old(View()), t, verdict, nextExpiryTime, due) && processTimerNow == verdict.ProcessNow?
    {
      processTimerNow := false;
      timers := timers[t := timers[t].(value := nextExpiryTime, due := due)];
      if nextExpiryTime <= timeNow {
        if Sub32(timeNow, commandTime) >= timers[t].period {
          processTimerNow := true;
        } else {
          overflowTimerList := Inserted(timers, overflowTimerList, t);
        }
      } else if timeNow < commandTime && nextExpiryTime >= commandTime {
        processTimerNow := true;
      } else {
        currentTimerList := Inserted(timers, currentTimerList, t);
      }
    }

    /** prvProcessExpiredTimer. */
    method ProcessExpiredTimer(nextExpireTime: Tick, timeNow: Tick)
      requires currentTimerList != [] && currentTimerList[0] in timers && timeNow == Low(now)
      requires nextExpireTime == Value(timers, currentTimerList[0])
      modifies this
      ensures View() == Process(old(View()), old(currentTimerList[0]))
    {
      hide Judge, InsertTimer;
      var t := currentTimerList[0];
      currentTimerList := currentTimerList[1..];
      assert currentTimerList == Without(old(currentTimerList), t);
      tracked := Counted(tracked, t, Period(timers, t));     // the callback
      if timers[t].auto {
        var due := timers[t].due;
        var late := InsertTimerInActiveList(t, Add32(nextExpireTime, timers[t].period), timeNow, nextExpireTime,
                                            due + timers[t].period);
        if late {
          timerQueue := timerQueue + [Start(t, nextExpireTime, true, due)];
        }
      }
    }

    /** One round of the loop of prvSwitchTimerLists. */
    method ReloadHead()
      requires currentTimerList != [] && currentTimerList[0] in timers
      modifies this
      ensures View() == Reload(old(View()), old(currentTimerList[0]))
    {
      var t := currentTimerList[0];
      var nextExpireTime, period, due := timers[t].value, timers[t].period, timers[t].due;
      ReloadedList(View(), t, Add32(nextExpireTime, period));
      RecordOf(timers, t);
      hide Reload, Inserted, Counted, Add32, SetValue, Value, Period, DueAt, Auto;
      currentTimerList := currentTimerList[1..];
      tracked := Counted(tracked, t, period);     // the callback
      if timers[t].auto {
        var reloadTime := Add32(nextExpireTime, period);
        if reloadTime > nextExpireTime {
          timers := SetValue(timers, t, reloadTime, due + period);
          currentTimerList := Inserted(timers, currentTimerList, t);
        } else {
          timerQueue := timerQueue + [Start(t, nextExpireTime, true, due)];
        }
      }
    }

    /** The switch statement of prvProcessReceivedCommands. `sample` is the unbounded time of timeNow. */
    method ProcessCommand(cmd: Cmd, timeNow: Tick, sample: nat)
      requires cmd.t in timers && timeNow == Low(sample)
      modifies this
      ensures View() == Handled(old(View()), cmd, sample)
    {
      hide Judge, InsertTimer, Counted, Followed;
      match cmd {
        case Start(t, value, _, at) =>
          var expiry, period := Add32(value, timers[t].period), timers[t].period;
          tracked := Followed(View(), t, at, period);
          var expired := InsertTimerInActiveList(t, expiry, timeNow, value, at + period);
          InsertedRecord(old(View()).(tracked := tracked), t, Judge(expiry, timeNow, value, period), expiry, at + period);
          if expired {
            tracked := Counted(tracked, t, period);     // the callback
            if timers[t].auto {
              timerQueue := timerQueue + [Start(t, expiry, true, at + period)];
            }
          }
        case Stop(_) => {}
        case ChangePeriod(t, period) =>
          tracked := Followed(View(), t, sample, period);
          timers := timers[t := timers[t].(period := period)];
          var expired := InsertTimerInActiveList(t, Add32(timeNow, period), timeNow, timeNow, sample + period);
      }
    }

    /** prvSwitchTimerLists, with the assignment of xLastTime that follows it: it ends, and amounts to some
        number of rounds of the loop and the exchange of the lists. */
    method SwitchTimerLists(timeNow: Tick) returns (ghost rounds: seq<Step>)
      requires Inv(View()) && (place.Switching? || place.SwitchingIdle?) && timeNow == Low(place.sample)
      modifies this
      ensures Inv(View()) && Legal(old(View()), rounds + [SwitchDone])
      ensures View() == Exec(old(View()), rounds + [SwitchDone]) && forall step <- rounds :: step == SwitchOne
    {
      hide Inv, Apply, Legal, Exec;
      rounds := [];
      ghost var d := View();
      Nothing(d);
      while currentTimerList != []
        invariant Inv(View()) && Runs(d, rounds, View()) && place == old(place)
        invariant forall step <- rounds :: step == SwitchOne
        decreases Weight(timers, currentTimerList)
      {
        ghost var d1 := View();
        OneRound(d1);
        StepKept(d1, SwitchOne);
        RunsNext(d, rounds, d1, SwitchOne);
        ReloadHead();
        rounds := rounds + [SwitchOne];
      }
      StepKept(View(), SwitchDone);
      RunsNext(d, rounds, View(), SwitchDone);
      Swapped(View());
      currentTimerList, overflowTimerList := overflowTimerList, currentTimerList;
      lastTime := timeNow;
      seen := place.sample;
      place := if place.Switching? then Handling(place.sample, place.cmd) else Commands;
      RunsTo(d, rounds + [SwitchDone], View());
    }
  }

  lemma InsertedRecord(d: Daemon, t: Id, verdict: Verdict, expiry: Tick, due: nat)
    requires t in d.timers
    ensures var d' := InsertTimer(d, t, verdict, expiry, due);
      t in d'.timers && d'.timers[t] == d.timers[t].(value := expiry, due := due) && d'.tracked == d.tracked && d'.queue == d.queue
  {
    hide Inserted;
  }

  lemma RecordOf(timers: map<Id, Timer>, t: Id)
    requires t in timers
    ensures Value(timers, t) == timers[t].value && Period(timers, t) == timers[t].period
    ensures DueAt(timers, t) == timers[t].due && Auto(timers, t) == timers[t].auto
  {
  }

  lemma OneRound(d: Daemon)
    requires Inv(d) && Enabled(d, SwitchOne)
    ensures d.current[0] in d.timers && Apply(d, SwitchOne) == Reload(d, d.current[0])
    ensures Apply(d, SwitchOne).place == d.place
    ensures var d' := Apply(d, SwitchOne); Weight(d'.timers, d'.current) < Weight(d.timers, d.current)
  {
    var t := d.current[0];
    assert t in d.current && NoDup(d.current);
    hide Inv, Without, Inserted, Weight, NoDup;
    LoopEnds(d, t, Add32(Value(d.timers, t), Period(d.timers, t)));
  }

  lemma Swapped(d: Daemon)
    requires Enabled(d, SwitchDone)
    ensures Apply(d, SwitchDone) == d.(current := d.overflow, overflow := d.current, seen := d.place.sample,
      last := Low(d.place.sample), place := if d.place.Switching? then Handling(d.place.sample, d.place.cmd) else Commands)
  {
  }
}
