/** Every step of the timer daemon keeps every timer in the list of its due time, and every followed timer
    in phase. A timer is followed from the last command on it that took effect, if it reloads itself.
    Between that command and its next callback it is in one of four places: in a start command in the
    queue, in the current list, in the overflow list, or in the daemon's hands. The invariant says for
    each place which boundary of start + k * period is the next one due and how many callbacks have run;
    each step is proved to keep it, for the timer it handles and for all the others. */
module TimersKept {
  import opened Machine
  import opened ListModel
  import opened Timers

  // ---- Lists and queue ----

  lemma {:induction false} CmdsAppend(q: seq<Cmd>, c: Cmd, t: Id)
    ensures CmdsOn(q + [c], t) == CmdsOn(q, t) + if c.t == t then [c] else []
    decreases |q|
  {
    var own := if c.t == t then [c] else [];
    if q == [] {
      assert q + [c] == [c] && [c][1..] == [];
    } else {
      var first := if q[0].t == t then [q[0]] else [];
      assert (q + [c])[0] == q[0] && (q + [c])[1..] == q[1..] + [c];
      CmdsAppend(q[1..], c, t);
      assert CmdsOn(q + [c], t) == first + (CmdsOn(q[1..], t) + own);
    }
  }

  lemma InsertedOk(timers: map<Id, Timer>, l: seq<Id>, t: Id)
    requires NoDup(l) && Rising(timers, l) && t !in l
    ensures var r := Inserted(timers, l, t);
      NoDup(r) && Rising(timers, r) && forall x :: x in r <==> x in l || x == t
  {
    var keys, v, r := Keys(timers, l), Value(timers, t), Inserted(timers, l, t);
    var k := SearchPos(keys, v);
    assert Grown(l, r, k, t);
    GrownMembers(l, r, k, t);
    forall i | 0 <= i < |l| ensures if i < k then Value(timers, l[i]) <= v else Value(timers, l[i]) > v {
      assert keys[i] == Value(timers, l[i]);
      if i >= k { assert keys[k] > v && keys[k] == Value(timers, l[k]) <= Value(timers, l[i]); }
    }
    hide Inserted, NoDup, Value;
    forall i, j | 0 <= i < j < |r| ensures Value(timers, r[i]) <= Value(timers, r[j]) {
      assert i != k ==> r[i] == l[if i < k then i else i - 1];
      assert j != k ==> r[j] == l[if j < k then j else j - 1];
    }
  }

  lemma WithoutRising(timers: map<Id, Timer>, l: seq<Id>, t: Id)
    requires NoDup(l) && Rising(timers, l)
    ensures var r := Without(l, t);
      NoDup(r) && Rising(timers, r) && forall x :: x in r <==> x in l && x != t
  {
    WithoutItems(l, t);
    hide Value, NoDup;
    if t in l {
      var r, k := Without(l, t), IndexOf(l, t);
      hide Without;
      forall i, j | 0 <= i < j < |r| ensures Value(timers, r[i]) <= Value(timers, r[j]) {
        assert r[i] == l[if i < k then i else i + 1] && r[j] == l[if j < k then j else j + 1];
      }
    }
  }

  /** What an insertion changes. */
  lemma InsertFrame(d: Daemon, t: Id, verdict: Verdict, expiry: Tick, due: nat)
    requires ListOk(d.timers, d.current) && ListOk(d.timers, d.overflow) && t in d.timers && t !in d.current && t !in d.overflow
    requires forall x <- d.current :: x !in d.overflow
    ensures var d' := InsertTimer(d, t, verdict, expiry, due);
      && d' == d.(timers := d.timers[t := d.timers[t].(value := expiry, due := due)], current := d'.current,
                  overflow := d'.overflow)
      && ListOk(d'.timers, d'.current) && ListOk(d'.timers, d'.overflow) && (forall x <- d'.current :: x !in d'.overflow)
      && (forall x :: x in d'.current <==> x in d.current || (x == t && verdict.InCurrent?))
      && (forall x :: x in d'.overflow <==> x in d.overflow || (x == t && verdict.InOverflow?))
  {
    var d1 := d.(timers := SetValue(d.timers, t, expiry, due));
    ValuesKept(d.timers, d1.timers, d.current, t);
    ValuesKept(d.timers, d1.timers, d.overflow, t);
    if verdict.InCurrent? { InsertedOk(d1.timers, d.current, t); }
    if verdict.InOverflow? { InsertedOk(d1.timers, d.overflow, t); }
    hide Inserted, NoDup, Rising;
  }

  lemma ValuesKept(timers: map<Id, Timer>, timers': map<Id, Timer>, l: seq<Id>, t: Id)
    requires Rising(timers, l) && t !in l && forall x :: x != t ==> Value(timers', x) == Value(timers, x)
    ensures Rising(timers', l)
  {
    hide Value;
    forall i, j | 0 <= i < j < |l| ensures Value(timers', l[i]) <= Value(timers', l[j]) {
      assert l[i] in l && l[j] in l;
    }
  }

  // ---- Steps that move no timer ----

  /** A step that leaves a timer where it is, and what is known of it. */
  ghost predicate Same(d: Daemon, d': Daemon, x: Id) {
    && (x in d'.tracked <==> x in d.tracked) && (x in d.tracked ==> d'.tracked[x] == d.tracked[x])
    && (x in d'.timers <==> x in d.timers) && (x in d.timers ==> d'.timers[x] == d.timers[x])
    && (x in d'.current <==> x in d.current) && (x in d'.overflow <==> x in d.overflow)
    && CmdsOn(d'.queue, x) == CmdsOn(d.queue, x) && (InHand(d', x) <==> InHand(d, x))
    && (InHand(d, x) ==> d'.place.cmd == d.place.cmd)
  }

  lemma Still(d: Daemon, d': Daemon, x: Id)
    requires Same(d, d', x) && d.now <= d'.now
    ensures x in d.tracked && InPhase(d, x) ==> InPhase(d', x)
    ensures Complete(d, x) ==> Complete(d', x)
  {
  }

  lemma Epochs(d: Daemon)
    requires TimesOk(d) && Frequent(d)
    ensures if Wrapped(d) then d.now / WORD == d.seen / WORD + 1 else d.now / WORD == d.seen / WORD
  {
    SameEpoch(d.seen, d.now);
  }

  lemma AdvanceKept(d: Daemon, n: nat)
    requires Inv(d)
    ensures Inv(Apply(d, Advance(n)))
  {
    var d' := Apply(d, Advance(n));
    hide ListOk;
    forall x ensures (x in d'.tracked ==> InPhase(d', x)) && (x in d'.timers ==> Complete(d', x)) { Still(d, d', x); }
  }

  lemma UserKept(d: Daemon, cmd: Cmd)
    requires Inv(d) && Enabled(d, User(cmd))
    ensures Inv(Apply(d, User(cmd)))
  {
    var d' := Apply(d, User(cmd));
    hide ListOk;
    forall x ensures (x in d'.tracked ==> InPhase(d', x)) && (x in d'.timers ==> Complete(d', x)) {
      CmdsAppend(d.queue, cmd, x);
      if x != cmd.t { Still(d, d', x); }
    }
  }

  /** The daemon moves on, or takes a sample in the epoch it already was in. */
  lemma PlaceKept(d: Daemon, d': Daemon)
    requires Inv(d) && d' == d.(place := d'.place, seen := d'.seen, last := d'.last) && TimesOk(d')
    requires d'.seen / WORD == d.seen / WORD
    requires !(d.place.Switching? || d.place.Handling?) && !(d'.place.Switching? || d'.place.Handling?)
    ensures Inv(d')
  {
    hide ListOk;
    assert Lists(d') && Clocks(d');
    hide Lists, TimesOk, Clocks;
    forall x ensures (x in d'.tracked ==> InPhase(d', x)) && (x in d'.timers ==> Complete(d', x)) { Still(d, d', x); }
  }

  // ---- One timer is moved ----

  /** Timer t leaves its place. It is filed for `due`, or it is in no list and `post` is sent about it. */
  ghost predicate Moves(d: Daemon, d': Daemon, t: Id, verdict: Verdict, due: nat, post: seq<Cmd>) {
    && t in d.timers && t in d'.timers && d'.timers == d.timers[t := d'.timers[t]]
    && d'.timers[t].auto == d.timers[t].auto && d'.timers[t].period > 0
    && (!verdict.ProcessNow? ==> d'.timers[t].due == due && d'.timers[t].value == Low(due))
    && ListOk(d'.timers, d'.current) && ListOk(d'.timers, d'.overflow) && (forall x <- d'.current :: x !in d'.overflow)
    && (forall x :: x != t ==> ((x in d'.current <==> x in d.current) && (x in d'.overflow <==> x in d.overflow)))
    && (t in d'.current <==> verdict.InCurrent?) && (t in d'.overflow <==> verdict.InOverflow?)
    && d'.queue == d.queue + post && d' == d.(timers := d'.timers, current := d'.current, overflow := d'.overflow,
         tracked := d'.tracked, queue := d'.queue, place := d'.place)
    && (forall x :: x != t ==> (x in d'.tracked <==> x in d.tracked) && (x in d.tracked ==> d'.tracked[x] == d.tracked[x]))
    && if d.place.Handling? then d.place.cmd.t == t && d'.place == Commands else d'.place == d.place
  }

  /** `due` is in the epoch of its list. */
  predicate RightList(d: Daemon, verdict: Verdict, due: nat) {
    && (verdict.InCurrent? ==> due / WORD == d.seen / WORD)
    && (verdict.InOverflow? ==> due / WORD == d.seen / WORD + 1)
  }

  /** The command sent is a start that refers to a time past. */
  predicate PostOk(d: Daemon, t: Id, post: seq<Cmd>) {
    post == [] || exists at: nat :: at <= d.now && post == [Start(t, Low(at), true, at)]
  }

  lemma MovedLists(d: Daemon, d': Daemon, t: Id, verdict: Verdict, due: nat, post: seq<Cmd>)
    requires Lists(d) && Moves(d, d', t, verdict, due, post) && PostOk(d, t, post)
    requires d.place.Switching? ==> d.place.cmd.t != t
    ensures Lists(d')
  {
    hide ListOk, Low;
    assert forall x <- d'.timers :: x in d.timers;
    forall c | c in d'.queue ensures CmdOk(d', c) {
      if c in d.queue { assert CmdOk(d, c); }
    }
  }

  lemma MovedClocks(d: Daemon, d': Daemon, t: Id, verdict: Verdict, due: nat, post: seq<Cmd>)
    requires Clocks(d) && Moves(d, d', t, verdict, due, post) && RightList(d, verdict, due)
    ensures Clocks(d')
  {
    hide ListOk, Low;
  }

  lemma MovedTimes(d: Daemon, d': Daemon, t: Id, verdict: Verdict, due: nat, post: seq<Cmd>)
    requires TimesOk(d) && Moves(d, d', t, verdict, due, post)
    ensures TimesOk(d')
  {
    hide ListOk, Low;
  }

  lemma MovedOther(d: Daemon, d': Daemon, t: Id, verdict: Verdict, due: nat, post: seq<Cmd>, x: Id)
    requires Phases(d) && Moves(d, d', t, verdict, due, post) && PostOk(d, t, post) && x != t
    ensures (x in d'.tracked ==> InPhase(d', x)) && (x in d'.timers ==> Complete(d', x))
  {
    if post != [] { CmdsAppend(d.queue, post[0], x); } else { assert d.queue == d.queue + []; }
    hide ListOk, CmdsOn, Low;
    Still(d, d', x);
  }

  lemma MovedKept(d: Daemon, d': Daemon, t: Id, verdict: Verdict, due: nat, post: seq<Cmd>)
    requires Inv(d) && Moves(d, d', t, verdict, due, post) && PostOk(d, t, post) && RightList(d, verdict, due)
    requires d.place.Switching? ==> d.place.cmd.t != t
    requires (t in d'.tracked ==> InPhase(d', t)) && Complete(d', t)
    ensures Inv(d')
  {
    MovedLists(d, d', t, verdict, due, post);
    MovedClocks(d, d', t, verdict, due, post);
    MovedTimes(d, d', t, verdict, due, post);
    hide Lists, Clocks, TimesOk, Moves, InPhase, Complete;
    forall x ensures (x in d'.tracked ==> InPhase(d', x)) && (x in d'.timers ==> Complete(d', x)) {
      if x != t { MovedOther(d, d', t, verdict, due, post, x); }
    }
  }

  /** A timer that is in no list is inserted. */
  lemma InsertMoves(d: Daemon, d1: Daemon, t: Id, verdict: Verdict, due: nat)
    requires Moves(d, d1, t, ProcessNow, 0, [])
    ensures var d' := InsertTimer(d1, t, verdict, Low(due), due);
      && d' == d1.(timers := d'.timers, current := d'.current, overflow := d'.overflow)
      && t in d'.timers && d1.timers[t].period == Period(d1.timers, t) == d'.timers[t].period && Moves(d, d', t, verdict, due, [])
  {
    InsertFrame(d1, t, verdict, Low(due), due);
    hide InsertTimer, ListOk, Low;
  }

  /** A command is sent about it. */
  lemma SentMoves(d: Daemon, d1: Daemon, t: Id, verdict: Verdict, due: nat, cmd: Cmd)
    requires Moves(d, d1, t, verdict, due, [])
    ensures Moves(d, d1.(queue := d1.queue + [cmd]), t, verdict, due, [cmd])
  {
    assert d.queue + [] == d.queue;
    hide ListOk;
  }

  /** Where the insertion puts a timer is where its next boundary belongs. */
  lemma Belongs(command: nat, period: Tick, now: nat)
    requires command <= now < command + WORD && period > 0
    ensures var v, b := Judge(Low(command + period), Low(now), Low(command), period), command + period;
      (v.ProcessNow? <==> b <= now) && (v.InCurrent? ==> b / WORD == now / WORD)
      && (v.InOverflow? ==> b / WORD == now / WORD + 1)
  {
    JudgeExact(command, period, now);
    if command + period > now { SameEpoch(now, command + period); }
  }

  // ---- A boundary is reached ----

  /** One more boundary: start + (calls + 1) * period moves on by a period. */
  lemma NextBoundary(calls: nat, p: int)
    ensures (calls + 1) * p + p == (calls + 2) * p
  {
  }

  /** A timer in a list is not also waiting for a command, if it is followed. */
  lemma InListOnly(d: Daemon, t: Id)
    requires Lists(d) && Phases(d) && t in d.tracked && (t in d.current || t in d.overflow)
    ensures !InHand(d, t) && CmdsOn(d.queue, t) == [] && DueAt(d.timers, t) == d.tracked[t].next
  {
    assert InPhase(d, t);
    hide ListOk;
  }

  /** The callback of an auto-reload timer in the current list runs, and the timer is filed for its next
      boundary, or a command is sent that refers to the boundary just passed. */
  ghost predicate Reloads(d: Daemon, d': Daemon, t: Id, verdict: Verdict) {
    var due, p := DueAt(d.timers, t), Period(d.timers, t);
    && Moves(d, d', t, verdict, due + p, if verdict.ProcessNow? then [Start(t, Low(due), true, due)] else [])
    && d'.tracked == Counted(d.tracked, t, p) && d'.timers[t].period == p
  }

  lemma ReloadsPhase(d: Daemon, d': Daemon, t: Id, verdict: Verdict)
    requires Lists(d) && Phases(d) && t in d.current && Auto(d.timers, t) && Reloads(d, d', t, verdict)
    requires DueAt(d.timers, t) <= d.now
    ensures (t in d'.tracked ==> InPhase(d', t)) && Complete(d', t)
  {
    var due, p := DueAt(d.timers, t), Period(d.timers, t);
    if verdict.ProcessNow? {
      CmdsAppend(d.queue, Start(t, Low(due), true, due), t);
    } else {
      assert d.queue == d.queue + [];
    }
    if t in d.tracked {
      InListOnly(d, t);
      assert InPhase(d, t);
      NextBoundary(d.tracked[t].calls, p);
      hide ListOk, Low, CmdsOn, Lists;
      assert d'.tracked[t].next == due + p && d'.tracked[t].calls == d.tracked[t].calls + 1;
    } else {
      assert Complete(d, t);
      hide ListOk, Low, CmdsOn;
    }
  }

  lemma ReloadsKept(d: Daemon, d': Daemon, t: Id, verdict: Verdict)
    requires Inv(d) && t in d.current && Auto(d.timers, t) && Reloads(d, d', t, verdict) && !d.place.Handling?
    requires DueAt(d.timers, t) <= d.now && RightList(d, verdict, DueAt(d.timers, t) + Period(d.timers, t))
    ensures Inv(d')
  {
    var due, p := DueAt(d.timers, t), Period(d.timers, t);
    ReloadsPhase(d, d', t, verdict);
    assert d.place.Switching? ==> d.place.cmd.t != t;
    hide Inv, Moves, Low;
    MovedKept(d, d', t, verdict, due + p, if verdict.ProcessNow? then [Start(t, Low(due), true, due)] else []);
  }

  lemma HeadOut(d: Daemon, t: Id)
    requires Lists(d) && t in d.current
    ensures var d1 := d.(current := Without(d.current, t));
      && ListOk(d1.timers, d1.current) && ListOk(d1.timers, d1.overflow) && t in d.timers && t !in d1.current && t !in d1.overflow
      && d.timers[t].period > 0 && (forall x <- d1.current :: x !in d1.overflow)
      && (forall x :: x in d1.current <==> x in d.current && x != t)
  {
    WithoutRising(d.timers, d.current, t);
    hide NoDup, Rising, Without;
  }

  /** The head leaves the current list, and its callback runs. */
  lemma HeadMoves(d: Daemon, t: Id)
    requires Lists(d) && t in d.current && !d.place.Handling?
    ensures var p, d1 := Period(d.timers, t), d.(current := Without(d.current, t));
      && p > 0 && t in d.timers && Moves(d, d1, t, ProcessNow, 0, [])
      && Moves(d, d1.(tracked := Counted(d.tracked, t, p)), t, ProcessNow, 0, [])
  {
    HeadOut(d, t);
    assert d.queue == d.queue + [] && d.timers == d.timers[t := d.timers[t]];
    hide ListOk, Without;
  }

  /** prvProcessExpiredTimer on an auto-reload timer, written in one piece. */
  lemma ProcessUnfold(d: Daemon, t: Id, due: nat, p: Tick, verdict: Verdict)
    requires Auto(d.timers, t) && due == DueAt(d.timers, t) && p == Period(d.timers, t) && Value(d.timers, t) == Low(due)
    requires verdict == Judge(Low(due + p), Low(d.now), Low(due), p)
    ensures var d1 := d.(current := Without(d.current, t), tracked := Counted(d.tracked, t, p));
      var d2 := InsertTimer(d1, t, verdict, Low(due + p), due + p);
      Process(d, t) == if verdict.ProcessNow? then d2.(queue := d2.queue + [Start(t, Low(due), true, due)]) else d2
  {
    Added(due, p);
    hide InsertTimer, Judge, Low, Without, Counted, Add32;
  }

  /** The verdict of prvProcessExpiredTimer. */
  lemma ProcessReloads(d: Daemon, t: Id, due: nat, p: Tick, verdict: Verdict)
    requires Lists(d) && t in d.current && Auto(d.timers, t) && !d.place.Handling?
    requires due == DueAt(d.timers, t) && p == Period(d.timers, t) && Value(d.timers, t) == Low(due)
    requires verdict == Judge(Low(due + p), Low(d.now), Low(due), p)
    ensures Reloads(d, Process(d, t), t, verdict)
  {
    hide InsertTimer, Judge, Without, Lists, Low, Moves, Counted, Process;
    HeadMoves(d, t);
    ProcessUnfold(d, t, due, p, verdict);
    var d1 := d.(current := Without(d.current, t), tracked := Counted(d.tracked, t, p));
    InsertMoves(d, d1, t, verdict, due + p);
    if verdict.ProcessNow? {
      SentMoves(d, InsertTimer(d1, t, verdict, Low(due + p), due + p), t, verdict, due + p, Start(t, Low(due), true, due));
    }
  }

  /** The head of the current list, when its value has been reached. */
  lemma HeadDue(d: Daemon, t: Id, now: nat)
    requires Clocks(d) && t in d.current && now / WORD == d.seen / WORD && Value(d.timers, t) <= Low(now)
    ensures DueAt(d.timers, t) <= now < DueAt(d.timers, t) + WORD
  {
    Split(DueAt(d.timers, t));
    Split(now);
  }

  lemma ProcessKept(d: Daemon, t: Id)
    requires Inv(d) && d.place.Commands? && d.seen == d.now && t in d.current
    requires Value(d.timers, t) <= Low(d.now) && Auto(d.timers, t)
    ensures Inv(Process(d, t))
  {
    var due, p := DueAt(d.timers, t), Period(d.timers, t);
    HeadDue(d, t, d.now);
    assert p > 0 by { HeadOut(d, t); }
    var verdict := Judge(Low(due + p), Low(d.now), Low(due), p);
    ProcessReloads(d, t, due, p, verdict);
    Belongs(due, p, d.now);
    hide Process, Judge, Inv, Reloads, Low;
    ReloadsKept(d, Process(d, t), t, verdict);
  }

  lemma OnlyAuto(d: Daemon)
    requires Phases(d)
    ensures forall x <- d.tracked :: Auto(d.timers, x)
  {
    forall x | x in d.tracked ensures Auto(d.timers, x) { assert InPhase(d, x); }
  }

  /** A one-shot timer is done. */
  lemma OneShotGone(d: Daemon, t: Id)
    requires Inv(d) && t in d.current && !Auto(d.timers, t) && !d.place.Handling?
    ensures Inv(d.(current := Without(d.current, t), tracked := Counted(d.tracked, t, Period(d.timers, t))))
  {
    HeadMoves(d, t);
    OnlyAuto(d);
    assert d.place.Switching? ==> d.place.cmd.t != t;
    hide Inv, Moves, Without;
    MovedKept(d, d.(current := Without(d.current, t)), t, ProcessNow, 0, []);
  }

  lemma OneShot(d: Daemon, t: Id)
    requires !Auto(d.timers, t)
    ensures Process(d, t) == d.(current := Without(d.current, t), tracked := Counted(d.tracked, t, Period(d.timers, t)))
    ensures Reload(d, t) == d.(current := Without(d.current, t), tracked := Counted(d.tracked, t, Period(d.timers, t)))
  {
  }

  lemma LookTimes(d: Daemon)
    requires Inv(d) && Enabled(d, Look)
    ensures if Wrapped(d) then TimesOk(d.(place := SwitchingIdle(d.now)))
            else d.now / WORD == d.seen / WORD && TimesOk(Sampled(d, Commands))
  {
    Epochs(d);
  }

  lemma LookKept(d: Daemon)
    requires Inv(d) && Enabled(d, Look)
    ensures Inv(Apply(d, Look))
  {
    hide Inv, Process, TimesOk;
    LookTimes(d);
    if Wrapped(d) {
      PlaceKept(d, d.(place := SwitchingIdle(d.now)));
    } else {
      var d0 := Sampled(d, Commands);
      PlaceKept(d, d0);
      if Expired(d) {
        var t := d.current[0];
        if Auto(d.timers, t) {
          ProcessKept(d0, t);
        } else {
          OneShotGone(d0, t);
          OneShot(d0, t);
        }
      }
    }
  }

  // ---- Switching the lists ----

  lemma SwitchTimes(d: Daemon, t: Id)
    requires TimesOk(d) && Clocks(d) && Enabled(d, SwitchOne) && t in d.current && Period(d.timers, t) > 0
    ensures var v, due, p := Value(d.timers, t), DueAt(d.timers, t), Period(d.timers, t);
      && due <= d.now && v == Low(due) && Add32(v, p) == Low(due + p)
      && (Add32(v, p) > v <==> (due + p) / WORD == d.seen / WORD)
  {
    var due, p := DueAt(d.timers, t), Period(d.timers, t);
    SameEpoch(due, due + p);
    Added(due, p);
    Split(due);
    Split(d.place.sample);
  }

  /** A round of the loop of prvSwitchTimerLists on an auto-reload timer, written in one piece. */
  lemma ReloadUnfold(d: Daemon, t: Id, due: nat, p: Tick)
    requires Auto(d.timers, t) && due == DueAt(d.timers, t) && p == Period(d.timers, t) && Value(d.timers, t) == Low(due)
    requires Add32(Low(due), p) == Low(due + p)
    ensures var d1 := d.(current := Without(d.current, t), tracked := Counted(d.tracked, t, p));
      Reload(d, t) == if Low(due + p) > Low(due) then InsertTimer(d1, t, InCurrent, Low(due + p), due + p)
                      else d1.(queue := d1.queue + [Start(t, Low(due), true, due)])
    ensures p == d.timers[t].period
  {
    hide InsertTimer, Without, Counted, Add32, Low;
  }

  lemma OutAnyway(d: Daemon, d1: Daemon, t: Id, due: nat)
    requires Moves(d, d1, t, ProcessNow, 0, [])
    ensures Moves(d, d1, t, ProcessNow, due, []) && d1.timers[t].period == Period(d1.timers, t)
  {
  }

  lemma ReloadReloads(d: Daemon, t: Id, due: nat, p: Tick) returns (verdict: Verdict)
    requires Lists(d) && t in d.current && Auto(d.timers, t) && !d.place.Handling?
    requires due == DueAt(d.timers, t) && p == Period(d.timers, t) && Value(d.timers, t) == Low(due)
    requires Add32(Low(due), p) == Low(due + p)
    ensures verdict == (if Low(due + p) > Low(due) then InCurrent else ProcessNow) && Reloads(d, Reload(d, t), t, verdict)
  {
    hide InsertTimer, Without, Lists, Low, Moves, Counted, Reload, Add32;
    verdict := if Low(due + p) > Low(due) then InCurrent else ProcessNow;
    HeadMoves(d, t);
    var d1 := d.(current := Without(d.current, t), tracked := Counted(d.tracked, t, p));
    ReloadUnfold(d, t, due, p);
    if verdict.InCurrent? {
      InsertMoves(d, d1, t, verdict, due + p);
    } else {
      OutAnyway(d, d1, t, due + p);
      SentMoves(d, d1, t, verdict, due + p, Start(t, Low(due), true, due));
    }
  }

  lemma SwitchOneKept(d: Daemon)
    requires Inv(d) && Enabled(d, SwitchOne)
    ensures Inv(Apply(d, SwitchOne))
  {
    var t := d.current[0];
    assert t in d.current;
    if Auto(d.timers, t) {
      assert Period(d.timers, t) > 0;
      SwitchTimes(d, t);
      var verdict := ReloadReloads(d, t, DueAt(d.timers, t), Period(d.timers, t));
      hide Reload, Inv, Reloads, Low;
      ReloadsKept(d, Reload(d, t), t, verdict);
    } else {
      OneShot(d, t);
      OneShotGone(d, t);
    }
  }

  lemma SwitchDoneKept(d: Daemon)
    requires Inv(d) && Enabled(d, SwitchDone)
    ensures Inv(Apply(d, SwitchDone))
  {
    var d' := Apply(d, SwitchDone);
    assert ListOk(d.timers, []);
    hide ListOk, Low, CmdsOn;
    assert Lists(d') && TimesOk(d') && Clocks(d');
    forall x ensures (x in d'.tracked ==> InPhase(d', x)) && (x in d'.timers ==> Complete(d', x)) {
      if x in d.tracked { assert InPhase(d, x); }
      if x in d.timers { assert Complete(d, x); }
    }
  }

  // ---- Commands ----

  /** A command is taken from the queue, and its timer from the lists. */
  ghost predicate Taken(d: Daemon, d': Daemon) {
    && d.queue != [] && d' == d.(queue := d.queue[1..], current := Without(d.current, d.queue[0].t),
         overflow := Without(d.overflow, d.queue[0].t), place := d'.place, seen := d'.seen, last := d'.last)
    && (d'.place.Switching? || d'.place.Handling?) && d'.place.cmd == d.queue[0] && d'.place.sample == d.now
    && d'.seen / WORD == d.seen / WORD
  }

  lemma TakenPhase(d: Daemon, d': Daemon, x: Id)
    requires Inv(d) && d.place.Commands? && Taken(d, d')
    ensures (x in d'.tracked ==> InPhase(d', x)) && (x in d'.timers ==> Complete(d', x))
  {
    var t := d.queue[0].t;
    WithoutItems(d.current, t);
    WithoutItems(d.overflow, t);
    if x in d.tracked { assert InPhase(d, x); }
    assert CmdsOn(d.queue, x) == (if t == x then [d.queue[0]] else []) + CmdsOn(d.queue[1..], x);
    if x != t {
      hide ListOk, Without, Placed;
      if x in d.timers { assert Complete(d, x); }
      Still(d, d', x);
    } else {
      assert CmdsOn(d.queue, t)[0] == d.queue[0];
      hide ListOk, Without, CmdsOn, Low;
    }
  }

  lemma TakenLists(d: Daemon, d': Daemon)
    requires Lists(d) && Taken(d, d')
    ensures Lists(d')
  {
    WithoutRising(d.timers, d.current, d.queue[0].t);
    WithoutRising(d.timers, d.overflow, d.queue[0].t);
    hide NoDup, Rising, Without;
    assert forall cmd :: cmd in d'.queue ==> cmd in d.queue;
    assert d.queue[0] in d.queue;
  }

  lemma TakenClocks(d: Daemon, d': Daemon)
    requires Lists(d) && Clocks(d) && Taken(d, d') && Timely(d, d.queue[0])
    ensures Clocks(d')
  {
    WithoutItems(d.current, d.queue[0].t);
    WithoutItems(d.overflow, d.queue[0].t);
    assert d.queue[0] in d.queue;
    hide Low, Without;
  }

  lemma ReceiveKept(d: Daemon)
    requires Inv(d) && Enabled(d, Receive)
    ensures Inv(Apply(d, Receive))
  {
    var d' := Apply(d, Receive);
    if d.queue == [] {
      PlaceKept(d, d');
    } else {
      Epochs(d);
      TakenLists(d, d');
      TakenClocks(d, d');
      assert TimesOk(d') && Taken(d, d');
      hide Lists, Clocks, TimesOk, Taken, Apply;
      forall x ensures (x in d'.tracked ==> InPhase(d', x)) && (x in d'.timers ==> Complete(d', x)) {
        TakenPhase(d, d', x);
      }
    }
  }

  /** A timer starts being followed when its last command is handled. */
  lemma FollowedKept(d: Daemon, cmd: Cmd, sample: nat)
    requires Inv(d) && d.place == Handling(sample, cmd) && cmd.Start?
    ensures Inv(d.(tracked := Followed(d, cmd.t, cmd.at, Period(d.timers, cmd.t))))
  {
    var d' := d.(tracked := Followed(d, cmd.t, cmd.at, Period(d.timers, cmd.t)));
    assert Lists(d') && Clocks(d') && TimesOk(d');
    hide ListOk, Low, Clocks;
    forall x ensures (x in d'.tracked ==> InPhase(d', x)) && (x in d'.timers ==> Complete(d', x)) {
      if x != cmd.t { Still(d, d', x); } else if x in d.tracked { assert InPhase(d, x); }
    }
  }

  /** A start command is handled: the timer is filed for `at` + period, or its callback runs at once and, if
      it reloads, a command is sent that refers to the boundary just passed. */
  ghost predicate Starts(d: Daemon, d': Daemon, t: Id, verdict: Verdict, at: nat, p: Tick) {
    && Period(d.timers, t) == p && Moves(d, d', t, verdict, at + p, Resent(d, t, verdict, at + p))
    && d'.tracked == (if verdict.ProcessNow? then Counted(d.tracked, t, p) else d.tracked) && d'.timers[t].period == p
  }

  function Resent(d: Daemon, t: Id, verdict: Verdict, due: nat): seq<Cmd> {
    if verdict.ProcessNow? && Auto(d.timers, t) then [Start(t, Low(due), true, due)] else []
  }

  /** The timer of the command in hand is in no list. */
  lemma InHandMoves(d: Daemon, d': Daemon, cmd: Cmd, sample: nat)
    requires Lists(d) && d.place == Handling(sample, cmd) && d' == d.(place := Commands, tracked := d'.tracked)
    requires forall x :: x != cmd.t ==> (x in d'.tracked <==> x in d.tracked) && (x in d.tracked ==> d'.tracked[x] == d.tracked[x])
    ensures Moves(d, d', cmd.t, ProcessNow, 0, [])
  {
    assert d.queue == d.queue + [] && d.timers == d.timers[cmd.t := d.timers[cmd.t]];
    hide ListOk;
  }

  lemma InsertCounted(d: Daemon, t: Id, verdict: Verdict, expiry: Tick, due: nat, k: map<Id, Track>)
    ensures InsertTimer(d, t, verdict, expiry, due).(tracked := k) == InsertTimer(d.(tracked := k), t, verdict, expiry, due)
    ensures InsertTimer(d, t, verdict, expiry, due).tracked == d.tracked
  {
    hide Inserted, SetValue;
  }

  /** What is known of t when its command has been handled. */
  function Reckoned(d: Daemon, t: Id, verdict: Verdict, at: nat, p: Tick): map<Id, Track> {
    if verdict.ProcessNow? then Counted(Followed(d, t, at, p), t, p) else Followed(d, t, at, p)
  }

  /** prvProcessReceivedCommands on a start, written in one piece. */
  lemma StartUnfold(d: Daemon, t: Id, own: bool, at: nat, sample: nat, p: Tick, verdict: Verdict)
    requires d.place == Handling(sample, Start(t, Low(at), own, at)) && p == Period(d.timers, t)
    requires verdict == Judge(Low(at + p), Low(sample), Low(at), p)
    ensures var d2 := InsertTimer(d.(place := Commands, tracked := Reckoned(d, t, verdict, at, p)), t, verdict,
                                  Low(at + p), at + p);
      Apply(d, Handle) == if verdict.ProcessNow? && Auto(d.timers, t)
                          then d2.(queue := d2.queue + [Start(t, Low(at + p), true, at + p)]) else d2
  {
    Added(at, p);
    var k := Followed(d, t, at, p);
    assert Followed(d.(place := Commands), t, at, p) == k;
    InsertCounted(d.(place := Commands, tracked := k), t, verdict, Low(at + p), at + p, Counted(k, t, p));
    hide InsertTimer, Judge, Low, Followed, Counted, Add32;
  }

  lemma SameLists(d: Daemon, d': Daemon)
    requires Lists(d) && d' == d.(tracked := d'.tracked)
    ensures Lists(d')
  {
    hide ListOk;
  }

  lemma ReckonedOther(d: Daemon, t: Id, verdict: Verdict, at: nat, p: Tick)
    ensures var k, k' := Followed(d, t, at, p), Reckoned(d, t, verdict, at, p);
      forall x :: x != t ==> (x in k' <==> x in k) && (x in k ==> k'[x] == k[x])
  {
  }

  lemma HandledStarts(d: Daemon, t: Id, own: bool, at: nat, sample: nat, p: Tick, verdict: Verdict)
    requires Lists(d) && d.place == Handling(sample, Start(t, Low(at), own, at)) && p == Period(d.timers, t)
    requires verdict == Judge(Low(at + p), Low(sample), Low(at), p)
    ensures Starts(d.(tracked := Followed(d, t, at, p)), Apply(d, Handle), t, verdict, at, p)
  {
    hide InsertTimer, Judge, Lists, Low, Followed, Moves, Counted, Apply, Add32;
    StartUnfold(d, t, own, at, sample, p, verdict);
    ReckonedOther(d, t, verdict, at, p);
    var d0, d1 := d.(tracked := Followed(d, t, at, p)), d.(place := Commands, tracked := Reckoned(d, t, verdict, at, p));
    SameLists(d, d0);
    InHandMoves(d0, d1, Start(t, Low(at), own, at), sample);
    InsertMoves(d0, d1, t, verdict, at + p);
    if verdict.ProcessNow? && Auto(d.timers, t) {
      SentMoves(d0, InsertTimer(d1, t, verdict, Low(at + p), at + p), t, verdict, at + p, Start(t, Low(at + p), true, at + p));
    }
  }

  lemma StartsPhase(d: Daemon, d': Daemon, cmd: Cmd, sample: nat, verdict: Verdict, p: Tick)
    requires Phases(d) && d.place == Handling(sample, cmd) && cmd.Start? && Starts(d, d', cmd.t, verdict, cmd.at, p)
    requires verdict.ProcessNow? ==> cmd.at + p <= d.now
    requires Auto(d.timers, cmd.t) ==> cmd.t in d.tracked || CmdsOn(d.queue, cmd.t) != []
    ensures (cmd.t in d'.tracked ==> InPhase(d', cmd.t)) && Complete(d', cmd.t)
  {
    var t, at := cmd.t, cmd.at;
    if verdict.ProcessNow? && Auto(d.timers, t) {
      CmdsAppend(d.queue, Start(t, Low(at + p), true, at + p), t);
    } else {
      assert d.queue == d.queue + [];
    }
    if t in d.tracked {
      assert InPhase(d, t);
      NextBoundary(d.tracked[t].calls, p);
      hide ListOk, Low, CmdsOn;
    } else {
      hide ListOk, Low, CmdsOn;
    }
  }

  lemma StartTimes(d: Daemon, cmd: Cmd, sample: nat)
    requires Inv(d) && d.place == Handling(sample, cmd)
    ensures Lists(d) && d.seen == sample <= d.now && cmd.t in d.timers && d.timers[cmd.t].period > 0
    ensures cmd.Start? ==> cmd.at <= sample < cmd.at + WORD && cmd.value == Low(cmd.at)
  {
    hide ListOk;
  }

  /** Unless other commands on it are waiting, an auto-reload timer is followed from then on. */
  lemma AtOnce(d: Daemon, t: Id, start: nat, p: Tick)
    ensures Auto(d.timers, t) ==> t in Followed(d, t, start, p) || CmdsOn(d.queue, t) != []
  {
  }

  lemma StartKept(d: Daemon, cmd: Cmd, sample: nat)
    requires Inv(d) && d.place == Handling(sample, cmd) && cmd.Start?
    ensures Inv(Apply(d, Handle))
  {
    var t, at, p := cmd.t, cmd.at, Period(d.timers, cmd.t);
    hide Inv, Lists, Apply, Judge, Low, Starts, Followed, Add32;
    StartTimes(d, cmd, sample);
    AtOnce(d, t, at, p);
    FollowedKept(d, cmd, sample);
    var verdict := Judge(Low(at + p), Low(sample), Low(at), p);
    HandledStarts(d, t, cmd.own, at, sample, p, verdict);
    Belongs(at, p, sample);
    StartsMove(d.(tracked := Followed(d, t, at, p)), Apply(d, Handle), cmd, sample, verdict, p);
  }

  lemma StartsMove(d: Daemon, d': Daemon, cmd: Cmd, sample: nat, verdict: Verdict, p: Tick)
    requires Inv(d) && d.place == Handling(sample, cmd) && cmd.Start? && Starts(d, d', cmd.t, verdict, cmd.at, p)
    requires (verdict.ProcessNow? ==> cmd.at + p <= d.now) && RightList(d, verdict, cmd.at + p)
    requires Auto(d.timers, cmd.t) ==> cmd.t in d.tracked || CmdsOn(d.queue, cmd.t) != []
    ensures Inv(d')
  {
    StartsPhase(d, d', cmd, sample, verdict, p);
    hide Inv, Moves, Low;
    MovedKept(d, d', cmd.t, verdict, cmd.at + p, Resent(d, cmd.t, verdict, cmd.at + p));
  }

  /** A timer is not followed while a stop or a change of its period is handled. */
  lemma NotStart(d: Daemon, cmd: Cmd, sample: nat)
    requires Inv(d) && d.place == Handling(sample, cmd) && !cmd.Start?
    ensures cmd.t !in d.tracked
  {
    assert forall x <- d.tracked :: InPhase(d, x);
    hide ListOk, CmdsOn;
  }

  lemma StopKept(d: Daemon, t: Id, sample: nat)
    requires Inv(d) && d.place == Handling(sample, Stop(t))
    ensures Inv(Apply(d, Handle))
  {
    var d' := Apply(d, Handle);
    NotStart(d, Stop(t), sample);
    InHandMoves(d, d', Stop(t), sample);
    hide Inv, Moves, Apply;
    MovedKept(d, d', t, ProcessNow, 0, []);
  }

  lemma PeriodUnfold(d: Daemon, t: Id, p: Tick, sample: nat, verdict: Verdict)
    requires d.place == Handling(sample, ChangePeriod(t, p)) && t in d.timers
    requires verdict == Judge(Low(sample + p), Low(sample), Low(sample), p)
    ensures Apply(d, Handle) == InsertTimer(d.(timers := d.timers[t := d.timers[t].(period := p)], place := Commands,
                                               tracked := Followed(d, t, sample, p)), t, verdict, Low(sample + p), sample + p)
  {
    Added(sample, p);
    assert Followed(d.(place := Commands), t, sample, p) == Followed(d, t, sample, p);
    hide InsertTimer, Judge, Low, Followed, Add32;
  }

  lemma PeriodMoves(d: Daemon, t: Id, p: Tick, sample: nat, verdict: Verdict)
    requires Lists(d) && d.place == Handling(sample, ChangePeriod(t, p)) && p > 0 && t in d.timers
    requires verdict == Judge(Low(sample + p), Low(sample), Low(sample), p)
    ensures var d' := Apply(d, Handle);
      && Moves(d, d', t, verdict, sample + p, []) && d'.timers[t].period == p && d'.tracked == Followed(d, t, sample, p)
  {
    hide InsertTimer, Judge, Lists, Low, Followed, Moves, Apply;
    var d1 := d.(timers := d.timers[t := d.timers[t].(period := p)], place := Commands, tracked := Followed(d, t, sample, p));
    PeriodUnfold(d, t, p, sample, verdict);
    NewPeriod(d, d1, t, p, sample);
    InsertMoves(d, d1, t, verdict, sample + p);
  }

  lemma NewPeriod(d: Daemon, d1: Daemon, t: Id, p: Tick, sample: nat)
    requires Lists(d) && d.place == Handling(sample, ChangePeriod(t, p)) && p > 0
    requires t in d.timers && d1 == d.(timers := d.timers[t := d.timers[t].(period := p)], place := Commands,
                                       tracked := Followed(d, t, sample, p))
    ensures Moves(d, d1, t, ProcessNow, 0, [])
  {
    SameValues(d.timers, d1.timers, d.current);
    SameValues(d.timers, d1.timers, d.overflow);
    FollowsOnly(d, t, sample, p);
    assert d.queue == d.queue + [];
    hide ListOk, Low, Followed;
  }

  lemma FollowsOnly(d: Daemon, t: Id, start: nat, p: Tick)
    ensures var k := Followed(d, t, start, p);
      forall x :: x != t ==> (x in k <==> x in d.tracked) && (x in d.tracked ==> k[x] == d.tracked[x])
  {
  }

  lemma SameValues(timers: map<Id, Timer>, timers': map<Id, Timer>, l: seq<Id>)
    requires ListOk(timers, l) && timers'.Keys == timers.Keys && forall x :: Value(timers', x) == Value(timers, x)
    ensures ListOk(timers', l)
  {
    hide Value, NoDup;
  }

  lemma ChangePeriodKept(d: Daemon, t: Id, p: Tick, sample: nat)
    requires Inv(d) && d.place == Handling(sample, ChangePeriod(t, p)) && p > 0
    ensures Inv(Apply(d, Handle))
  {
    hide Inv, Lists, Moves, Apply, Judge, Low, InPhase, Complete, Followed;
    StartTimes(d, ChangePeriod(t, p), sample);
    NotStart(d, ChangePeriod(t, p), sample);
    var verdict := Judge(Low(sample + p), Low(sample), Low(sample), p);
    PeriodMoves(d, t, p, sample, verdict);
    Belongs(sample, p, sample);
    PeriodPhase(d, Apply(d, Handle), t, p, sample, verdict);
    MovedKept(d, Apply(d, Handle), t, verdict, sample + p, []);
  }

  lemma PeriodPhase(d: Daemon, d': Daemon, t: Id, p: Tick, sample: nat, verdict: Verdict)
    requires d.place == Handling(sample, ChangePeriod(t, p)) && !verdict.ProcessNow? && sample <= d.now
    requires t !in d.tracked && p > 0
    requires Moves(d, d', t, verdict, sample + p, []) && d'.timers[t].period == p && d'.tracked == Followed(d, t, sample, p)
    ensures (t in d'.tracked ==> InPhase(d', t)) && Complete(d', t)
  {
    assert d.queue == d.queue + [];
    hide ListOk, Low, CmdsOn;
  }

  lemma HandleKept(d: Daemon)
    requires Inv(d) && d.place.Handling?
    ensures Inv(Apply(d, Handle))
  {
    var sample := d.place.sample;
    match d.place.cmd {
      case Start(_, _, _, _) => StartKept(d, d.place.cmd, sample);
      case Stop(t) => StopKept(d, t, sample);
      case ChangePeriod(t, p) => ChangePeriodKept(d, t, p, sample);
    }
  }

  // ---- Every step ----

  lemma StepKept(d: Daemon, step: Step)
    requires Inv(d) && Enabled(d, step)
    ensures Inv(Apply(d, step))
  {
    hide Inv, Apply;
    match step {
      case Advance(n) => AdvanceKept(d, n);
      case User(cmd) => UserKept(d, cmd);
      case Look => LookKept(d);
      case SwitchOne => SwitchOneKept(d);
      case SwitchDone => SwitchDoneKept(d);
      case Receive => ReceiveKept(d);
      case Handle => HandleKept(d);
    }
  }
}
