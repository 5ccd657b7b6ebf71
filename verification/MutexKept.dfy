/** Every critical section of the mutex protocol keeps its invariant: the count of mutexes a task holds is
    right, a task runs above its base priority only while it holds one, waiting tasks are listed by falling
    priority and hold nothing, a holder does not run below a task that waits for its mutex, a mutex that is
    free and wanted has an heir that outranks the rest, and no ready task outranks the running one unless a
    switch is pending. A give that strands a task breaks the last of these, and a task that waits while it
    holds a mutex breaks the third; no other step breaks any. */
module MutexKept {
  import opened ListModel
  import opened Mutex

  /** A step that changes only flags, and the record of task c other than its priority and mutexes. */
  lemma QuietKept(s: Sys, s': Sys, c: Task)
    requires Inv(s) && c in s.tasks
    requires s' == Put(s, c, R(s', c)).(owed := s'.owed)
    requires R(s', c) == R(s, c).(phase := R(s', c).phase, ready := R(s', c).ready)
    requires !R(s, c).phase.Waiting? && !R(s', c).phase.Waiting?
    requires InPhase(s', c) && Preemptive(s')
    requires forall m :: Heir(s, m, c) ==> Owner(s, m).Held?
    ensures Inv(s')
  {
    forall t ensures CountsHeld(s', t) {
      assert CountsHeld(s, t);
      assert Owned(s', t) == Owned(s, t);
    }
    forall t ensures InPhase(s', t) { assert InPhase(s, t); }
    forall m ensures Ordered(s', m) { assert Ordered(s, m); }
    forall m ensures Inherited(s', m) {
      assert Inherited(s, m) && Ordered(s, m);
      if Owner(s, m).Free? && W(s, m) != [] {
        var t :| Heir(s, m, t);
        assert Heir(s', m, t);
      }
    }
  }

  lemma FlagsKept(s: Sys, s': Sys)
    requires Inv(s) && s'.current in s.tasks && Preemptive(s')
    requires s' == s.(current := s'.current, owed := s'.owed)
    ensures Inv(s')
  {
    hide Preemptive, NoDup;
    forall t ensures CountsHeld(s', t) {
      assert CountsHeld(s, t);
      assert Owned(s', t) == Owned(s, t);
    }
    forall t ensures InPhase(s', t) { assert InPhase(s, t); }
    forall m ensures Ordered(s', m) && Inherited(s', m) {
      assert Ordered(s, m) && Inherited(s, m);
      if Owner(s, m).Free? && W(s, m) != [] {
        var t :| Heir(s, m, t);
        assert Heir(s', m, t);
      }
    }
  }

  lemma QuietSteps(s: Sys, step: Step)
    requires Inv(s) && Enabled(s, step)
    requires step.Request? || step.Refuse? || step.Look? || step.Retry? || step.Expire? || step.Test? || step.Sleep? || step.Wake?
    ensures Inv(Apply(s, step))
  {
    hide Ordered, Inherited;
    var s', c := Apply(s, step), if step.Wake? then step.t else s.current;
    assert InPhase(s, c) && CountsHeld(s, c);
    PreemptiveStill(s, s', c);
    forall m ensures Heir(s, m, c) ==> Owner(s, m).Held? {}
    QuietKept(s, s', c);
  }

  lemma OrderedStill(s: Sys, s': Sys, m: MutexId)
    requires Ordered(s, m) && W(s', m) == W(s, m)
    requires forall t :: t in W(s, m) ==> R(s', t).phase == R(s, t).phase && Prio(s', t) == Prio(s, t)
    ensures Ordered(s', m)
  {
    hide NoDup;
  }

  lemma ReleasedFrame(s: Sys, t: Task)
    requires R(s, t).phase.Waiting?
    ensures var s' := Released(s, t);
      && s' == s.(tasks := s'.tasks, waiting := s.waiting[R(s, t).phase.m := Without(W(s, R(s, t).phase.m), t)]) && s'.tasks.Keys == s.tasks.Keys + {t}
      && (forall x :: x != t ==> R(s', x) == R(s, x))
      && R(s', t) == R(s, t).(ready := true, phase := Trying(R(s, t).phase.m, R(s, t).phase.inherited, false))
  {
    hide Without;
  }

  /** A waiting task leaves the list, woken or timed out. */
  lemma ReleasedLists(s: Sys, t: Task)
    requires R(s, t).phase.Waiting? && (forall x :: InPhase(s, x)) && forall m :: Ordered(s, m)
    ensures var s' := Released(s, t);
      (forall x :: InPhase(s', x)) && (forall m :: Ordered(s', m)) && (forall m, x :: x in W(s', m) ==> x in W(s, m))
  {
    var s', m := Released(s, t), R(s, t).phase.m;
    assert InPhase(s, t) && Ordered(s, m);
    WithoutItems(W(s, m), t);
    ReleasedFrame(s, t);
    hide Without, Released;
    forall x ensures InPhase(s', x) { assert InPhase(s, x); }
    hide InPhase;
    DroppedOrdered(s, s', m, t);
    forall n ensures Ordered(s', n) {
      assert Ordered(s, n);
      if n != m {
        assert t !in W(s, n);
        OrderedStill(s, s', n);
      }
    }
  }

  lemma DroppedOrdered(s: Sys, s': Sys, m: MutexId, t: Task)
    requires Ordered(s, m) && t in W(s, m) && W(s', m) == Without(W(s, m), t)
    requires forall x :: x != t ==> R(s', x) == R(s, x)
    ensures Ordered(s', m)
  {
    var l, l' := W(s, m), W(s', m);
    WithoutItems(l, t);
    hide Without;
    var k := IndexOf(l, t);
    forall i, j | 0 <= i < j < |l'| ensures Prio(s', l'[i]) >= Prio(s', l'[j]) {
      assert l'[i] in l' && l'[j] in l';
      assert l'[i] == l[if i < k then i else i + 1] && l'[j] == l[if j < k then j else j + 1];
    }
  }

  /** Preemption, when nobody becomes ready or rises but t, and a switch is asked for if that matters. */
  lemma PreemptiveStill(s: Sys, s': Sys, t: Task)
    requires Preemptive(s) && s'.current == s.current && (s.owed ==> s'.owed)
    requires forall x :: x != t ==> Prio(s', x) == Prio(s, x) && (IsReady(s', x) ==> IsReady(s, x))
    requires Prio(s', s.current) == Prio(s, s.current)
    requires s'.owed || (Me(s').ready && (IsReady(s', t) ==> Prio(s', t) <= Prio(s, s.current)))
    ensures Preemptive(s')
  {
    forall x | IsReady(s', x) && !s'.owed ensures Prio(s', x) <= Prio(s', s.current) {
      if x != t { assert IsReady(s, x); }
    }
  }

  /** Shorter waiting lists keep the holder or heir above them. */
  lemma InheritedStill(s: Sys, s': Sys, m: MutexId)
    requires Inherited(s, m) && Owner(s', m) == Owner(s, m) && s.tasks.Keys <= s'.tasks.Keys
    requires forall x :: x in W(s', m) ==> x in W(s, m) && Prio(s', x) <= Prio(s, x)
    requires Owner(s, m).Held? ==> Prio(s', Owner(s, m).task) >= Prio(s, Owner(s, m).task)
    requires Owner(s, m).Free? ==> forall x :: Heir(s, m, x) ==> R(s', x) == R(s, x)
    ensures Inherited(s', m)
  {
    if Owner(s, m).Free? && W(s', m) != [] {
      assert W(s', m)[0] in W(s, m);
      var x :| Heir(s, m, x);
      assert Heir(s', m, x);
    }
  }

  lemma CountsStill(s: Sys, s': Sys)
    requires (forall t :: CountsHeld(s, t)) && s'.owner == s.owner
    requires forall t :: R(s', t).held == R(s, t).held && R(s', t).base == R(s, t).base
    requires forall t :: R(s', t).prio == R(s, t).prio || (R(s, t).held > 0 && R(s', t).prio >= R(s, t).base)
    ensures forall t :: CountsHeld(s', t)
  {
    forall t ensures CountsHeld(s', t) {
      assert CountsHeld(s, t);
      assert Owned(s', t) == Owned(s, t);
    }
  }

  lemma TimeOutKept(s: Sys, t: Task)
    requires Inv(s) && Enabled(s, TimeOut(t))
    ensures Inv(Apply(s, TimeOut(t)))
  {
    var s1, s' := Released(s, t), Apply(s, TimeOut(t));
    ReleasedLists(s, t);
    ReleasedFrame(s, t);
    assert InPhase(s, t);
    hide Released, Without, NoDup;
    PreemptiveStill(s, s', t);
    hide Preemptive;
    CountsStill(s, s');
    hide CountsHeld;
    forall x ensures InPhase(s', x) { assert InPhase(s1, x); }
    hide InPhase;
    forall m ensures Ordered(s', m) && Inherited(s', m) {
      assert Ordered(s1, m) && Inherited(s, m);
      OrderedStill(s1, s', m);
      InheritedStill(s, s', m);
    }
  }

  /** The running task outranks everyone who waits for a free mutex. */
  lemma FreeOutranked(s: Sys, m: MutexId)
    requires Inv(s) && !s.owed && Owner(s, m).Free?
    ensures Outranks(s, m, Me(s).prio)
  {
    assert Inherited(s, m);
    if W(s, m) != [] {
      var t :| Heir(s, m, t);
      assert InPhase(s, t);
    }
  }

  lemma GrabKept(s: Sys)
    requires Inv(s) && Enabled(s, Grab)
    ensures Inv(Apply(s, Grab))
  {
    var c, m, s' := s.current, Me(s).phase.m, Apply(s, Grab);
    assert InPhase(s, c);
    FreeOutranked(s, m);
    PreemptiveStill(s, s', c);
    hide Preemptive, NoDup;
    forall t ensures CountsHeld(s', t) {
      assert CountsHeld(s, t);
      assert Owned(s', t) == if t == c then Owned(s, t) + {m} else Owned(s, t);
    }
    hide CountsHeld, Owned;
    forall t ensures InPhase(s', t) { assert InPhase(s, t); }
    hide InPhase;
    forall n ensures Ordered(s', n) { assert Ordered(s, n); }
    forall n ensures Inherited(s', n) { GrabInherited(s, n); }
  }

  lemma GrabInherited(s: Sys, n: MutexId)
    requires Enabled(s, Grab) && Inherited(s, n) && (n == Me(s).phase.m ==> Outranks(s, n, Me(s).prio))
    ensures Inherited(Apply(s, Grab), n)
  {
    if n != Me(s).phase.m && Owner(s, n).Free? && W(s, n) != [] {
      var x :| Heir(s, n, x);
      assert Heir(Apply(s, Grab), n, x);
    }
  }

  lemma JoinedItems(s: Sys, m: MutexId)
    requires Ordered(s, m) && !Me(s).phase.Waiting?
    ensures var l := Joined(s, m);
      NoDup(l) && (forall t :: t in l <==> t in W(s, m) || t == s.current)
      && forall i, j :: 0 <= i < j < |l| ==> Prio(s, l[i]) >= Prio(s, l[j])
  {
    var w, l, keys := W(s, m), Joined(s, m), Keys(s, W(s, m));
    var k := SearchPos(keys, 0 - Me(s).prio);
    assert s.current !in w;
    assert Grown(w, l, k, s.current);
    GrownMembers(w, l, k, s.current);
    forall i | 0 <= i < |w| ensures i < k <==> Prio(s, w[i]) >= Me(s).prio {
      assert keys[i] == 0 - Prio(s, w[i]);
      if i >= k { assert keys[k] > 0 - Me(s).prio && Prio(s, w[k]) >= Prio(s, w[i]); }
    }
    hide Joined, NoDup, SearchPos;
    GrownOrdered(s, w, l, k);
  }

  lemma GrownOrdered(s: Sys, w: seq<Task>, l: seq<Task>, k: nat)
    requires Grown(w, l, k, s.current)
    requires forall i, j :: 0 <= i < j < |w| ==> Prio(s, w[i]) >= Prio(s, w[j])
    requires forall i | 0 <= i < |w| :: i < k <==> Prio(s, w[i]) >= Me(s).prio
    ensures forall i, j :: 0 <= i < j < |l| ==> Prio(s, l[i]) >= Prio(s, l[j])
  {
    forall i, j | 0 <= i < j < |l| ensures Prio(s, l[i]) >= Prio(s, l[j]) {
      assert i != k ==> l[i] == w[if i < k then i else i - 1];
      assert j != k ==> l[j] == w[if j < k then j else j - 1];
    }
  }

  lemma OwnerHolds(s: Sys, m: MutexId)
    requires Inv(s) && Owner(s, m).Held?
    ensures var h := Owner(s, m).task;
      h in s.tasks && R(s, h).held >= 1 && R(s, h).base <= R(s, h).prio && !R(s, h).phase.Waiting?
      && (forall n :: n != m && Owner(s, n) == Held(h) ==> R(s, h).held >= 2)
      && (forall n :: h !in W(s, n)) && (forall n :: !Heir(s, n, h))
  {
    var h := Owner(s, m).task;
    assert CountsHeld(s, h) && InPhase(s, h) && Inherited(s, m);
    assert m in Owned(s, h);
    assert |Owned(s, h)| >= |{m}| by { SubsetSize({m}, Owned(s, h)); }
    forall n | n != m && Owner(s, n) == Held(h) ensures R(s, h).held >= 2 {
      SubsetSize({m, n}, Owned(s, h));
    }
    forall n ensures h !in W(s, n) { assert Ordered(s, n); }
  }

  lemma {:induction false} SubsetSize<T>(a: set<T>, b: set<T>)
    requires a <= b
    ensures |a| <= |b|
  {
    if a != {} {
      var x :| x in a;
      SubsetSize(a - {x}, b - {x});
    }
  }

  // ---- Waiting ----

  /** What waiting changes. */
  lemma WaitFrame(s: Sys, m: MutexId, h: Task)
    requires h != s.current && h in s.tasks && s.current in s.tasks
    ensures var s' := Waits(s, m, h);
      && (forall t :: t != h && t != s.current ==> R(s', t) == R(s, t))
      && Me(s') == Me(s).(ready := false, phase := Waiting(m, Inherits(R(s, h), Me(s).prio)))
      && R(s', h) == R(s, h).(prio := if Prio(s, h) < Me(s).prio then Me(s).prio else Prio(s, h))
      && s' == s.(tasks := s'.tasks, waiting := s.waiting[m := Joined(s, m)], owed := true)
      && s'.tasks.Keys == s.tasks.Keys
  {
    hide Joined;
  }

  lemma WaitCounts(s: Sys, m: MutexId, h: Task)
    requires Inv(s) && Me(s).phase.Looked? && Me(s).phase.m == m && Owner(s, m) == Held(h) && Me(s).held == 0
    ensures forall t :: CountsHeld(Waits(s, m, h), t) && InPhase(Waits(s, m, h), t)
  {
    var c, s' := s.current, Waits(s, m, h);
    OwnerHolds(s, m);
    assert InPhase(s, c) && CountsHeld(s, h);
    JoinedItems(s, m) by { assert Ordered(s, m); }
    WaitFrame(s, m, h);
    hide Waits, Joined, Ordered, Inherited;
    CountsStill(s, s');
    hide CountsHeld;
    forall t ensures InPhase(s', t) { assert InPhase(s, t); }
  }

  lemma WaitKept(s: Sys)
    requires Inv(s) && Enabled(s, Wait) && !Nests(s, Wait)
    ensures Inv(Apply(s, Wait))
  {
    var c, m := s.current, Me(s).phase.m;
    var h := Owner(s, m).task;
    var s' := Waits(s, m, h);
    OwnerHolds(s, m);
    WaitCounts(s, m, h);
    JoinedItems(s, m) by { assert Ordered(s, m); }
    WaitFrame(s, m, h);
    assert InPhase(s, c);
    hide Waits, Joined, CountsHeld, InPhase, Apply, Ordered, Inherited;
    forall n ensures Ordered(s', n) && Inherited(s', n) {
      assert Ordered(s, n) && Inherited(s, n);
      if n != m {
        WaitElsewhere(s, s', n, h);
      } else {
        WaitHere(s, s', m, h);
      }
    }
    assert Apply(s, Wait) == s' by { WaitStep(s); }
  }

  lemma WaitElsewhere(s: Sys, s': Sys, n: MutexId, h: Task)
    requires Ordered(s, n) && Inherited(s, n) && W(s', n) == W(s, n) && s'.owner == s.owner
    requires s'.tasks.Keys == s.tasks.Keys && h in s.tasks && h !in W(s, n) && !Heir(s, n, h)
    requires Me(s).phase.Looked? && Prio(s', h) >= Prio(s, h)
    requires Prio(s', s.current) == Prio(s, s.current)
    requires forall t :: t != h && t != s.current ==> R(s', t) == R(s, t)
    ensures Ordered(s', n) && Inherited(s', n)
  {
    forall t | t in W(s, n) ensures t != s.current && t != h {}
    OrderedStill(s, s', n);
    hide Ordered;
    InheritedStill(s, s', n);
  }

  lemma WaitHere(s: Sys, s': Sys, m: MutexId, h: Task)
    requires Ordered(s, m) && Inherited(s, m) && Owner(s', m) == Owner(s, m) == Held(h) && s'.tasks.Keys == s.tasks.Keys
    requires W(s', m) == Joined(s, m) && Me(s).phase.Looked? && h !in W(s, m) && h != s.current
    requires R(s', s.current).phase.Waiting? && R(s', s.current).phase.m == m && Prio(s', s.current) == Me(s).prio
    requires Prio(s', h) >= Prio(s, h) && Prio(s', h) >= Me(s).prio
    requires forall t :: t != h && t != s.current ==> R(s', t) == R(s, t)
    ensures Ordered(s', m) && Inherited(s', m)
  {
    JoinedItems(s, m);
    hide Joined, NoDup;
    var l := W(s', m);
    forall t | t in l ensures t != h && Prio(s', t) == Prio(s, t) && Prio(s', t) <= Prio(s', h) {}
    forall i, j | 0 <= i < j < |l| ensures Prio(s', l[i]) >= Prio(s', l[j]) {
      assert l[i] in l && l[j] in l;
    }
  }

  lemma WaitStep(s: Sys)
    requires Enabled(s, Wait)
    ensures Apply(s, Wait) == Waits(s, Me(s).phase.m, Owner(s, Me(s).phase.m).task)
  {
  }

  // ---- Undoing an inheritance ----

  lemma UndoFrame(s: Sys, s': Sys)
    requires Inv(s) && Enabled(s, Undo) && s' == Apply(s, Undo)
    ensures var c, m := s.current, Me(s).phase.m;
      && s' == s.(tasks := s'.tasks) && s'.tasks.Keys == s.tasks.Keys && m in s.owner && Me(s).held == 0
      && Me(s') == Me(s).(phase := Out)
      && (forall t :: t != c && Owner(s, m) != Held(t) ==> R(s', t) == R(s, t))
      && (Owner(s, m).Held? ==>
        var h := Owner(s, m).task;
        h != c && R(s', h) == Recomputed(R(s, h), HighestWaiting(s, m)) && R(s, h).base <= Prio(s', h) <= Prio(s, h))
  {
    var c, m := s.current, Me(s).phase.m;
    assert InPhase(s, c);
    if Owner(s, m).Held? {
      OwnerHolds(s, m);
      assert Inherited(s, m) && Ordered(s, m);
    }
    hide Ordered, InPhase, CountsHeld, Preemptive;
  }

  lemma UndoKept(s: Sys)
    requires Inv(s) && Enabled(s, Undo)
    ensures Inv(Apply(s, Undo))
  {
    var c, m, s' := s.current, Me(s).phase.m, Apply(s, Undo);
    UndoFrame(s, s');
    var h := if Owner(s, m).Held? then Owner(s, m).task else c;
    if Owner(s, m).Held? { OwnerHolds(s, m); }
    assert InPhase(s, c);
    PreemptiveStill(s, s', h);
    hide Apply, Preemptive, NoDup;
    CountsStill(s, s');
    hide CountsHeld;
    forall t ensures InPhase(s', t) { assert InPhase(s, t); }
    hide InPhase;
    forall n ensures Ordered(s', n) && Inherited(s', n) {
      assert Ordered(s, n) && Inherited(s, n);
      UndoLists(s, s', n, h);
    }
  }

  lemma UndoLists(s: Sys, s': Sys, n: MutexId, h: Task)
    requires Ordered(s, n) && Inherited(s, n) && Me(s).phase.Undoing?
    requires s' == s.(tasks := s'.tasks) && s'.tasks.Keys == s.tasks.Keys
    requires forall t :: t != s.current && t != h ==> R(s', t) == R(s, t)
    requires Me(s').prio == Me(s).prio && Prio(s', h) <= Prio(s, h) && h !in W(s, n) && !Heir(s, n, h)
    requires Owner(s, n) == Held(h) ==>
      Prio(s', h) == (if n == Me(s).phase.m then Recomputed(R(s, h), HighestWaiting(s, n)).prio else Prio(s, h))
    ensures Ordered(s', n) && Inherited(s', n)
  {
    assert s.current !in W(s, n);
    OrderedStill(s, s', n);
    if Owner(s, n) == Held(h) && n == Me(s).phase.m {
      hide NoDup;
    } else {
      hide Ordered, Recomputed;
      InheritedStill(s, s', n);
    }
  }

  // ---- Giving a mutex back ----

  /** The state between disinheriting and waking. */
  function Handed(s: Sys, m: MutexId): Sys {
    Put(s, s.current, Returned(Me(s))).(owner := s.owner[m := Free])
  }

  lemma HandedFrame(s: Sys, m: MutexId)
    requires Inv(s) && Enabled(s, Give(m))
    ensures var s1 := Handed(s, m);
      && s1 == s.(tasks := s1.tasks, owner := s.owner[m := Free]) && s1.tasks.Keys == s.tasks.Keys
      && (forall t :: t != s.current ==> R(s1, t) == R(s, t))
      && Me(s1).held + 1 == Me(s).held
      && Me(s1) == Me(s).(held := Me(s1).held, prio := if Drops(Me(s)) then Me(s).base else Me(s).prio)
      && Prio(s1, s.current) <= Prio(s, s.current) && (Me(s).held >= 2 ==> !Drops(Me(s)))
  {
    OwnerHolds(s, m);
  }

  lemma HandedOwned(s: Sys, m: MutexId, t: Task)
    requires CountsHeld(s, t) && m in s.owner && s.owner[m] == Held(s.current)
    ensures |Owned(s.(owner := s.owner[m := Free]), t)| == R(s, t).held - (if t == s.current then 1 else 0)
  {
    assert Owned(s.(owner := s.owner[m := Free]), t) == if t == s.current then Owned(s, t) - {m} else Owned(s, t);
    if t == s.current { assert m in Owned(s, t); }
  }

  lemma HandedCounts(s: Sys, m: MutexId)
    requires Inv(s) && Enabled(s, Give(m))
    ensures forall t :: CountsHeld(Handed(s, m), t) && InPhase(Handed(s, m), t)
  {
    var s1 := Handed(s, m);
    HandedFrame(s, m);
    OwnerHolds(s, m);
    hide Preemptive, Ordered, Inherited, Handed;
    forall t ensures CountsHeld(s1, t) {
      assert CountsHeld(s, t);
      HandedOwned(s, m, t);
      assert Owned(s1, t) == Owned(s.(owner := s.owner[m := Free]), t);
      hide Owned;
    }
    hide CountsHeld, Owned;
    forall t ensures InPhase(s1, t) { assert InPhase(s, t); }
  }

  lemma HandedLists(s: Sys, m: MutexId)
    requires Inv(s) && Enabled(s, Give(m))
    ensures forall n :: Ordered(Handed(s, m), n) && (n != m ==> Inherited(Handed(s, m), n))
  {
    var c, s1 := s.current, Handed(s, m);
    HandedFrame(s, m);
    OwnerHolds(s, m);
    hide Preemptive, CountsHeld, InPhase, Handed;
    forall n ensures Ordered(s1, n) && (n != m ==> Inherited(s1, n)) {
      assert Ordered(s, n) && Inherited(s, n);
      OrderedStill(s, s1, n);
      hide Ordered;
      if n != m {
        InheritedStill(s, s1, n);
      }
    }
  }

  /** The head of the list is woken, and outranks the rest. */
  lemma HeadWoken(s: Sys, m: MutexId, s': Sys)
    requires (forall t :: CountsHeld(s, t) && InPhase(s, t)) && (forall n :: Ordered(s, n))
    requires (forall n :: n != m ==> Inherited(s, n)) && Owner(s, m).Free? && W(s, m) != []
    requires s' == Released(s, W(s, m)[0]).(owed := s'.owed)
    ensures forall t :: CountsHeld(s', t) && InPhase(s', t)
    ensures forall n :: Ordered(s', n) && Inherited(s', n)
  {
    var head := W(s, m)[0];
    var s1 := Released(s, head);
    assert Ordered(s, m) && InPhase(s, head) && R(s, head).phase.m == m;
    ReleasedLists(s, head);
    ReleasedFrame(s, head);
    hide Released, Without, NoDup;
    CountsStill(s, s');
    hide CountsHeld;
    forall t ensures InPhase(s', t) { assert InPhase(s1, t); }
    hide InPhase;
    forall n ensures Ordered(s', n) {
      assert Ordered(s1, n);
      OrderedStill(s1, s', n);
    }
    HeadOutranks(s, s', m);
    hide Ordered;
    forall n ensures Inherited(s', n) {
      if n == m {
        assert Heir(s', m, head);
      } else {
        InheritedStill(s, s', n);
      }
    }
  }

  lemma HeadOutranks(s: Sys, s': Sys, m: MutexId)
    requires Ordered(s, m) && W(s, m) != [] && (forall x :: x in W(s', m) ==> x in W(s, m))
    requires forall x :: Prio(s', x) == Prio(s, x)
    ensures Outranks(s', m, Prio(s', W(s, m)[0]))
  {
    hide NoDup;
    var l := W(s, m);
    forall t | t in W(s', m) ensures Prio(s', t) <= Prio(s', l[0]) {
      var i :| 0 <= i < |l| && l[i] == t;
      assert i > 0 ==> Prio(s, l[0]) >= Prio(s, l[i]);
    }
  }

  lemma GivePreempts(s: Sys, m: MutexId)
    requires Inv(s) && Enabled(s, Give(m))
    ensures Preemptive(Apply(s, Give(m))) <==> !Strands(s, Give(m))
  {
    var c, s1, s', l := s.current, Handed(s, m), Apply(s, Give(m)), W(s, m);
    HandedFrame(s, m);
    assert s1 == Handed(s, m);
    if l != [] {
      assert Ordered(s, m) && InPhase(s, l[0]);
      assert R(s1, l[0]) == R(s, l[0]);
      ReleasedFrame(s1, l[0]);
    }
    hide Handed, Released, Ordered, CountsHeld, InPhase, Inherited, Drops;
    assert forall x :: x != c && (l == [] || x != l[0]) ==> R(s', x) == R(s, x);
    assert Me(s').prio == Me(s1).prio && Me(s').ready;
    forall t | IsReady(s, t) ensures Prio(s, t) <= Me(s).prio {}
    if s'.owed {
      assert !Strands(s, Give(m));
    } else if Strands(s, Give(m)) {
      var t :| t != c && IsReady(s, t) && Prio(s, t) > Me(s).base;
      assert IsReady(s', t) && Prio(s', t) > Prio(s', c);
    } else {
      forall t | IsReady(s', t) ensures Prio(s', t) <= Prio(s', c) {
        assert t == c || IsReady(s, t) || (l != [] && t == l[0]);
      }
    }
  }

  /** Giving keeps the invariant exactly when it leaves no higher ready task stranded. */
  lemma GiveKept(s: Sys, m: MutexId)
    requires Inv(s) && Enabled(s, Give(m))
    ensures Inv(Apply(s, Give(m))) <==> !Strands(s, Give(m))
  {
    var s1, s' := Handed(s, m), Apply(s, Give(m));
    HandedFrame(s, m);
    HandedCounts(s, m);
    HandedLists(s, m);
    GivePreempts(s, m);
    assert s1 == Handed(s, m);
    if W(s, m) != [] {
      HeadWoken(s1, m, s');
      ReleasedFrame(s1, W(s, m)[0]) by { assert Ordered(s, m); }
      hide Released, Handed, Ordered, CountsHeld, InPhase, Inherited;
    } else {
      assert s' == s1.(owed := s'.owed);
      GivenToNobody(s1, s', m);
    }
  }

  lemma GivenToNobody(s: Sys, s': Sys, m: MutexId)
    requires (forall t :: CountsHeld(s, t) && InPhase(s, t)) && (forall n :: Ordered(s, n))
    requires (forall n :: n != m ==> Inherited(s, n)) && Owner(s, m).Free? && W(s, m) == []
    requires s' == s.(owed := s'.owed)
    ensures forall t :: CountsHeld(s', t) && InPhase(s', t)
    ensures forall n :: Ordered(s', n) && Inherited(s', n)
  {
    CountsStill(s, s');
    hide CountsHeld;
    forall t ensures InPhase(s', t) { assert InPhase(s, t); }
    hide InPhase;
    forall n ensures Ordered(s', n) && Inherited(s', n) {
      assert Ordered(s, n);
      OrderedStill(s, s', n);
      if n != m {
        InheritedStill(s, s', n);
      }
    }
  }

  // ---- Every step ----

  /** Who waits must hold nothing. */
  lemma NestingBreaks(s: Sys)
    requires Enabled(s, Wait) && Nests(s, Wait)
    ensures !Inv(Apply(s, Wait))
  {
    WaitStep(s);
    NestedHolds(s, Me(s).phase.m, Owner(s, Me(s).phase.m).task);
    assert !InPhase(Apply(s, Wait), s.current);
  }

  lemma NestedHolds(s: Sys, m: MutexId, h: Task)
    ensures R(Waits(s, m, h), s.current).phase.Waiting? && R(Waits(s, m, h), s.current).held == Me(s).held
  {
    hide Joined;
  }

  /** Every step keeps the invariant, except exactly a give that strands a ready task and a wait of a task
      that holds a mutex. */
  lemma StepKept(s: Sys, step: Step)
    requires Inv(s) && Enabled(s, step)
    ensures Inv(Apply(s, step)) <==> !Strands(s, step) && !Nests(s, step)
  {
    hide Inv, Apply;
    match step {
      case Grab => GrabKept(s);
      case Wait => if Nests(s, Wait) { NestingBreaks(s); } else { WaitKept(s); }
      case Undo => UndoKept(s);
      case Give(m) => GiveKept(s, m);
      case TimeOut(t) => TimeOutKept(s, t);
      case Share => FlagsStep(s, step);
      case Switch(t) => FlagsStep(s, step);
      case _ => QuietSteps(s, step);
    }
  }

  lemma FlagsStep(s: Sys, step: Step)
    requires Inv(s) && Enabled(s, step) && (step.Share? || step.Switch?)
    ensures Inv(Apply(s, step))
  {
    var s' := Apply(s, step);
    assert Preemptive(s') by {
      forall x | IsReady(s', x) && !s'.owed ensures Prio(s', x) <= Prio(s', s'.current) { assert x in s.tasks; }
    }
    FlagsKept(s, s');
  }
}
