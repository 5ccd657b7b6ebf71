/** What holds of an event group after every run of sets, clears, waits, syncs and time-outs. */
module EventGroupRuns {
  import opened EventBits
  import opened EventGroup

  /** The item of a waiting or timed-out task holds what it asked for, and it asked for some bit. */
  ghost predicate Asks(w: Waiter) { Wanted(w) != 0 }

  ghost predicate ListOk(g: Group) {
    && DistinctTasks(g.waiting)
    && (forall w <- g.waiting :: Asks(w) && !Satisfied(g.bits, w) && w.task !in g.granted && w.task !in g.late)
  }

  /** A woken task was given event bits that meet the condition it waited for. */
  ghost predicate GrantOk(g: Group, t: Task) {
    t in g.granted &&
    var w, bits := g.granted[t].asked, Without(g.granted[t].value, CONTROL);
    w.task == t && Asks(w) && Satisfied(bits, w) && g.granted[t].value == Marked(bits)
  }

  ghost predicate Inv(g: Group) {
    && User(g.bits) && ListOk(g)
    && (forall t <- g.granted :: GrantOk(g, t) && t !in g.late)
    && (forall t <- g.late :: g.late[t].task == t && Asks(g.late[t]))
  }

  lemma UserOr(a: Bits, b: Bits)
    requires User(a) && User(b)
    ensures User(Or(a, b))
  {
    OrMisses(a, b, CONTROL);
  }

  lemma UserWithout(a: Bits, b: Bits)
    requires User(a)
    ensures User(Without(a, b))
  {
    WithoutMisses(a, b, CONTROL);
  }

  /** Clearing bits satisfies nobody. */
  lemma ClearedOk(g: Group, clear: Bits)
    requires Inv(g)
    ensures Inv(g.(bits := Without(g.bits, clear)))
  {
    UserWithout(g.bits, clear);
    forall w | w in g.waiting ensures !Satisfied(Without(g.bits, clear), w) {
      if Satisfied(Without(g.bits, clear), w) { SatisfiedLess(g.bits, clear, w); }
    }
    assert forall t <- g.granted :: GrantOk(g.(bits := Without(g.bits, clear)), t) by {
      forall t | t in g.granted ensures GrantOk(g.(bits := Without(g.bits, clear)), t) { assert GrantOk(g, t); }
    }
  }

  lemma {:induction false} StayingDistinct(l: seq<Waiter>, bits: Bits)
    requires DistinctTasks(l)
    ensures DistinctTasks(Staying(l, bits))
  {
    hide Satisfied;
    if l != [] {
      var rest, r := Staying(l[1..], bits), Staying(l, bits);
      forall i, j | 0 <= i < j < |l[1..]| ensures l[1..][i].task != l[1..][j].task { assert l[i + 1].task != l[j + 1].task; }
      StayingDistinct(l[1..], bits);
      StayingExact(l[1..], bits);
      forall w | w in l[1..] ensures w.task != l[0].task {}
      if !Satisfied(bits, l[0]) {
        forall i, j | 0 <= i < j < |r| ensures r[i].task != r[j].task {
          assert r[j] == rest[j - 1] && rest[j - 1] in rest;
          assert i > 0 ==> r[i] == rest[i - 1];
        }
      }
    }
  }

  lemma SetList(g: Group, set_: Bits)
    requires Inv(g)
    ensures ListOk(SetBits(g, set_))
  {
    var all, g' := Or(g.bits, set_), SetBits(g, set_);
    SetWakes(g, set_);
    StayingDistinct(g.waiting, all);
    var clear := ToClear(g.waiting, all);
    assert g' == g.(bits := Without(all, clear), waiting := Staying(g.waiting, all), granted := g'.granted);
    hide Satisfied, Or, Without, Misses, Covers, Marked, Wanted, SetBits, GrantOk;
    forall w | w in g'.waiting ensures !Satisfied(g'.bits, w) && w.task !in g'.granted {
      if Satisfied(g'.bits, w) { SatisfiedLess(all, clear, w); }
      DistinctOther(g.waiting, all, w);
    }
  }

  lemma SetGrants(g: Group, set_: Bits, t: Task)
    requires Inv(g) && User(set_) && t in SetBits(g, set_).granted
    ensures GrantOk(SetBits(g, set_), t) && t !in g.late
    ensures t in g.granted || exists w <- g.waiting :: w.task == t
  {
    var all, g' := Or(g.bits, set_), SetBits(g, set_);
    hide Satisfied, Or, Without, Misses, Covers, Marked, Wanted, SetBits, User;
    UserOr(g.bits, set_);
    SetWakes(g, set_);
    assert forall w <- g.waiting :: Asks(w) && w.task !in g.late;
    hide ListOk, DistinctTasks, Asks;
    if w :| w in g.waiting && Satisfied(all, w) && w.task == t {
      Granted(g', t, w, all);
    } else {
      assert !Woken(g.waiting, all, t);
      assert GrantOk(g, t) && t !in g.late;
      hide GrantOk;
      assert g'.granted[t] == g.granted[t];
      SameGrant(g, g', t);
    }
  }

  lemma Granted(g: Group, t: Task, w: Waiter, bits: Bits)
    requires User(bits) && w.task == t && Asks(w) && Satisfied(bits, w)
    requires t in g.granted && g.granted[t] == Grant(w, Marked(bits))
    ensures GrantOk(g, t)
  {
    MarkedParts(bits);
    hide Satisfied, Without, Marked, Wanted;
  }

  lemma SameGrant(g: Group, g': Group, t: Task)
    requires GrantOk(g, t) && t in g'.granted && g'.granted[t] == g.granted[t]
    ensures GrantOk(g', t)
  {
    hide Satisfied, Without, Marked, Wanted;
  }

  lemma SetKept(g: Group, set_: Bits)
    requires Inv(g) && User(set_)
    ensures Inv(SetBits(g, set_))
    ensures forall w :: w in SetBits(g, set_).waiting ==> w in g.waiting
    ensures forall t :: t in SetBits(g, set_).granted ==> t in g.granted || exists w <- g.waiting :: w.task == t
  {
    var all, g' := Or(g.bits, set_), SetBits(g, set_);
    UserOr(g.bits, set_);
    UserWithout(all, ToClear(g.waiting, all));
    SetList(g, set_);
    StayingExact(g.waiting, all);
    assert g' == g.(bits := Without(all, ToClear(g.waiting, all)), waiting := Staying(g.waiting, all), granted := g'.granted);
    hide ListOk, GrantOk, Or, Without, SetBits, User;
    forall t | t in g'.granted ensures GrantOk(g', t) && t !in g'.late && (t in g.granted || exists w <- g.waiting :: w.task == t) {
      SetGrants(g, set_, t);
    }
  }

  lemma DistinctOther(l: seq<Waiter>, bits: Bits, w: Waiter)
    requires DistinctTasks(l) && w in l && !Satisfied(bits, w)
    ensures forall x <- l :: Satisfied(bits, x) ==> x.task != w.task
  {
    hide Satisfied;
    var i :| 0 <= i < |l| && l[i] == w;
    forall x | x in l && Satisfied(bits, x) ensures x.task != w.task {
      var j :| 0 <= j < |l| && l[j] == x;
    }
  }

  lemma BlockedKept(g: Group, t: Task, wanted: Bits, clear: bool, all: bool)
    requires Inv(g) && User(wanted) && wanted != 0 && !Inside(g, t) && !TestWaitCondition(g.bits, wanted, all)
    ensures Inv(Blocked(g, t, wanted, clear, all))
  {
    var g' := Blocked(g, t, wanted, clear, all);
    ItemValueParts(t, wanted, clear, all);
    hide ItemValue, Wanted, WaitsForAll, TestWaitCondition;
    forall x | x in g'.granted ensures GrantOk(g', x) { assert GrantOk(g, x); }
  }

  lemma TimeOutKept(g: Group, t: Task)
    requires Inv(g) && Waits(g, t)
    ensures Inv(Apply(g, TimeOut(t)))
  {
    hide Satisfied, Asks, GrantOk;
    var k, l, g' := Find(g.waiting, t), g.waiting, Apply(g, TimeOut(t));
    assert l[k] in l;
    forall x | x in g'.granted ensures GrantOk(g', x) && x !in g'.late {
      assert GrantOk(g, x);
      SameGrant(g, g', x);
    }
    TimeOutList(g, t);
    hide ListOk;
  }

  /** The others wait on. */
  lemma TimeOutList(g: Group, t: Task)
    requires ListOk(g) && Waits(g, t)
    ensures ListOk(Apply(g, TimeOut(t)))
  {
    hide Satisfied, Asks;
    var k, l, g' := Find(g.waiting, t), g.waiting, Apply(g, TimeOut(t));
    forall i | 0 <= i < |g'.waiting| ensures g'.waiting[i] == l[if i < k then i else i + 1] {}
    forall w | w in g'.waiting ensures Asks(w) && !Satisfied(g'.bits, w) && w.task !in g'.granted && w.task !in g'.late {
      var i :| 0 <= i < |g'.waiting| && g'.waiting[i] == w;
      assert w == l[if i < k then i else i + 1];
    }
  }

  lemma StepKept(g: Group, step: Step)
    requires Inv(g) && Enabled(g, step)
    ensures Inv(Apply(g, step))
  {
    hide Satisfied, Misses, Covers, Without, Or;
    match step {
      case Set(_, b) => SetKept(g, b);
      case Clear(_, b) => ClearedOk(g, b);
      case Wait(t, b, clear, all, block) =>
        if TestWaitCondition(g.bits, b, all) {
          ClearedOk(g, b);
        } else if block {
          BlockedKept(g, t, b, clear, all);
        }
      case Sync(t, s, b, block) => SyncKept(g, t, s, b, block);
      case TimeOut(t) => TimeOutKept(g, t);
      case Late(t) => LateKept(g, t);
      case Collect(t) => CollectKept(g, t);
    }
  }

  lemma LateKept(g: Group, t: Task)
    requires Inv(g) && t in g.late
    ensures Inv(Apply(g, Late(t)))
  {
    hide Satisfied, Misses, Covers, Without, Or;
    var g1 := g.(late := g.late - {t});
    forall x | x in g1.granted ensures GrantOk(g1, x) { assert GrantOk(g, x); }
    ClearedOk(g1, Wanted(g.late[t]));
  }

  lemma CollectKept(g: Group, t: Task)
    requires Inv(g) && t in g.granted
    ensures Inv(Apply(g, Collect(t)))
  {
    hide Satisfied, Misses, Covers, Without, Or;
    var g1 := g.(granted := g.granted - {t});
    forall x | x in g1.granted ensures GrantOk(g1, x) { assert GrantOk(g, x); }
  }

  lemma SyncKept(g: Group, t: Task, s: Bits, b: Bits, block: bool)
    requires Inv(g) && Enabled(g, Sync(t, s, b, block))
    ensures Inv(Apply(g, Sync(t, s, b, block)))
  {
    var all, g1 := Or(g.bits, s), SetBits(g, s);
    SetKept(g, s);
    assert g1.bits == Without(all, ToClear(g.waiting, all));
    assert g1.late == g.late;
    hide Satisfied, Misses, Covers, Without, Or, SetBits;
    if Covers(all, b) {
      ClearedOk(g1, b);
    } else if block {
      if Covers(g1.bits, b) { WithoutCovers(all, ToClear(g.waiting, all), b); }
      assert !Inside(g1, t);
      BlockedKept(g1, t, b, true, true);
    }
  }

  // ---- Runs ----

  predicate Legal(g: Group, steps: seq<Step>)
    decreases |steps|
  {
    steps == [] || (Enabled(g, steps[0]) && Legal(Apply(g, steps[0]), steps[1..]))
  }

  function Exec(g: Group, steps: seq<Step>): Group
    requires Legal(g, steps)
    decreases |steps|
  {
    if steps == [] then g else Exec(Apply(g, steps[0]), steps[1..])
  }

  lemma {:induction false} RunKept(g: Group, steps: seq<Step>)
    requires Inv(g) && Legal(g, steps)
    ensures Inv(Exec(g, steps))
    decreases |steps|
  {
    if steps != [] {
      StepKept(g, steps[0]);
      RunKept(Apply(g, steps[0]), steps[1..]);
    }
  }

  const CREATED: Group := Group(0, [], map[], map[])

  /** After every run, no task is left waiting for a condition the event bits meet, and every task
      that a set has woken returns bits that meet the condition it waited for. */
  lemma NeverStranded(steps: seq<Step>)
    requires Legal(CREATED, steps)
    ensures var g := Exec(CREATED, steps);
      && (forall w <- g.waiting :: !Satisfied(g.bits, w))
      && (forall t <- g.granted :: var r := Output(g, Collect(t)); r.Returns? && Satisfied(r.value, g.granted[t].asked))
  {
    assert Inv(CREATED) by { Zero(CONTROL); }
    RunKept(CREATED, steps);
    var g := Exec(CREATED, steps);
    forall t | t in g.granted ensures Satisfied(Output(g, Collect(t)).value, g.granted[t].asked) { assert GrantOk(g, t); }
  }

  /** A deleted group hands its waiting tasks the value 0, which meets nobody's condition: the caller
      can tell. */
  lemma DeletedValue(w: Waiter)
    requires Asks(w)
    ensures Without(Or(UNBLOCKED, IN_USE), CONTROL) == 0 && !Satisfied(0, w)
  {
  }
}
