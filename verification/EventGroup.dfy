/** Event groups (event_groups.c): 24 event bits and the tasks that wait for any or all of some of
    them. A waiting task's event list item holds what it waits for, with three control bits. */
module EventGroup {
  import opened EventBits

  type Task = nat

  const CLEAR_ON_EXIT: Bits := 0x0100_0000   // eventCLEAR_EVENTS_ON_EXIT_BIT
  const UNBLOCKED: Bits := 0x0200_0000       // eventUNBLOCKED_DUE_TO_BIT_SET
  const WAIT_FOR_ALL: Bits := 0x0400_0000    // eventWAIT_FOR_ALL_BITS
  const CONTROL: Bits := 0xFF00_0000         // eventEVENT_BITS_CONTROL_BYTES
  const IN_USE: Bits := 0x8000_0000          // taskEVENT_LIST_ITEM_VALUE_IN_USE

  /** A task in xTasksWaitingForBits and the value of its event list item. */
  datatype Waiter = Waiter(task: Task, value: Bits)

  function Wanted(w: Waiter): Bits { Without(w.value, CONTROL) }

  predicate Clears(w: Waiter) { !Misses(w.value, CLEAR_ON_EXIT) }

  predicate WaitsForAll(w: Waiter) { !Misses(w.value, WAIT_FOR_ALL) }

  /** prvTestWaitCondition. */
  predicate TestWaitCondition(current: Bits, wanted: Bits, all: bool) {
    if all then Covers(current, wanted) else !Misses(current, wanted)
  }

  predicate Satisfied(current: Bits, w: Waiter) { TestWaitCondition(current, Wanted(w), WaitsForAll(w)) }

  /** The item value that vTaskPlaceOnUnorderedEventList stores for a call. */
  function ItemValue(wanted: Bits, clear: bool, all: bool): Bits {
    Or(Or(wanted, Or(if clear then CLEAR_ON_EXIT else 0, if all then WAIT_FOR_ALL else 0)), IN_USE)
  }

  /** A woken task that has not run since: what it asked for, and the value its item now holds. */
  datatype Grant = Grant(asked: Waiter, value: Bits)

  datatype Group = Group(
    bits: Bits,                      // uxEventBits
    waiting: seq<Waiter>,            // xTasksWaitingForBits
    granted: map<Task, Grant>,       // unblocked by a set, not yet returned
    late: map<Task, Waiter>          // timed out, with a critical section still to run
  )

  // ---- xEventGroupSetBits ----

  /** The waiters that stay on the list. */
  function Staying(l: seq<Waiter>, bits: Bits): seq<Waiter> {
    if l == [] then []
    else if Satisfied(bits, l[0]) then Staying(l[1..], bits) else [l[0]] + Staying(l[1..], bits)
  }

  /** uxBitsToClear after the loop. */
  function ToClear(l: seq<Waiter>, bits: Bits): Bits {
    if l == [] then 0
    else Or(if Satisfied(bits, l[0]) && Clears(l[0]) then Wanted(l[0]) else 0, ToClear(l[1..], bits))
  }

  /** The value given to vTaskRemoveFromUnorderedEventList, with the bit that function adds. */
  function Marked(bits: Bits): Bits { Or(Or(bits, UNBLOCKED), IN_USE) }

  /** What vTaskRemoveFromUnorderedEventList leaves in the woken tasks' items. */
  function Granting(granted: map<Task, Grant>, l: seq<Waiter>, bits: Bits): map<Task, Grant>
    decreases |l|
  {
    if l == [] then granted
    else if Satisfied(bits, l[0])
    then Granting(granted[l[0].task := Grant(l[0], Marked(bits))], l[1..], bits)
    else Granting(granted, l[1..], bits)
  }

  function SetBits(g: Group, set_: Bits): Group {
    var all := Or(g.bits, set_);
    g.(bits := Without(all, ToClear(g.waiting, all)), waiting := Staying(g.waiting, all),
       granted := Granting(g.granted, g.waiting, all))
  }

  // ---- The other calls ----

  datatype Step =
    | Set(t: Task, set_: Bits)                                                // xEventGroupSetBits
    | Clear(t: Task, clear: Bits)                                             // xEventGroupClearBits
    | Wait(t: Task, wanted: Bits, clearOnExit: bool, all: bool, block: bool)  // xEventGroupWaitBits
    | Sync(t: Task, set_: Bits, wanted: Bits, block: bool)                    // xEventGroupSync
    | TimeOut(t: Task)       // a waiting task's block time ends
    | Late(t: Task)          // the critical section of a task that timed out
    | Collect(t: Task)       // a woken task reads its item and returns

  datatype Outcome = Nothing | Returns(value: Bits)

  predicate User(b: Bits) { Misses(b, CONTROL) }

  predicate Waits(g: Group, t: Task) { exists w <- g.waiting :: w.task == t }

  predicate Inside(g: Group, t: Task) { Waits(g, t) || t in g.granted || t in g.late }

  predicate Enabled(g: Group, step: Step) {
    match step
    case Set(t, b) => User(b) && !Inside(g, t)
    case Clear(t, b) => User(b) && !Inside(g, t)
    case Wait(t, b, _, _, _) => User(b) && b != 0 && !Inside(g, t)
    case Sync(t, s, b, _) => User(s) && User(b) && b != 0 && !Inside(g, t)
    case TimeOut(t) => Waits(g, t)
    case Late(t) => t in g.late
    case Collect(t) => t in g.granted
  }

  function Blocked(g: Group, t: Task, wanted: Bits, clear: bool, all: bool): Group {
    g.(waiting := g.waiting + [Waiter(t, ItemValue(wanted, clear, all))])
  }

  function Find(l: seq<Waiter>, t: Task): (k: nat)
    requires exists w <- l :: w.task == t
    ensures k < |l| && l[k].task == t
  {
    if l[0].task == t then 0 else 1 + Find(l[1..], t)
  }

  function Apply(g: Group, step: Step): Group
    requires Enabled(g, step)
  {
    match step
    case Set(_, b) => SetBits(g, b)
    case Clear(_, b) => g.(bits := Without(g.bits, b))
    case Wait(t, b, clear, all, block) =>
      if TestWaitCondition(g.bits, b, all) then (if clear then g.(bits := Without(g.bits, b)) else g)
      else if block then Blocked(g, t, b, clear, all) else g
    case Sync(t, s, b, block) =>
      var g1 := SetBits(g, s);
      if Covers(Or(g.bits, s), b) then g1.(bits := Without(g1.bits, b))
      else if block then Blocked(g1, t, b, true, true) else g1
    case TimeOut(t) =>
      var k := Find(g.waiting, t);
      g.(waiting := g.waiting[..k] + g.waiting[k + 1..], late := g.late[t := g.waiting[k]])
    case Late(t) =>
      var w := g.late[t];
      var g1 := g.(late := g.late - {t});
      if Clears(w) && Satisfied(g.bits, w) then g1.(bits := Without(g.bits, Wanted(w))) else g1
    case Collect(t) => g.(granted := g.granted - {t})
  }

  /** What the calling task gets back, when it gets back. */
  function Output(g: Group, step: Step): Outcome
    requires Enabled(g, step)
  {
    match step
    case Set(_, _) => Nothing     // the bits are read later, with the scheduler running: as by Clear(t, 0)
    case Clear(_, _) => Returns(g.bits)
    case Wait(_, b, _, all, block) =>
      if TestWaitCondition(g.bits, b, all) || !block then Returns(g.bits) else Nothing
    case Sync(_, s, b, block) =>
      if Covers(Or(g.bits, s), b) then Returns(Or(g.bits, s))
      else if block then Nothing else Returns(SetBits(g, s).bits)
    case TimeOut(_) => Nothing
    case Late(_) => Returns(Without(g.bits, CONTROL))
    case Collect(t) => Returns(Without(g.granted[t].value, CONTROL))
  }

  // ---- What a set does ----

  lemma {:induction false} StayingExact(l: seq<Waiter>, bits: Bits)
    ensures forall w :: w in Staying(l, bits) <==> w in l && !Satisfied(bits, w)
    ensures |Staying(l, bits)| <= |l|
  {
    hide Satisfied;
    if l != [] {
      StayingExact(l[1..], bits);
      assert l == [l[0]] + l[1..];
    }
  }

  /** A bit is cleared exactly when some woken task waited for it with clear-on-exit. */
  lemma {:induction false} ToClearExact(l: seq<Waiter>, bits: Bits, m: Bits)
    ensures Misses(ToClear(l, bits), m) <==> (forall w <- l :: Satisfied(bits, w) && Clears(w) ==> Misses(Wanted(w), m))
  {
    Zero(m);
    hide Satisfied, Clears, Wanted, Misses, Or;
    if l != [] {
      ToClearExact(l[1..], bits, m);
      OrMisses(if Satisfied(bits, l[0]) && Clears(l[0]) then Wanted(l[0]) else 0, ToClear(l[1..], bits), m);
      assert l == [l[0]] + l[1..];
    }
  }

  /** Some task t on the list has its condition met. */
  predicate Woken(l: seq<Waiter>, bits: Bits, t: Task) { exists w <- l :: Satisfied(bits, w) && w.task == t }

  lemma {:induction false} GrantingExact(granted: map<Task, Grant>, l: seq<Waiter>, bits: Bits)
    requires forall i, j :: 0 <= i < j < |l| ==> l[i].task != l[j].task
    ensures var r := Granting(granted, l, bits);
      && (forall w <- l :: Satisfied(bits, w) ==> w.task in r && r[w.task] == Grant(w, Marked(bits)))
      && (forall t :: !Woken(l, bits, t) ==> (t in r <==> t in granted) && (t in r ==> r[t] == granted[t]))
    decreases |l|
  {
    hide Satisfied;
    if l != [] {
      assert l == [l[0]] + l[1..];
      forall i, j | 0 <= i < j < |l[1..]| ensures l[1..][i].task != l[1..][j].task { assert l[i + 1].task != l[j + 1].task; }
      forall w | w in l[1..] ensures w.task != l[0].task {}
      assert !Woken(l[1..], bits, l[0].task);
      var next := if Satisfied(bits, l[0]) then granted[l[0].task := Grant(l[0], Marked(bits))] else granted;
      GrantingExact(next, l[1..], bits);
    }
  }

  lemma SatisfiedLess(a: Bits, b: Bits, w: Waiter)
    requires Satisfied(Without(a, b), w)
    ensures Satisfied(a, w)
  {
    hide Wanted, WaitsForAll, Misses, Without, Covers;
    if WaitsForAll(w) {
      WithoutCovers(a, b, Wanted(w));
    } else if Misses(a, Wanted(w)) {
      WithoutMisses(a, b, Wanted(w));
    }
  }

  ghost predicate DistinctTasks(l: seq<Waiter>) { forall i, j :: 0 <= i < j < |l| ==> l[i].task != l[j].task }

  /** xEventGroupSetBits wakes exactly the tasks whose condition the new bits meet, and gives each of
      them those bits. */
  lemma SetWakes(g: Group, set_: Bits)
    requires DistinctTasks(g.waiting)
    ensures var all, g' := Or(g.bits, set_), SetBits(g, set_);
      && (forall w :: w in g'.waiting <==> w in g.waiting && !Satisfied(all, w))
      && (forall w <- g.waiting :: Satisfied(all, w) ==> w.task in g'.granted && g'.granted[w.task] == Grant(w, Marked(all)))
      && (forall t :: !Woken(g.waiting, all, t) ==>
            (t in g'.granted <==> t in g.granted) && (t in g'.granted ==> g'.granted[t] == g.granted[t]))
  {
    hide Satisfied, Marked, Or;
    StayingExact(g.waiting, Or(g.bits, set_));
    GrantingExact(g.granted, g.waiting, Or(g.bits, set_));
  }

  /** A woken task asked for one of the bits of m to be cleared. */
  predicate Cleared(g: Group, all: Bits, m: Bits) {
    exists w <- g.waiting :: Satisfied(all, w) && Clears(w) && !Misses(Wanted(w), m)
  }

  /** It clears the bits that woken clear-on-exit tasks waited for, and no others. */
  lemma SetClears(g: Group, set_: Bits, m: Bits)
    ensures var all, g' := Or(g.bits, set_), SetBits(g, set_);
      && (!Cleared(g, all, m) ==> g'.bits & m == all & m)
      && (forall w <- g.waiting :: Satisfied(all, w) && Clears(w) ==> Misses(g'.bits, Wanted(w)))
  {
    var all, g' := Or(g.bits, set_), SetBits(g, set_);
    var clear := ToClear(g.waiting, all);
    assert g'.bits == Without(all, clear);
    hide Satisfied, Clears, Wanted, Misses, SetBits, Or, Without;
    ToClearExact(g.waiting, all, m);
    if !Cleared(g, all, m) {
      WithoutKeeps(all, clear, m);
    }
    forall w | w in g.waiting && Satisfied(all, w) && Clears(w) ensures Misses(g'.bits, Wanted(w)) {
      ToClearCovers(g.waiting, all, w);
      WithoutAll(all, clear, Wanted(w));
    }
  }

  lemma {:induction false} ToClearCovers(l: seq<Waiter>, bits: Bits, w: Waiter)
    requires w in l && Satisfied(bits, w) && Clears(w)
    ensures Covers(ToClear(l, bits), Wanted(w))
  {
    CoversSelf(Wanted(w));
    hide Satisfied, Clears, Wanted, Covers, Or;
    var rest := ToClear(l[1..], bits);
    if l[0] == w {
      OrCovers(Wanted(w), rest, Wanted(w));
    } else {
      assert w in l[1..] by { assert l == [l[0]] + l[1..]; }
      ToClearCovers(l[1..], bits, w);
      OrCovers(rest, if Satisfied(bits, l[0]) && Clears(l[0]) then Wanted(l[0]) else 0, Wanted(w));
    }
  }

  lemma CoversSelf(m: Bits)
    ensures Covers(m, m)
  {
  }

  // ---- The order of the list ----

  lemma SameMisses(x: Bits, y: Bits)
    requires forall m :: Misses(x, m) <==> Misses(y, m)
    ensures x == y
  {
    assert Misses(x, !x) && Misses(y, !y);
    assert Misses(y, !x) && Misses(x, !y);
  }

  lemma {:induction false} StayingCount(l: seq<Waiter>, bits: Bits, w: Waiter)
    ensures multiset(Staying(l, bits))[w] == if Satisfied(bits, w) then 0 else multiset(l)[w]
  {
    hide Satisfied;
    if l != [] {
      StayingCount(l[1..], bits, w);
      assert l == [l[0]] + l[1..];
    }
  }

  /** The result of a set does not depend on the order of the waiting list. */
  lemma OrderIrrelevant(g: Group, h: Group, set_: Bits)
    requires DistinctTasks(g.waiting) && DistinctTasks(h.waiting) && multiset(g.waiting) == multiset(h.waiting)
    requires g.bits == h.bits && g.granted == h.granted
    ensures var g', h' := SetBits(g, set_), SetBits(h, set_);
      g'.bits == h'.bits && g'.granted == h'.granted && multiset(g'.waiting) == multiset(h'.waiting)
  {
    var all, g', h' := Or(g.bits, set_), SetBits(g, set_), SetBits(h, set_);
    forall w ensures w in g.waiting <==> w in h.waiting {
      assert w in g.waiting <==> w in multiset(g.waiting);
      assert w in h.waiting <==> w in multiset(h.waiting);
    }
    SameGrants(g, h, set_);
    SameClear(g.waiting, h.waiting, all);
    hide Satisfied, Without, Or;
    forall w ensures multiset(g'.waiting)[w] == multiset(h'.waiting)[w] {
      StayingCount(g.waiting, all, w);
      StayingCount(h.waiting, all, w);
    }
  }

  lemma SameClear(l: seq<Waiter>, k: seq<Waiter>, bits: Bits)
    requires forall w :: w in l <==> w in k
    ensures ToClear(l, bits) == ToClear(k, bits)
  {
    hide Satisfied, Clears, Wanted, Misses;
    forall m ensures Misses(ToClear(l, bits), m) <==> Misses(ToClear(k, bits), m) {
      ToClearExact(l, bits, m);
      ToClearExact(k, bits, m);
    }
    SameMisses(ToClear(l, bits), ToClear(k, bits));
  }

  lemma SameGrants(g: Group, h: Group, set_: Bits)
    requires DistinctTasks(g.waiting) && DistinctTasks(h.waiting) && (forall w :: w in g.waiting <==> w in h.waiting)
    requires g.bits == h.bits && g.granted == h.granted
    ensures SetBits(g, set_).granted == SetBits(h, set_).granted
  {
    var all, a, b := Or(g.bits, set_), SetBits(g, set_).granted, SetBits(h, set_).granted;
    SetWakes(g, set_);
    SetWakes(h, set_);
    hide Satisfied, Marked, Or, SetBits, DistinctTasks;
    forall t ensures (t in a <==> t in b) && (t in a ==> a[t] == b[t]) {
      assert Woken(g.waiting, all, t) <==> Woken(h.waiting, all, t);
      if w :| w in g.waiting && Satisfied(all, w) && w.task == t {
        assert w in h.waiting;
      } else {
        assert !Woken(g.waiting, all, t);
      }
    }
  }

  // ---- The item value ----

  /** The event list item carries a call's arguments to the set that wakes it. */
  lemma ItemValueParts(t: Task, wanted: Bits, clear: bool, all: bool)
    requires User(wanted)
    ensures var w := Waiter(t, ItemValue(wanted, clear, all));
      Wanted(w) == wanted && Clears(w) == clear && WaitsForAll(w) == all
  {
  }

  /** It carries the event bits back. */
  lemma MarkedParts(bits: Bits)
    requires User(bits)
    ensures Without(Marked(bits), CONTROL) == bits && !Misses(Marked(bits), UNBLOCKED)
  {
  }
}
