/** Waits that take the events they waited for: one event is never taken twice. */
module EventGroupWaits {
  import opened EventBits
  import opened EventSets
  import opened EventGroup
  import opened EventGroupRuns
  import opened EventGroupEffects

  /** A wait whose condition is met returns the bits it found, which meet it. With clear-on-exit no wanted bit is left
      and every other bit is as it was; without it no bit changes. Nobody else is touched. */
  lemma WaitMet(g: Group, t: Task, wanted: Bits, clear: bool, all: bool, block: bool, m: Bits)
    requires Enabled(g, Wait(t, wanted, clear, all, block)) && Met(Events(g.bits), Wish(Events(wanted), clear, all))
    ensures var step, g' := Wait(t, wanted, clear, all, block), Apply(g, Wait(t, wanted, clear, all, block));
      && Output(g, step) == Returns(g.bits) && g' == g.(bits := g'.bits)
      && (clear ==> Misses(g'.bits, wanted) && (Misses(wanted, m) ==> g'.bits & m == g.bits & m))
      && (!clear ==> g'.bits == g.bits)
  {
    hide Enabled, Events, Met, TestWaitCondition, Misses, Covers, Without, User, ItemValue, Inside;
    TestMet(g.bits, wanted, clear, all);
    WaitApplied(g, Wait(t, wanted, clear, all, block));
    hide Apply, Output;
    CoversSelf(wanted);
    WithoutAll(g.bits, wanted, wanted);
    if Misses(wanted, m) { WithoutKeeps(g.bits, wanted, m); }
  }

  lemma WaitApplied(g: Group, step: Step)
    requires step.Wait? && Enabled(g, step) && TestWaitCondition(g.bits, step.wanted, step.all)
    ensures Apply(g, step) == g.(bits := if step.clearOnExit then Without(g.bits, step.wanted) else g.bits)
    ensures Output(g, step) == Returns(g.bits)
  {
    hide Enabled, TestWaitCondition, Without, User, ItemValue, Inside;
  }

  /** A clear-on-exit wait for event e alone. */
  ghost predicate For(w: Wish, e: Bits) { w.clears && w.wanted == iset{e} }

  /** The step is a call of such a wait that succeeds, at once or after its block time ended. */
  ghost predicate Wins(g: Group, step: Step, e: Bits) {
    var own := Seen(g, step.t);
    Succeeds(Events(g.bits), step, own) && For(Wanting(step, own), e)
  }

  /** The step wakes a task that is blocked in such a wait. */
  ghost predicate Wakes(g: Group, step: Step, e: Bits) {
    exists t :: Frees(Events(g.bits), step, Seen(g, t)) && For(Seen(g, t).wish, e)
  }

  ghost function Won(g: Group, steps: seq<Step>, e: Bits): nat
    requires Legal(g, steps)
    decreases |steps|
  {
    if steps == [] then 0
    else (if Wins(g, steps[0], e) then 1 else 0) + Won(Apply(g, steps[0]), steps[1..], e)
  }

  ghost predicate Woke(g: Group, steps: seq<Step>, e: Bits)
    requires Legal(g, steps)
    decreases |steps|
  {
    steps != [] && (Wakes(g, steps[0], e) || Woke(Apply(g, steps[0]), steps[1..], e))
  }

  ghost predicate SetsIt(step: Step, e: Bits) { Sets(step) && e in Events(step.set_) }

  lemma WaiterUnmet(g: Group, t: Task)
    requires Inv(g) && Seen(g, t).Asleep?
    ensures !Met(Events(g.bits), Seen(g, t).wish)
  {
    hide Events, Met, GrantOk, Asks, DistinctTasks, Satisfied, User;
    assert Waits(g, t);
    var w := g.waiting[Find(g.waiting, t)];
    assert w in g.waiting;
    SatisfiedMet(g.bits, w);
  }

  /** Without a set of e, a step wakes nobody who waits for e alone, sets e no more, and takes it when it wins. */
  lemma OneStep(g: Group, step: Step, e: Bits)
    requires Inv(g) && Enabled(g, step) && !SetsIt(step, e)
    ensures !Wakes(g, step, e) && (Wins(g, step, e) ==> Lit(g, e) && !Lit(Apply(g, step), e))
    ensures Lit(Apply(g, step), e) ==> Lit(g, e)
  {
    hide Inv, Enabled, Apply, Events, Seen, After, Told;
    StepExact(g, step);
    forall t | Frees(Events(g.bits), step, Seen(g, t)) && For(Seen(g, t).wish, e) ensures false {
      WaiterUnmet(g, t);
      assert false;
    }
    if Wins(g, step, e) {
      assert e in Offered(Events(g.bits), step);
      assert TakenOwn(Events(g.bits), step, Seen(g, step.t), e);
    }
  }

  lemma {:induction false} NoSets(g: Group, steps: seq<Step>, e: Bits)
    requires Inv(g) && Legal(g, steps) && forall step <- steps :: !SetsIt(step, e)
    ensures !Woke(g, steps, e) && Won(g, steps, e) <= if Lit(g, e) then 1 else 0
    decreases |steps|
  {
    hide Inv, Enabled, Apply, Wins, Wakes, Lit, SetsIt;
    if steps != [] {
      OneStep(g, steps[0], e);
      StepKept(g, steps[0]);
      NoSets(Apply(g, steps[0]), steps[1..], e);
    }
  }

  /** From one set of an event up to the next, the clear-on-exit waits for it alone that succeed are those blocked at
      the set, if there are any; otherwise at most one succeeds, blocked or not. */
  lemma TakenOnce(g: Group, set_: Step, steps: seq<Step>, e: Bits)
    requires Inv(g) && Enabled(g, set_) && SetsIt(set_, e)
    requires Legal(Apply(g, set_), steps) && forall step <- steps :: !SetsIt(step, e)
    ensures !Woke(Apply(g, set_), steps, e) && Won(Apply(g, set_), steps, e) <= 1
    ensures Wakes(g, set_, e) || Wins(g, set_, e) ==> Won(Apply(g, set_), steps, e) == 0
  {
    hide Inv, Enabled, Apply, Seen, Events, SetsIt, Won, Woke, After, Told, Offered, Succeeds;
    StepKept(g, set_);
    StepExact(g, set_);
    NoSets(Apply(g, set_), steps, e);
    if Wakes(g, set_, e) {
      var t :| Frees(Events(g.bits), set_, Seen(g, t)) && For(Seen(g, t).wish, e);
      assert TakenBy(Events(g.bits), set_, Seen(g, t), e);
    } else if Wins(g, set_, e) {
      assert TakenOwn(Events(g.bits), set_, Seen(g, set_.t), e);
    }
  }

  /** Those blocked at the set all succeed with it: two tasks that wait for bit 0 are both woken by one set of it. */
  lemma SharedBySleepers()
    ensures var steps := [Wait(1, 1, true, true, true), Wait(2, 1, true, true, true), Set(3, 1)];
      Legal(CREATED, steps) && var g := Exec(CREATED, steps);
      g.waiting == [] && g.bits == 0 && 1 in g.granted && 2 in g.granted
      && g.granted[1].asked == Waiter(1, ItemValue(1, true, true)) && g.granted[2].asked == Waiter(2, ItemValue(1, true, true))
  {
    var v, w := ItemValue(1, true, true), Waiter(2, ItemValue(1, true, true));
    var g1 := Apply(CREATED, Wait(1, 1, true, true, true));
    assert g1 == Group(0, [Waiter(1, v)], map[], map[]);
    var g2 := Apply(g1, Wait(2, 1, true, true, true));
    assert g2 == Group(0, [Waiter(1, v), w], map[], map[]);
    assert [Waiter(1, v), w][1..] == [w] && [w][1..] == [];
    BothWoken(g2, v);
    hide SetBits, ItemValue;
    var steps := [Wait(1, 1, true, true, true), Wait(2, 1, true, true, true), Set(3, 1)];
    assert steps[1..][1..] == [Set(3, 1)] && steps[1..][1..][1..] == [];
  }

  lemma BothWoken(g: Group, v: Bits)
    requires v == ItemValue(1, true, true) && g == Group(0, [Waiter(1, v), Waiter(2, v)], map[], map[])
    ensures SetBits(g, 1) == Group(0, [], map[1 := Grant(Waiter(1, v), Marked(1)), 2 := Grant(Waiter(2, v), Marked(1))], map[])
  {
    BothMet(1, v);
    BothMet(2, v);
    hide Satisfied, Clears, Wanted, Or, Without, Marked, ItemValue;
    var w := Waiter(2, v);
    assert g.waiting[1..] == [w] && [w][1..] == [];
    FirstMet([w], 1);
    FirstMet(g.waiting, 1);
    FirstGranted(map[1 := Grant(Waiter(1, v), Marked(1))], [w], 1);
    FirstGranted(map[], g.waiting, 1);
  }

  lemma FirstGranted(granted: map<Task, Grant>, l: seq<Waiter>, bits: Bits)
    requires l != [] && Satisfied(bits, l[0])
    ensures Granting(granted, l, bits) == Granting(granted[l[0].task := Grant(l[0], Marked(bits))], l[1..], bits)
  {
    hide Satisfied, Marked;
  }

  lemma FirstMet(l: seq<Waiter>, bits: Bits)
    requires l != [] && Satisfied(bits, l[0]) && Clears(l[0])
    ensures Staying(l, bits) == Staying(l[1..], bits) && ToClear(l, bits) == Or(Wanted(l[0]), ToClear(l[1..], bits))
  {
    hide Satisfied, Clears, Wanted, Or;
  }

  lemma BothMet(t: Task, v: Bits)
    requires v == ItemValue(1, true, true)
    ensures Or(0, 1) == 1 && Or(1, 0) == 1 && Or(1, 1) == 1 && Without(1, 1) == 0
    ensures Satisfied(1, Waiter(t, v)) && Clears(Waiter(t, v)) && Wanted(Waiter(t, v)) == 1
  {
  }
}
