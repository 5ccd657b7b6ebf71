/** What each call does to an event group, told without words and masks. */
module EventGroupEffects {
  import opened EventBits
  import opened EventSets
  import opened EventGroup
  import opened EventGroupRuns

  // ---- the reference: a set of events, and what every task is doing ----

  /** A wait: for which events, whether it takes them with it, and whether it is for all of them or for any. */
  datatype Wish = Wish(wanted: iset<Bits>, clears: bool, all: bool)

  ghost predicate Met(lit: iset<Bits>, w: Wish) {
    if w.all then w.wanted <= lit else w.wanted * lit != iset{}
  }

  /** What a task is doing: waiting in the list, woken and told the events, or timed out and not back yet. */
  datatype Stage = Elsewhere | Asleep(wish: Wish) | Roused(wish: Wish, told: iset<Bits>) | Overdue(wish: Wish)

  predicate Sets(step: Step) { step.Set? || step.Sync? }

  /** The events that conditions are held against: those of before and those the step sets. */
  ghost function Offered(lit: iset<Bits>, step: Step): iset<Bits> {
    lit + if Sets(step) then Events(step.set_) else iset{}
  }

  /** Setting events wakes exactly the tasks whose condition is met. */
  ghost predicate Frees(lit: iset<Bits>, step: Step, c: Stage) {
    Sets(step) && c.Asleep? && Met(Offered(lit, step), c.wish)
  }

  predicate Tries(step: Step, own: Stage) { step.Wait? || step.Sync? || (step.Late? && own.Overdue?) }

  /** What the calling task waits for; `own` is what it is doing. */
  ghost function Wanting(step: Step, own: Stage): Wish
    requires Tries(step, own)
  {
    match step
    case Wait(_, b, clear, all, _) => Wish(Events(b), clear, all)
    case Sync(_, _, b, _) => Wish(Events(b), true, true)
    case _ => own.wish
  }

  ghost predicate Succeeds(lit: iset<Bits>, step: Step, own: Stage) {
    Tries(step, own) && Met(Offered(lit, step), Wanting(step, own))
  }

  /** A woken task takes event e with it. */
  ghost predicate TakenBy(lit: iset<Bits>, step: Step, c: Stage, e: Bits) {
    Frees(lit, step, c) && c.wish.clears && e in c.wish.wanted
  }

  /** The calling task does. */
  ghost predicate TakenOwn(lit: iset<Bits>, step: Step, own: Stage, e: Bits) {
    (step.Clear? && e in Events(step.clear))
    || (Succeeds(lit, step, own) && Wanting(step, own).clears && e in Wanting(step, own).wanted)
  }

  ghost function After(lit: iset<Bits>, step: Step, t: Task, c: Stage): Stage {
    if Frees(lit, step, c) then Roused(c.wish, Offered(lit, step))
    else if t != step.t then c
    else if (step.Wait? || step.Sync?) && step.block && !Succeeds(lit, step, c) then Asleep(Wanting(step, c))
    else if step.TimeOut? && c.Asleep? then Overdue(c.wish)
    else Elsewhere
  }

  /** The answer, if the call returns: a wait that succeeds is told the events it succeeded with. */
  ghost predicate Told(lit: iset<Bits>, lit': iset<Bits>, step: Step, own: Stage, o: Outcome) {
    var done := Succeeds(lit, step, own);
    && (o.Returns? <==> step.Clear? || step.Late? || step.Collect? || ((step.Wait? || step.Sync?) && (done || !step.block)))
    && (o.Returns? ==> Events(o.value) == Answer(lit, lit', step, own))
  }

  ghost function Answer(lit: iset<Bits>, lit': iset<Bits>, step: Step, own: Stage): iset<Bits> {
    if step.Collect? && own.Roused? then own.told
    else if !step.Sync? then lit
    else if Succeeds(lit, step, own) then Offered(lit, step)
    else lit'
  }

  // ---- the model, seen that way ----

  ghost function WishOf(w: Waiter): Wish { Wish(Events(Wanted(w)), Clears(w), WaitsForAll(w)) }

  ghost function Seen(g: Group, t: Task): Stage {
    if Waits(g, t) then Asleep(WishOf(g.waiting[Find(g.waiting, t)]))
    else if t in g.granted then Roused(WishOf(g.granted[t].asked), Events(Without(g.granted[t].value, CONTROL)))
    else if t in g.late then Overdue(WishOf(g.late[t]))
    else Elsewhere
  }

  ghost predicate Lit(g: Group, e: Bits) { e in Events(g.bits) }

  ghost predicate TakenAway(g: Group, step: Step, e: Bits) {
    TakenOwn(Events(g.bits), step, Seen(g, step.t), e) || exists t :: TakenBy(Events(g.bits), step, Seen(g, t), e)
  }

  lemma TestMet(bits: Bits, wanted: Bits, clear: bool, all: bool)
    ensures TestWaitCondition(bits, wanted, all) <==> Met(Events(bits), Wish(Events(wanted), clear, all))
  {
    hide Events, Covers, Misses;
    CoversEvents(bits, wanted);
    MissesEvents(bits, wanted);
  }

  lemma SatisfiedMet(bits: Bits, w: Waiter)
    ensures Satisfied(bits, w) <==> Met(Events(bits), WishOf(w))
  {
    hide TestWaitCondition, Met, Events;
    TestMet(bits, Wanted(w), Clears(w), WaitsForAll(w));
  }

  lemma SeenAsleep(g: Group, w: Waiter)
    requires DistinctTasks(g.waiting) && w in g.waiting
    ensures Seen(g, w.task) == Asleep(WishOf(w))
  {
    hide Events;
  }

  // ---- setting bits ----

  lemma SetStages(g: Group, b: Bits, t: Task)
    requires Inv(g) && User(b)
    ensures var all, c := Or(g.bits, b), Seen(g, t);
      Seen(SetBits(g, b), t) == if c.Asleep? && Met(Events(all), c.wish) then Roused(c.wish, Events(all)) else c
  {
    var all, g' := Or(g.bits, b), SetBits(g, b);
    SetWakes(g, b);
    SetList(g, b);
    UserOr(g.bits, b);
    MarkedParts(all);
    assert g'.late == g.late;
    assert DistinctTasks(g.waiting) && DistinctTasks(g'.waiting);
    assert forall w <- g.waiting :: w.task !in g.granted;
    hide Inv, ListOk, GrantOk, Satisfied, Marked, Or, Without, SetBits, Events, User, Met, WishOf, DistinctTasks;
    if Waits(g, t) {
      var w := g.waiting[Find(g.waiting, t)];
      assert w in g.waiting;
      SeenAsleep(g, w);
      SatisfiedMet(all, w);
      if Satisfied(all, w) {
        assert forall v <- g'.waiting :: v.task != t by { GoneFrom(g, g', w, all); }
      } else {
        SeenAsleep(g', w);
      }
    } else {
      assert !EventGroup.Woken(g.waiting, all, t);
    }
  }

  lemma GoneFrom(g: Group, g': Group, w: Waiter, all: Bits)
    requires DistinctTasks(g.waiting) && w in g.waiting && Satisfied(all, w)
    requires forall v :: v in g'.waiting <==> v in g.waiting && !Satisfied(all, v)
    ensures forall v <- g'.waiting :: v.task != w.task
  {
    hide Satisfied;
  }

  /** A task in the list is woken, and takes e with it. */
  ghost predicate Takes(g: Group, all: Bits, t: Task, e: Bits) {
    var c := Seen(g, t);
    c.Asleep? && Met(Events(all), c.wish) && c.wish.clears && e in c.wish.wanted
  }

  ghost predicate SomeTakes(g: Group, all: Bits, e: Bits) { exists t :: Takes(g, all, t, e) }

  ghost predicate TakesIt(all: Bits, w: Waiter, e: Bits) {
    Satisfied(all, w) && Clears(w) && e in Events(Wanted(w))
  }

  lemma TakesByTask(g: Group, all: Bits, e: Bits)
    requires DistinctTasks(g.waiting)
    ensures (exists t :: Takes(g, all, t, e)) <==> exists w <- g.waiting :: TakesIt(all, w, e)
  {
    hide Satisfied, Events, Met, DistinctTasks, Clears, WaitsForAll;
    if t :| Takes(g, all, t, e) {
      var w := g.waiting[Find(g.waiting, t)];
      SatisfiedMet(all, w);
      assert w in g.waiting && TakesIt(all, w, e);
    }
    if w :| w in g.waiting && TakesIt(all, w, e) {
      SeenAsleep(g, w);
      SatisfiedMet(all, w);
      assert Takes(g, all, w.task, e);
    }
  }

  lemma SetEvents(g: Group, b: Bits, e: Bits)
    requires Inv(g) && One(e)
    ensures var all := Or(g.bits, b);
      e in Events(SetBits(g, b).bits) <==> e in Events(all) && !SomeTakes(g, all, e)
  {
    var all, clear := Or(g.bits, b), ToClear(g.waiting, Or(g.bits, b));
    EventsWithout(all, clear);
    ToClearExact(g.waiting, all, e);
    TakesByTask(g, all, e);
    assert Misses(clear, e) <==> !Covers(clear, e) by { OneWay(clear, e); }
    forall w | w in g.waiting ensures TakesIt(all, w, e) <==> Satisfied(all, w) && Clears(w) && !Misses(Wanted(w), e) {
      OneWay(Wanted(w), e);
      hide Satisfied, Clears, Wanted, One;
    }
    hide Satisfied, Clears, Wanted, Misses, Covers, Or, Without, Inv, One, Takes, TakesIt, ToClear;
    assert SetBits(g, b).bits == Without(all, clear);
  }

  lemma OneWay(x: Bits, e: Bits)
    requires One(e)
    ensures Misses(x, e) <==> !Covers(x, e)
  {
    assert Misses(x, e) || Covers(x, e);
    hide One;
  }

  // ---- the events ----

  ghost predicate EventsRight(g: Group, step: Step, bits: Bits) {
    forall e :: e in Events(bits) <==> e in Offered(Events(g.bits), step) && !TakenAway(g, step, e)
  }

  lemma NoneFreed(g: Group, step: Step)
    requires !Sets(step)
    ensures Offered(Events(g.bits), step) == Events(g.bits)
    ensures forall e :: TakenAway(g, step, e) <==> TakenOwn(Events(g.bits), step, Seen(g, step.t), e)
  {
    hide Events, Seen, TakenOwn, Met;
  }

  lemma Freed(g: Group, step: Step)
    requires Sets(step)
    ensures var all := Or(g.bits, step.set_);
      && Offered(Events(g.bits), step) == Events(all)
      && forall e :: TakenAway(g, step, e) <==> TakenOwn(Events(g.bits), step, Seen(g, step.t), e) || SomeTakes(g, all, e)
  {
    var all := Or(g.bits, step.set_);
    EventsOr(g.bits, step.set_);
    hide Events, Met, Or, TakenOwn, Seen;
    assert Offered(Events(g.bits), step) == Events(all);
    forall e ensures TakenAway(g, step, e) <==> TakenOwn(Events(g.bits), step, Seen(g, step.t), e) || SomeTakes(g, all, e) {
      assert forall t :: TakenBy(Events(g.bits), step, Seen(g, t), e) <==> Takes(g, all, t, e);
    }
  }

  /** What a set leaves, before the caller of a rendezvous takes its part. */
  lemma SetLeaves(g: Group, b: Bits)
    requires Inv(g)
    ensures var all := Or(g.bits, b);
      forall e :: e in Events(SetBits(g, b).bits) <==> e in Events(all) && !SomeTakes(g, all, e)
  {
    var all := Or(g.bits, b);
    hide Inv, Or, SetBits, One, SomeTakes;
    forall e ensures e in Events(SetBits(g, b).bits) <==> e in Events(all) && !SomeTakes(g, all, e) {
      if One(e) { SetEvents(g, b, e); }
    }
  }

  lemma SetRight(g: Group, step: Step)
    requires Inv(g) && step.Set?
    ensures EventsRight(g, step, SetBits(g, step.set_).bits)
  {
    SetLeaves(g, step.set_);
    Freed(g, step);
    hide Inv, Or, SetBits, Events, Offered, Seen, SomeTakes, TakenAway;
  }

  lemma SyncRight(g: Group, step: Step)
    requires Inv(g) && step.Sync? && Enabled(g, step)
    ensures EventsRight(g, step, Apply(g, step).bits)
    ensures Covers(Or(g.bits, step.set_), step.wanted) <==> Succeeds(Events(g.bits), step, Seen(g, step.t))
  {
    hide Inv, Or, SetBits, Events, Offered, Seen, SomeTakes, TakenAway, Covers, Without, User, ItemValue, Inside;
    var g1, all := SetBits(g, step.set_), Or(g.bits, step.set_);
    SyncBits(g, step);
    SetLeaves(g, step.set_);
    Freed(g, step);
    CoversEvents(all, step.wanted);
    EventsWithout(g1.bits, step.wanted);
    hide Apply, Enabled;
    assert Succeeds(Events(g.bits), step, Seen(g, step.t)) <==> Events(step.wanted) <= Events(all);
  }

  lemma SyncBits(g: Group, step: Step)
    requires step.Sync? && Enabled(g, step)
    ensures var b := SetBits(g, step.set_).bits;
      Apply(g, step).bits == if Covers(Or(g.bits, step.set_), step.wanted) then Without(b, step.wanted) else b
  {
    hide Or, SetBits, Covers, Without, User, ItemValue, Inside;
  }

  lemma WaitBits(g: Group, step: Step)
    requires step.Wait? && Enabled(g, step)
    ensures var takes := TestWaitCondition(g.bits, step.wanted, step.all) && step.clearOnExit;
      Apply(g, step).bits == if takes then Without(g.bits, step.wanted) else g.bits
  {
    hide TestWaitCondition, Without, User, ItemValue, Inside;
  }

  lemma WaitRight(g: Group, step: Step)
    requires step.Wait? && Enabled(g, step)
    ensures EventsRight(g, step, Apply(g, step).bits)
    ensures TestWaitCondition(g.bits, step.wanted, step.all) <==> Succeeds(Events(g.bits), step, Seen(g, step.t))
  {
    hide TakenAway, TestWaitCondition, Events, Met, Without, Offered, Seen, User, ItemValue, Inside;
    WaitBits(g, step);
    NoneFreed(g, step);
    TestMet(g.bits, step.wanted, step.clearOnExit, step.all);
    EventsWithout(g.bits, step.wanted);
    hide Apply, Enabled;
  }

  lemma SeenOverdue(g: Group, t: Task)
    requires Inv(g) && t in g.late
    ensures Seen(g, t) == Overdue(WishOf(g.late[t]))
  {
    hide Events, WishOf, GrantOk, Satisfied;
  }

  lemma LateRight(g: Group, step: Step)
    requires Inv(g) && step.Late? && Enabled(g, step)
    ensures EventsRight(g, step, Apply(g, step).bits)
  {
    var w := g.late[step.t];
    NoneFreed(g, step);
    SeenOverdue(g, step.t);
    SatisfiedMet(g.bits, w);
    EventsWithout(g.bits, Wanted(w));
    hide TakenAway, Satisfied, Events, Met, Without, Offered, Inv, Seen, Wanted, Clears;
  }

  lemma StepEvents(g: Group, step: Step)
    requires Inv(g) && Enabled(g, step)
    ensures EventsRight(g, step, Apply(g, step).bits)
  {
    match step {
      case Set(_, _) => SetRight(g, step);
      case Sync(_, _, _, _) => SyncRight(g, step);
      case Wait(_, _, _, _, _) => WaitRight(g, step);
      case Late(_) => LateRight(g, step);
      case Clear(_, b) =>
        NoneFreed(g, step);
        EventsWithout(g.bits, b);
        hide Events, Without, Seen, TakenAway, Offered, Inv, User;
      case _ =>
        NoneFreed(g, step);
        hide Events, Seen, TakenAway, Offered, Inv;
    }
  }

  // ---- the tasks ----

  ghost predicate StagesRight(g: Group, step: Step, g': Group) {
    forall t :: Seen(g', t) == After(Events(g.bits), step, t, Seen(g, t))
  }

  lemma SeenFrame(g: Group, g': Group, t: Task)
    requires g'.waiting == g.waiting
    requires t in g'.granted <==> t in g.granted
    requires t in g.granted ==> g'.granted[t] == g.granted[t]
    requires t in g'.late <==> t in g.late
    requires t in g.late ==> g'.late[t] == g.late[t]
    ensures Seen(g', t) == Seen(g, t)
  {
    hide WishOf, Events;
  }

  lemma SeenOutside(g: Group, t: Task)
    requires !Inside(g, t)
    ensures Seen(g, t) == Elsewhere
  {
  }

  lemma BlockedSeen(g: Group, t: Task, wanted: Bits, clear: bool, all: bool, u: Task)
    requires Inv(g) && !Inside(g, t) && User(wanted)
    requires DistinctTasks(Blocked(g, t, wanted, clear, all).waiting)
    ensures Seen(Blocked(g, t, wanted, clear, all), u) == if u == t then Asleep(Wish(Events(wanted), clear, all)) else Seen(g, u)
  {
    hide Events, Satisfied, GrantOk, Asks, User, Wanted, Clears, WaitsForAll, ItemValue;
    var g', w := Blocked(g, t, wanted, clear, all), Waiter(t, ItemValue(wanted, clear, all));
    ItemValueParts(t, wanted, clear, all);
    if u == t {
      assert w in g'.waiting;
      SeenAsleep(g', w);
    } else if Waits(g, u) {
      var v := g.waiting[Find(g.waiting, u)];
      assert v in g.waiting && v in g'.waiting;
      SeenAsleep(g, v);
      SeenAsleep(g', v);
    } else {
      assert !Waits(g', u);
    }
  }

  lemma DistinctKept(g: Group, step: Step)
    requires Inv(g) && Enabled(g, step)
    ensures DistinctTasks(Apply(g, step).waiting)
  {
    hide Apply, Enabled;
    StepKept(g, step);
    hide GrantOk, Satisfied;
  }

  lemma WaitStages(g: Group, step: Step)
    requires Inv(g) && step.Wait? && Enabled(g, step)
    ensures StagesRight(g, step, Apply(g, step))
  {
    hide Inv, Without, Events, User, ItemValue, Inside, Met, TestWaitCondition, Seen;
    WaitRight(g, step);
    DistinctKept(g, step);
    SeenOutside(g, step.t);
    var g', blocks := Apply(g, step), step.block && !TestWaitCondition(g.bits, step.wanted, step.all);
    forall u ensures Seen(g', u) == After(Events(g.bits), step, u, Seen(g, u)) {
      if blocks {
        BlockedSeen(g, step.t, step.wanted, step.clearOnExit, step.all, u);
      } else {
        SeenFrame(g, g', u);
      }
    }
  }

  lemma SetStagesAll(g: Group, step: Step, t: Task)
    requires Inv(g) && Sets(step) && User(step.set_)
    ensures Seen(SetBits(g, step.set_), t)
      == if Frees(Events(g.bits), step, Seen(g, t)) then Roused(Seen(g, t).wish, Offered(Events(g.bits), step)) else Seen(g, t)
  {
    hide Inv, Events, Met, Seen, SetBits, Or, User, TakenAway, SomeTakes, TakenOwn;
    SetStages(g, step.set_, t);
    Freed(g, step);
  }

  lemma SyncStages(g: Group, step: Step)
    requires Inv(g) && step.Sync? && Enabled(g, step)
    ensures StagesRight(g, step, Apply(g, step))
  {
    hide Inv, Without, Events, User, ItemValue, Met, Covers, Seen, SetBits, Or, Offered;
    SyncRight(g, step);
    DistinctKept(g, step);
    SetKept(g, step.set_);
    SeenOutside(g, step.t);
    var g1, g' := SetBits(g, step.set_), Apply(g, step);
    SetStagesAll(g, step, step.t);
    SetOutside(g, g1, step);
    forall u ensures Seen(g', u) == After(Events(g.bits), step, u, Seen(g, u)) {
      SetStagesAll(g, step, u);
      hide Inside;
      if step.block && !Covers(Or(g.bits, step.set_), step.wanted) {
        BlockedSeen(g1, step.t, step.wanted, true, true, u);
      } else {
        SeenFrame(g1, g', u);
      }
    }
  }

  lemma SetOutside(g: Group, g1: Group, step: Step)
    requires Seen(g, step.t) == Elsewhere && Seen(g1, step.t) == Elsewhere
    ensures !Inside(g1, step.t)
  {
    hide Events;
  }

  lemma TimeOutStages(g: Group, step: Step)
    requires Inv(g) && step.TimeOut? && Enabled(g, step)
    ensures StagesRight(g, step, Apply(g, step))
  {
    hide Events, Satisfied, GrantOk, Asks, WishOf, User;
    var t, g' := step.t, Apply(g, step);
    var k, l := Find(g.waiting, step.t), g.waiting;
    DistinctKept(g, step);
    assert l[k].task == t && l[k] in l;
    assert forall i | 0 <= i < |g'.waiting| :: g'.waiting[i] == l[if i < k then i else i + 1];
    forall u ensures Seen(g', u) == After(Events(g.bits), step, u, Seen(g, u)) {
      if u == t {
        assert !Waits(g', t) by { assert forall w <- g'.waiting :: w.task != t; }
      } else if Waits(g, u) {
        var m := Find(l, u);
        assert l[m] in l && l[m] == g'.waiting[if m < k then m else m - 1];
        assert l[m] in g'.waiting;
        SeenAsleep(g, l[m]);
        SeenAsleep(g', l[m]);
      } else {
        assert !Waits(g', u);
      }
    }
  }

  lemma ReturnStages(g: Group, step: Step)
    requires Inv(g) && (step.Late? || step.Collect?) && Enabled(g, step)
    ensures StagesRight(g, step, Apply(g, step))
  {
    hide Events, Satisfied, WishOf, User, Wanted, Clears, Without, Met;
    var g' := Apply(g, step);
    assert g'.waiting == g.waiting;
    assert !Waits(g, step.t) && (step.Late? ==> step.t !in g.granted) && (step.Collect? ==> step.t !in g.late) by {
      hide Apply;
      Apart(g, step.t);
    }
    hide Inv;
    forall u ensures Seen(g', u) == After(Events(g.bits), step, u, Seen(g, u)) {
      if u != step.t { SeenFrame(g, g', u); }
    }
  }

  lemma Apart(g: Group, t: Task)
    requires Inv(g)
    ensures t in g.granted ==> !Waits(g, t) && t !in g.late
    ensures t in g.late ==> !Waits(g, t) && t !in g.granted
  {
    hide Satisfied, GrantOk;
  }

  lemma StepStages(g: Group, step: Step)
    requires Inv(g) && Enabled(g, step)
    ensures StagesRight(g, step, Apply(g, step))
  {
    match step {
      case Set(_, b) =>
        forall u ensures Seen(Apply(g, step), u) == After(Events(g.bits), step, u, Seen(g, u)) {
          hide Inv, Events, Met, Seen, SetBits, Offered, Inside;
          SetStagesAll(g, step, u);
          SeenOutside(g, step.t);
        }
      case Sync(_, _, _, _) => SyncStages(g, step);
      case Wait(_, _, _, _, _) => WaitStages(g, step);
      case TimeOut(_) => TimeOutStages(g, step);
      case Clear(_, b) =>
        forall u ensures Seen(Apply(g, step), u) == After(Events(g.bits), step, u, Seen(g, u)) {
          hide Inv, Events, Seen, Inside, Without;
          SeenFrame(g, Apply(g, step), u);
          SeenOutside(g, step.t);
        }
      case _ => ReturnStages(g, step);
    }
  }

  // ---- the answers, and all of it ----

  lemma StepTold(g: Group, step: Step)
    requires Inv(g) && Enabled(g, step)
    ensures Told(Events(g.bits), Events(Apply(g, step).bits), step, Seen(g, step.t), Output(g, step))
  {
    hide Events, User, Met, Seen, TakenAway, Inv, Without, Covers, TestWaitCondition, SetBits, Or, Offered, ItemValue, Inside;
    match step {
      case Wait(_, _, _, _, _) => WaitRight(g, step);
      case Sync(_, _, _, _) =>
        SyncRight(g, step);
        Freed(g, step);
      case Late(_) => UserBits(g);
      case Collect(t) => SeenRoused(g, t);
      case _ =>
    }
  }

  lemma UserBits(g: Group)
    requires Inv(g)
    ensures Without(g.bits, CONTROL) == g.bits
  {
    hide ListOk, GrantOk, Asks;
    UserAlone(g.bits);
  }

  lemma UserAlone(b: Bits)
    requires User(b)
    ensures Without(b, CONTROL) == b
  {
  }

  lemma SeenRoused(g: Group, t: Task)
    requires Inv(g) && t in g.granted
    ensures Seen(g, t) == Roused(WishOf(g.granted[t].asked), Events(Without(g.granted[t].value, CONTROL)))
  {
    Apart(g, t);
    hide Events, Without, WishOf, Inv;
  }

  /** Every call sets and takes the events that the reference says, wakes whom it says, leaves every task doing what
      it says, and returns what it says. */
  lemma StepExact(g: Group, step: Step)
    requires Inv(g) && Enabled(g, step)
    ensures var g' := Apply(g, step);
      && (forall e :: Lit(g', e) <==> e in Offered(Events(g.bits), step) && !TakenAway(g, step, e))
      && (forall t :: Seen(g', t) == After(Events(g.bits), step, t, Seen(g, t)))
      && Told(Events(g.bits), Events(g'.bits), step, Seen(g, step.t), Output(g, step))
  {
    hide Inv, Enabled, Apply, Seen, TakenAway, Events, Offered, After, Told;
    StepEvents(g, step);
    StepStages(g, step);
    StepTold(g, step);
  }
}
