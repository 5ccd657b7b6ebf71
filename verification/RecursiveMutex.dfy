/** Recursive mutexes (queue.c). Neither call takes a lock to look at the holder or to change the count,
    not even for the load and the store of one increment: every such access is a step of its own here,
    and any number of tasks interleave. */
module RecursiveMutex {

  type Task = nat

  /** Where a task is in xQueueTakeMutexRecursive or xQueueGiveMutexRecursive. */
  datatype Phase =
    | Outside
    | Again                       // take: found itself to be the holder
    | Trying                      // take: in xQueueSemaphoreTake
    | Got                         // take: xQueueSemaphoreTake has made it the holder
    | Raising(loaded: int)        // take: between the load and the store of the count
    | Giving                      // give: found itself to be the holder
    | Lowering(loaded: int)       // give: between the load and the store of the count
    | Lowered                     // give: about to compare the count with 0
    | Returning                   // give: about to call xQueueGenericSend

  datatype Holder = Nobody | Held(task: Task)

  /** `depth` is not in the source: for each task, its takes that have counted less its gives. */
  datatype State = State(holder: Holder, count: int, phases: map<Task, Phase>, depth: map<Task, int>)

  datatype Action = BeginTake | Grab | Refused | BeginGive | Load | Store | Compare | Return

  datatype Step = Step(task: Task, action: Action)

  function At(s: State, t: Task): Phase { if t in s.phases then s.phases[t] else Outside }

  function Depth(s: State, t: Task): int { if t in s.depth then s.depth[t] else 0 }

  function Go(s: State, t: Task, p: Phase): State { s.(phases := s.phases[t := p]) }

  predicate Enabled(s: State, step: Step) {
    var p := At(s, step.task);
    match step.action
    case BeginTake => p.Outside?
    case Grab => p.Trying? && s.holder.Nobody?
    case Refused => p.Trying?
    case BeginGive => p.Outside?
    case Load => p.Again? || p.Got? || p.Giving?
    case Store => p.Raising? || p.Lowering?
    case Compare => p.Lowered?
    case Return => p.Returning?
  }

  function Apply(s: State, step: Step): State
    requires Enabled(s, step)
  {
    var t := step.task;
    var p := At(s, t);
    match step.action
    case BeginTake => Go(s, t, if s.holder == Held(t) then Again else Trying)
    case Grab => Go(s, t, Got).(holder := Held(t))
    case Refused => Go(s, t, Outside)
    case BeginGive => Go(s, t, if s.holder == Held(t) then Giving else Outside)
    case Load => Go(s, t, if p.Giving? then Lowering(s.count) else Raising(s.count))
    case Store =>
      if p.Lowering? then Go(s, t, Lowered).(count := p.loaded - 1, depth := s.depth[t := Depth(s, t) - 1])
      else Go(s, t, Outside).(count := p.loaded + 1, depth := s.depth[t := Depth(s, t) + 1])
    case Compare => Go(s, t, if s.count == 0 then Returning else Outside)
    case Return => Go(s, t, Outside).(holder := Nobody)
  }

  /** What a task's own place says of the shared fields. */
  predicate PlaceOk(s: State, t: Task) {
    var d := Depth(s, t);
    && (if s.holder == Held(t) then s.count == d >= 0 else d == 0)
    && match At(s, t)
       case Outside => s.holder == Held(t) ==> d > 0
       case Trying => s.holder != Held(t)
       case Again => s.holder == Held(t) && d > 0
       case Got => s.holder == Held(t) && d == 0
       case Raising(n) => s.holder == Held(t) && n == s.count
       case Giving => s.holder == Held(t) && d > 0
       case Lowering(n) => s.holder == Held(t) && n == s.count && d > 0
       case Lowered => s.holder == Held(t)
       case Returning => s.holder == Held(t) && d == 0
  }

  ghost predicate Inv(s: State) {
    (s.holder.Nobody? ==> s.count == 0) && forall t {:trigger At(s, t)} {:trigger Depth(s, t)} :: PlaceOk(s, t)
  }

  lemma StepKept(s: State, step: Step)
    requires Inv(s) && Enabled(s, step)
    ensures Inv(Apply(s, step))
  {
    var s', t := Apply(s, step), step.task;
    assert PlaceOk(s, t);
    forall x ensures PlaceOk(s', x) {
      assert x != t ==> At(s', x) == At(s, x) && Depth(s', x) == Depth(s, x);
      assert PlaceOk(s, x);
    }
  }

  predicate Legal(s: State, steps: seq<Step>)
    decreases |steps|
  {
    steps == [] || (Enabled(s, steps[0]) && Legal(Apply(s, steps[0]), steps[1..]))
  }

  function Exec(s: State, steps: seq<Step>): State
    requires Legal(s, steps)
    decreases |steps|
  {
    if steps == [] then s else Exec(Apply(s, steps[0]), steps[1..])
  }

  const CREATED: State := State(Nobody, 0, map[], map[])

  lemma CreatedInv()
    ensures Inv(CREATED)
  {
    forall t ensures PlaceOk(CREATED, t) {}
  }

  lemma {:induction false} RunKept(s: State, steps: seq<Step>)
    requires Legal(s, steps)
    requires Inv(s)
    ensures Inv(Exec(s, steps))
    decreases |steps|
  {
    hide Inv, Apply;
    if steps != [] {
      StepKept(s, steps[0]);
      RunKept(Apply(s, steps[0]), steps[1..]);
    }
  }

  /** The accesses without a lock do no harm: in every run at most one task has takes outstanding, the
      count is the number of them, no load is stale when it is stored, and the count never drops below 0. */
  lemma Exclusive(steps: seq<Step>, a: Task, b: Task)
    requires Legal(CREATED, steps) && a != b
    ensures var s := Exec(CREATED, steps);
      && Depth(s, a) >= 0 && (Depth(s, a) > 0 ==> Depth(s, b) == 0 && s.holder == Held(a) && s.count == Depth(s, a))
      && (At(s, a).Raising? || At(s, a).Lowering? ==> At(s, a).loaded == s.count)
      && (At(s, a).Lowering? ==> s.count > 0)
  {
    CreatedInv();
    RunKept(CREATED, steps);
    var s := Exec(CREATED, steps);
    assert PlaceOk(s, a) && PlaceOk(s, b);
  }

  /** What a call decides, by the takes outstanding: a task that has some takes again at once, and only
      it can give; the last give, and no other, goes on to return the mutex. */
  lemma CallsDecide(steps: seq<Step>, t: Task)
    requires Legal(CREATED, steps)
    ensures var s := Exec(CREATED, steps);
      && (At(s, t).Outside? ==>
           && (At(Apply(s, Step(t, BeginTake)), t).Again? <==> Depth(s, t) > 0)
           && (At(Apply(s, Step(t, BeginGive)), t).Giving? <==> Depth(s, t) > 0))
      && (At(s, t).Lowered? ==> (At(Apply(s, Step(t, Compare)), t).Returning? <==> Depth(s, t) == 0))
  {
    CreatedInv();
    RunKept(CREATED, steps);
    var s := Exec(CREATED, steps);
    assert PlaceOk(s, t);
  }

  /** With nobody inside a call, the mutex is free exactly if no take is outstanding. */
  lemma FreeAtRest(steps: seq<Step>)
    requires Legal(CREATED, steps) && forall t :: At(Exec(CREATED, steps), t).Outside?
    ensures var s := Exec(CREATED, steps); s.holder.Nobody? <==> forall t :: Depth(s, t) == 0
  {
    CreatedInv();
    RunKept(CREATED, steps);
    var s := Exec(CREATED, steps);
    forall t ensures PlaceOk(s, t) {
      assert At(s, t).Outside?;
    }
    if s.holder.Held? { assert Depth(s, s.holder.task) > 0; }
  }

  // ---- takes and gives ----

  /** A call of t counts in this step: +1 for a take that stores the new count, -1 for a give. */
  function Counted(s: State, step: Step, t: Task): int {
    if step.task != t || !step.action.Store? then 0 else if At(s, t).Raising? then 1 else -1
  }

  function AllCounted(s: State, steps: seq<Step>, t: Task): int
    requires Legal(s, steps)
    decreases |steps|
  {
    if steps == [] then 0 else Counted(s, steps[0], t) + AllCounted(Apply(s, steps[0]), steps[1..], t)
  }

  lemma CountStep(s: State, step: Step, t: Task)
    requires Enabled(s, step)
    ensures Depth(Apply(s, step), t) == Depth(s, t) + Counted(s, step, t)
  {
  }

  /** The takes outstanding are the takes less the gives of the run. */
  lemma {:induction false} DepthCounts(s: State, steps: seq<Step>, t: Task)
    requires Legal(s, steps)
    ensures Depth(Exec(s, steps), t) == Depth(s, t) + AllCounted(s, steps, t)
    decreases |steps|
  {
    hide Apply, Enabled, Counted, Depth;
    if steps != [] {
      CountStep(s, steps[0], t);
      DepthCounts(Apply(s, steps[0]), steps[1..], t);
    }
  }
}
