/** The event group of event_groups.c as a structure changed in place. Each call is proved to take its
    step of EventGroup, with the value it returns. The heart of it is the loop of xEventGroupSetBits,
    which walks the waiting list from the head, removes items while it walks, and collects the bits to
    clear: it is proved to wake exactly the tasks that the model wakes, to hand each of them the bits
    that the model hands out, and to clear what the model clears, after the last of them and not before.
    What a task still needs when its wait is over, the granted bits or its own arguments, is kept by
    task beside the list. */
module EventGroupControl {
  import opened EventBits
  import opened EventGroup

  class EventGroupBlock {
    var eventBits: Bits                 // uxEventBits
    var waiting: seq<Waiter>            // xTasksWaitingForBits
    var granted: map<Task, Grant>       // the items of woken tasks
    var late: map<Task, Waiter>         // the locals of tasks that timed out

    ghost function View(): Group
      reads this
    {
      Group(eventBits, waiting, granted, late)
    }

    /** xEventGroupCreateStatic. */
    constructor ()
      ensures View() == Group(0, [], map[], map[])
    {
      eventBits, waiting, granted, late := 0, [], map[], map[];
    }

    /** vTaskRemoveFromUnorderedEventList on the item at position i. */
    method RemoveFromUnorderedEventList(i: nat, value: Bits)
      requires i < |waiting|
      modifies this`waiting, this`granted
      ensures waiting == old(waiting[..i] + waiting[i + 1..])
      ensures granted == old(granted)[old(waiting[i]).task := Grant(old(waiting[i]), Or(value, IN_USE))]
    {
      granted := granted[waiting[i].task := Grant(waiting[i], Or(value, IN_USE))];
      waiting := waiting[..i] + waiting[i + 1..];
    }

    /** The part of xEventGroupSetBits that runs with the scheduler suspended. */
    method SetEventBits(bitsToSet: Bits)
      modifies this
      ensures View() == SetBits(old(View()), bitsToSet)
    {
      hide Satisfied, Clears, Wanted, WaitsForAll, Covers, Misses, Or, Without, Staying, ToClear, Granting;
      eventBits := Or(eventBits, bitsToSet);
      var bitsToClear: Bits, i := 0, 0;
      ghost var all, l, g := eventBits, waiting, granted;
      OrZeroLeft(ToClear(l, all));
      assert l[0..] == l;
      while i < |waiting|
        invariant i <= |waiting| && eventBits == all && late == old(late)
        invariant Staying(l, all) == waiting[..i] + Staying(waiting[i..], all)
        invariant ToClear(l, all) == Or(bitsToClear, ToClear(waiting[i..], all))
        invariant Granting(g, l, all) == Granting(granted, waiting[i..], all)
        decreases |waiting| - i
      {
        ghost var rest := waiting[i..];
        var w := waiting[i];
        assert rest[0] == w && rest[1..] == waiting[i + 1..];
        Unfold(granted, rest, all);
        var found := if WaitsForAll(w) then Covers(eventBits, Wanted(w)) else !Misses(eventBits, Wanted(w));
        assert found == Satisfied(all, w) by { SatisfiedTest(all, w); }
        if found {
          OrLaws(bitsToClear, Wanted(w), ToClear(rest[1..], all));
          if Clears(w) {
            bitsToClear := Or(bitsToClear, Wanted(w));
          }
          RemoveFromUnorderedEventList(i, Or(eventBits, UNBLOCKED));
          assert waiting[i..] == rest[1..];
        } else {
          assert waiting[..i + 1] == waiting[..i] + [w];
          i := i + 1;
        }
      }
      assert waiting[i..] == [] && waiting[..i] == waiting;
      Unfold(granted, [], all);
      OrZeroLeft(bitsToClear);
      eventBits := Without(eventBits, bitsToClear);
    }

    /** And its result, read when the scheduler runs again and other calls may have come in between: what a
        call that clears no bits would return then. */
    method ResultOfSet(t: Task) returns (r: Bits)
      requires Enabled(View(), Clear(t, 0))
      ensures Returns(r) == Output(View(), Clear(t, 0)) && View() == Apply(View(), Clear(t, 0))
    {
      r := eventBits;
      ClearsNothing(eventBits);
    }

    /** The part of xEventGroupWaitBits that runs with the scheduler suspended. */
    method WaitBits(t: Task, bitsToWaitFor: Bits, clearOnExit: bool, waitForAll: bool, block: bool)
      returns (r: Outcome)
      requires Enabled(View(), Wait(t, bitsToWaitFor, clearOnExit, waitForAll, block))
      modifies this
      ensures View() == Apply(old(View()), Wait(t, bitsToWaitFor, clearOnExit, waitForAll, block))
      ensures r == Output(old(View()), Wait(t, bitsToWaitFor, clearOnExit, waitForAll, block))
    {
      var current := eventBits;
      if TestWaitCondition(current, bitsToWaitFor, waitForAll) {
        r := Returns(current);
        if clearOnExit {
          eventBits := Without(eventBits, bitsToWaitFor);
        }
      } else if !block {
        r := Returns(current);
      } else {
        waiting := waiting + [Waiter(t, ItemValue(bitsToWaitFor, clearOnExit, waitForAll))];
        r := Nothing;
      }
    }

    /** The part of xEventGroupSync that runs with the scheduler suspended. */
    method Synchronise(t: Task, bitsToSet: Bits, bitsToWaitFor: Bits, block: bool) returns (r: Outcome)
      requires Enabled(View(), Sync(t, bitsToSet, bitsToWaitFor, block))
      modifies this
      ensures View() == Apply(old(View()), Sync(t, bitsToSet, bitsToWaitFor, block))
      ensures r == Output(old(View()), Sync(t, bitsToSet, bitsToWaitFor, block))
    {
      var original := eventBits;
      SetEventBits(bitsToSet);
      if Covers(Or(original, bitsToSet), bitsToWaitFor) {
        r := Returns(Or(original, bitsToSet));
        eventBits := Without(eventBits, bitsToWaitFor);
      } else if block {
        waiting := waiting + [Waiter(t, ItemValue(bitsToWaitFor, true, true))];
        r := Nothing;
      } else {
        r := Returns(eventBits);
      }
    }

    /** xEventGroupClearBits. */
    method ClearBits(t: Task, bitsToClear: Bits) returns (r: Outcome)
      requires Enabled(View(), Clear(t, bitsToClear))
      modifies this
      ensures View() == Apply(old(View()), Clear(t, bitsToClear)) && r == Output(old(View()), Clear(t, bitsToClear))
    {
      r := Returns(eventBits);
      eventBits := Without(eventBits, bitsToClear);
    }

    /** vEventGroupDelete: every waiting task is woken with the value 0, and nothing else changes. */
    method DeleteGroup()
      requires DistinctTasks(waiting)
      modifies this
      ensures waiting == [] && eventBits == old(eventBits) && late == old(late)
      ensures forall w <- old(waiting) :: w.task in granted && granted[w.task] == Grant(w, Or(UNBLOCKED, IN_USE))
      ensures forall t :: (forall w <- old(waiting) :: w.task != t) ==>
        (t in granted <==> t in old(granted)) && (t in granted ==> granted[t] == old(granted)[t])
    {
      ghost var l, n := waiting, 0;
      while |waiting| > 0
        invariant n <= |l| && waiting == l[n..] && eventBits == old(eventBits) && late == old(late)
        invariant forall i | 0 <= i < n :: l[i].task in granted && granted[l[i].task] == Grant(l[i], Or(UNBLOCKED, IN_USE))
        invariant forall t :: (forall i | 0 <= i < n :: l[i].task != t) ==>
          (t in granted <==> t in old(granted)) && (t in granted ==> granted[t] == old(granted)[t])
        decreases |waiting|
      {
        assert waiting[0] == l[n];
        RemoveFromUnorderedEventList(0, UNBLOCKED);
        n := n + 1;
      }
    }
  }

  /** One round of the loop, on what is left of the list. */
  lemma Unfold(granted: map<Task, Grant>, l: seq<Waiter>, bits: Bits)
    ensures l == [] ==> Staying(l, bits) == [] && ToClear(l, bits) == 0 && Granting(granted, l, bits) == granted
    ensures l != [] && Satisfied(bits, l[0]) ==>
      && Staying(l, bits) == Staying(l[1..], bits)
      && ToClear(l, bits) == (if Clears(l[0]) then Or(Wanted(l[0]), ToClear(l[1..], bits)) else ToClear(l[1..], bits))
      && Granting(granted, l, bits)
         == Granting(granted[l[0].task := Grant(l[0], Or(Or(bits, UNBLOCKED), IN_USE))], l[1..], bits)
    ensures l != [] && !Satisfied(bits, l[0]) ==>
      && Staying(l, bits) == [l[0]] + Staying(l[1..], bits)
      && ToClear(l, bits) == ToClear(l[1..], bits)
      && Granting(granted, l, bits) == Granting(granted, l[1..], bits)
  {
    if l != [] { Zero(ToClear(l[1..], bits)); }
    hide Satisfied, Clears, Wanted, Or;
  }

  lemma OrZeroLeft(m: Bits)
    ensures Or(0, m) == m && Or(m, 0) == m
  {
    Zero(m);
  }

  lemma ClearsNothing(bits: Bits)
    ensures Without(bits, 0) == bits
  {
  }

  lemma SatisfiedTest(bits: Bits, w: Waiter)
    ensures Satisfied(bits, w) == if WaitsForAll(w) then Covers(bits, Wanted(w)) else !Misses(bits, Wanted(w))
  {
  }
}
