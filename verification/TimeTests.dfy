/** The time tests of tasks.c on the wrapping tick counter, against unbounded time:
    xTaskCheckForTimeOut and vTaskDelayUntil. */
module TimeTests {
  import opened Machine

  // ---- xTaskCheckForTimeOut ----

  /** TimeOut_t with *pxTicksToWait: the wrap count and tick count on entry, and the ticks left. */
  datatype Wait = Wait(overflows: Tick, entry: Tick, ticks: Tick)

  /** xNumOfOverflows at unbounded time `time`; it wraps too. */
  function Overflows(time: nat): Tick { Low(time / WORD) }

  /** vTaskSetTimeOutState at `time`. */
  function Entered(time: nat, ticks: Tick): Wait { Wait(Overflows(time), Low(time), ticks) }

  datatype Checked = Checked(wait: Wait, expired: bool)

  /** xTaskCheckForTimeOut, for counters read as `overflows` and `tick`. */
  function CheckForTimeOut(w: Wait, overflows: Tick, tick: Tick): Checked {
    var elapsed := Sub32(tick, w.entry);
    if w.ticks == MAX_DELAY then Checked(w, false)
    else if overflows != w.overflows && tick >= w.entry then Checked(w, true)
    else if elapsed < w.ticks then Checked(Wait(overflows, tick, w.ticks - elapsed), false)
    else Checked(w.(ticks := 0), true)
  }

  function CheckAt(w: Wait, time: nat): Checked { CheckForTimeOut(w, Overflows(time), Low(time)) }

  /** The elapsed time that the 32-bit subtraction sees. */
  lemma Elapsed(entry: nat, now: nat)
    requires entry <= now
    ensures Sub32(Low(now), Low(entry)) == Low(now - entry)
    ensures now - entry < WORD ==> Low(now - entry) == now - entry
    ensures now - entry < WORD && Low(now) >= Low(entry) ==> now / WORD == entry / WORD
    ensures now - entry >= WORD && Low(now) >= Low(entry) ==> now / WORD > entry / WORD
  {
    var d := now - entry;
    Split(entry); Split(now); Split(d);
    var q := now / WORD - entry / WORD - d / WORD;
    assert Low(now) == Low(entry) + Low(d) - q * WORD;
    assert q == 0 || q == 1;
  }

  /** The time-out is missed: 2^32 ticks or more went by unchecked, and what shows of them is below the
      block time, either because the counter is now below its entry value, or because the wrap count
      itself came round. */
  predicate Missed(entry: nat, ticks: Tick, now: nat)
    requires entry <= now
  {
    now - entry >= WORD && Low(now - entry) < ticks && (Low(now) < Low(entry) || Overflows(now) == Overflows(entry))
  }

  /** For a finite block time the test reports expiry exactly when the deadline has passed, in every
      case but that one; and while it has not, the deadline stays where it was. */
  lemma CheckExact(entry: nat, ticks: Tick, now: nat)
    requires entry <= now && ticks != MAX_DELAY
    ensures var r := CheckAt(Entered(entry, ticks), now);
      && ((r.expired <==> entry + ticks <= now) <==> !Missed(entry, ticks, now))
      && (!r.expired && !Missed(entry, ticks, now) ==>
            now <= entry + ticks && r.wait == Entered(now, entry + ticks - now))
  {
    Elapsed(entry, now);
  }

  /** It is right when the counter wrapped at most once since entry. */
  lemma OneOverflow(entry: nat, ticks: Tick, now: nat)
    requires entry <= now && now / WORD <= entry / WORD + 1
    ensures !Missed(entry, ticks, now)
  {
    Elapsed(entry, now);
    Split(entry); Split(now);
    var e := entry / WORD;
    if now / WORD == e + 1 { assert Low(e) != Low(e + 1) by { Next(e); } }
  }

  /** What it leaves to wait, when it reports expiry within one wrap of entry: nothing, so that a caller that looks
      again finds its time over; but all of it as it was, if the counter has gone once round and more. */
  lemma ExpiredExact(entry: nat, ticks: Tick, now: nat)
    requires entry <= now && now / WORD <= entry / WORD + 1 && ticks != MAX_DELAY && entry + ticks <= now
    ensures CheckAt(Entered(entry, ticks), now) == Checked(Entered(entry, if now - entry < WORD then 0 else ticks), true)
  {
    CheckExact(entry, ticks, now);
    OneOverflow(entry, ticks, now);
    Elapsed(entry, now);
    Split(entry); Split(now);
    if now / WORD == entry / WORD + 1 { Next(entry / WORD); }
  }

  lemma Next(e: nat)
    ensures Low(e + 1) != Low(e)
  {
  }

  /** It does happen: a wait of ten ticks that begins one tick before the wrap, checked after the next wrap,
      has been over for 2^32 - 9 ticks and is not reported. */
  lemma TimeOutMissed()
    ensures var entry: nat, now: nat, ticks: Tick := WORD - 1, 2 * WORD, 10;
      && entry + ticks + WORD - 9 == now && Missed(entry, ticks, now)
      && !CheckAt(Entered(entry, ticks), now).expired && now / WORD == entry / WORD + 2
  {
    CheckExact(WORD - 1, 10, 2 * WORD);
  }

  lemma Forever(entry: nat, now: nat)
    ensures CheckAt(Entered(entry, MAX_DELAY), now) == Checked(Entered(entry, MAX_DELAY), false)
  {
  }

  /** The loop of a blocking call: how many checks, made at these times, come before the first that
      reports expiry. */
  function ChecksPassed(w: Wait, times: seq<nat>): (n: nat)
    ensures n <= |times|
    decreases |times|
  {
    if times == [] || CheckAt(w, times[0]).expired then 0
    else 1 + ChecksPassed(CheckAt(w, times[0]).wait, times[1..])
  }

  /** The time of the check before check i, or of entry. */
  function Before(start: nat, times: seq<nat>, i: nat): nat
    requires i <= |times|
  {
    if i == 0 then start else times[i - 1]
  }

  /** The checks follow each other, each before a second wrap since the one before it. */
  ghost predicate Frequent(start: nat, times: seq<nat>) {
    forall i: nat | i < |times| ::
      Before(start, times, i) <= times[i] && times[i] / WORD <= Before(start, times, i) / WORD + 1
  }

  /** However often a blocking call looks, it gives up at its first look at or after entry + block time. */
  lemma {:induction false} DeadlineFixed(entry: nat, ticks: Tick, times: seq<nat>)
    requires ticks != MAX_DELAY && Frequent(entry, times)
    ensures var n := ChecksPassed(Entered(entry, ticks), times);
      && (forall i | 0 <= i < n :: times[i] < entry + ticks)
      && (n < |times| ==> times[n] >= entry + ticks)
    decreases |times|
  {
    if times != [] {
      var t := times[0];
      assert Before(entry, times, 0) == entry;
      CheckExact(entry, ticks, t);
      OneOverflow(entry, ticks, t);
      if t < entry + ticks {
        var rest := times[1..];
        forall i: nat | i < |rest| ensures Before(t, rest, i) == Before(entry, times, i + 1) && rest[i] == times[i + 1] {}
        DeadlineFixed(t, entry + ticks - t, rest);
      }
    }
  }

  // ---- vTaskDelayUntil ----

  /** The new *pxPreviousWakeTime, whether the task is delayed, and for how many ticks. */
  datatype Until = Until(previous: Tick, delays: bool, ticks: Tick)

  function DelayUntil(previous: Tick, increment: Tick, tick: Tick): Until {
    var wake := Add32(previous, increment);
    var delays := if tick < previous then wake < previous && wake > tick else wake < previous || wake > tick;
    Until(wake, delays, Sub32(wake, tick))
  }

  /** It delays exactly when the ticks since the previous target, as far as the counter shows them, are
      fewer than the increment, and then for the rest of the increment. */
  lemma DelayUntilExact(previous: nat, increment: Tick, now: nat)
    requires previous <= now && increment > 0
    ensures var r := DelayUntil(Low(previous), increment, Low(now));
      && r.previous == Low(previous + increment)
      && (r.delays <==> Low(now - previous) < increment)
      && (r.delays ==> r.ticks == increment - Low(now - previous))
  {
    Elapsed(previous, now);
    var p := Low(previous);
    Split(previous);
    Split(previous + increment);
    assert Low(previous + increment) == Add32(p, increment);
  }

  /** The previous wake time that repeated calls keep. */
  function Calls(previous: Tick, increment: Tick, ticks: seq<Tick>): Tick
    decreases |ticks|
  {
    if ticks == [] then previous else Calls(DelayUntil(previous, increment, ticks[0]).previous, increment, ticks[1..])
  }

  lemma OneMore(k: nat, n: int)
    ensures n + k * n == (k + 1) * n
  {
  }

  lemma {:induction false} CallsTarget(start: nat, increment: Tick, ticks: seq<Tick>)
    ensures Calls(Low(start), increment, ticks) == Low(start + |ticks| * increment)
    decreases |ticks|
  {
    if ticks != [] {
      Added(start, increment);
      OneMore(|ticks| - 1, increment);
      var p := (|ticks| - 1) * increment;
      assert start + |ticks| * increment == start + increment + p;
      CallsTarget(start + increment, increment, ticks[1..]);
    }
  }

  /** The call after k others aims at start + (k + 1) * increment, whatever the times of the calls. Made
      at most 2^32 - 1 ticks after the previous target it delays exactly if that is still to come, and
      then to exactly that time. */
  lemma Periodic(start: nat, increment: Tick, ticks: seq<Tick>, now: nat)
    requires increment > 0
    ensures var k := |ticks|;
      var target, previous := start + (k + 1) * increment, Calls(Low(start), increment, ticks);
      && previous == Low(start + k * increment)
      && (0 <= now - (start + k * increment) < WORD ==>
            var r := DelayUntil(previous, increment, Low(now));
            r.previous == Low(target) && (r.delays <==> now < target) && (r.delays ==> now + r.ticks == target))
  {
    CallsTarget(start, increment, ticks);
    OneMore(|ticks|, increment);
    var p := start + |ticks| * increment;
    assert start + (|ticks| + 1) * increment == p + increment;
    PeriodicOne(p, increment, now);
  }

  lemma PeriodicOne(previous: nat, increment: Tick, now: nat)
    requires increment > 0
    ensures 0 <= now - previous < WORD ==>
      var r := DelayUntil(Low(previous), increment, Low(now));
      r.previous == Low(previous + increment) && (r.delays <==> now < previous + increment)
      && (r.delays ==> now + r.ticks == previous + increment)
  {
    if 0 <= now - previous < WORD {
      DelayUntilExact(previous, increment, now);
    }
  }

  // ---- In place ----

  class TimeOut {
    var overflowCount: Tick      // xOverflowCount
    var timeOnEntering: Tick     // xTimeOnEntering
    var ticksToWait: Tick        // *pxTicksToWait

    function View(): Wait
      reads this
    {
      Wait(overflowCount, timeOnEntering, ticksToWait)
    }

    /** vTaskSetTimeOutState. */
    constructor (numOfOverflows: Tick, tickCount: Tick, ticks: Tick)
      ensures View() == Wait(numOfOverflows, tickCount, ticks)
    {
      overflowCount, timeOnEntering, ticksToWait := numOfOverflows, tickCount, ticks;
    }

    /** xTaskCheckForTimeOut. */
    method Check(numOfOverflows: Tick, tickCount: Tick) returns (expired: bool)
      modifies this
      ensures Checked(View(), expired) == CheckForTimeOut(old(View()), numOfOverflows, tickCount)
    {
      var elapsed := Sub32(tickCount, timeOnEntering);
      if ticksToWait == MAX_DELAY {
        expired := false;
      } else if numOfOverflows != overflowCount && tickCount >= timeOnEntering {
        expired := true;
      } else if elapsed < ticksToWait {
        ticksToWait := ticksToWait - elapsed;
        overflowCount, timeOnEntering := numOfOverflows, tickCount;
        expired := false;
      } else {
        ticksToWait := 0;
        expired := true;
      }
    }
  }
}
