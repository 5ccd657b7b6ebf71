/** The ready-priority bitmap of the port (portmacro.h): one bit per priority below 32. */
module ReadyBitmap {

  /** 1UL << uxPriority. */
  function Mask(p: nat): bv32
    requires p < 32
  {
    (1 as bv32) << p
  }

  predicate Has(b: bv32, p: nat)
    requires p < 32
  {
    b & Mask(p) != 0
  }

  /** portRECORD_READY_PRIORITY. */
  function Record(b: bv32, p: nat): bv32
    requires p < 32
  {
    b | Mask(p)
  }

  /** portRESET_READY_PRIORITY. */
  function Reset(b: bv32, p: nat): bv32
    requires p < 32
  {
    b & !Mask(p)
  }

  lemma MasksDisjoint(p: nat, q: nat)
    requires p < 32 && q < 32
    ensures Mask(p) != 0 && (p != q ==> Mask(p) & Mask(q) == 0)
  {
  }

  /** The bit n of b | m and of b & !m, for one-bit masks. */
  lemma OneBit(b: bv32, m: bv32, n: bv32)
    requires m != 0 && (m == n || m & n == 0)
    ensures (b | m) & n == (if m == n then m else b & n)
    ensures b & !m & n == (if m == n then 0 else b & n)
  {
  }

  /** Recording and resetting a priority change its own bit and no other. */
  lemma BitOps(b: bv32, p: nat, q: nat)
    requires p < 32 && q < 32
    ensures Has(Record(b, p), q) <==> p == q || Has(b, q)
    ensures Has(Reset(b, p), q) <==> p != q && Has(b, q)
  {
    MasksDisjoint(p, q);
    OneBit(b, Mask(p), Mask(q));
  }

  /** The priorities whose bit is set. */
  function Priorities(b: bv32): set<nat> {
    set p: nat | p < 32 && Has(b, p)
  }

  lemma PriorityOps(b: bv32, p: nat)
    requires p < 32
    ensures Priorities(Record(b, p)) == Priorities(b) + {p}
    ensures Priorities(Reset(b, p)) == Priorities(b) - {p}
  {
    hide Has, Record, Reset, Mask;
    forall q: nat | q < 32
      ensures Has(Record(b, p), q) <==> p == q || Has(b, q)
      ensures Has(Reset(b, p), q) <==> p != q && Has(b, q)
    {
      BitOps(b, p, q);
    }
  }

  /** The clz instruction: the number of zero bits above the highest set bit, 32 for zero. */
  function CountLeadingZeros(b: bv32, seen: nat := 0): (n: nat)
    requires seen <= 32
    ensures seen <= n <= 32
    ensures n < 32 ==> Has(b, 31 - n)
    ensures forall p | 31 - n < p <= 31 - seen :: !Has(b, p)
    decreases 32 - seen
  {
    if seen == 32 || Has(b, 31 - seen) then seen else CountLeadingZeros(b, seen + 1)
  }

  /** portGET_HIGHEST_PRIORITY. */
  function HighestPriority(b: bv32): (p: nat)
    requires Priorities(b) != {}
    ensures p in Priorities(b) && forall q <- Priorities(b) :: q <= p
  {
    var n := CountLeadingZeros(b);
    assert n < 32 by {
      var q :| q in Priorities(b);
      assert Has(b, q);
    }
    31 - n
  }

  /** The generic taskSELECT_HIGHEST_PRIORITY_TASK: search downward from any upper bound. */
  method HighestBySearch(lengths: seq<nat>, top: nat) returns (p: nat)
    requires top < |lengths| && forall q | top < q < |lengths| :: lengths[q] == 0
    requires exists q :: 0 <= q < |lengths| && lengths[q] > 0
    ensures p < |lengths| && lengths[p] > 0 && forall q | p < q < |lengths| :: lengths[q] == 0
  {
    p := top;
    while lengths[p] == 0
      invariant p <= top && forall q | p < q < |lengths| :: lengths[q] == 0
      decreases p
    {
      ghost var q :| 0 <= q < |lengths| && lengths[q] > 0;
      assert q <= p;
      p := p - 1;
    }
  }
}
