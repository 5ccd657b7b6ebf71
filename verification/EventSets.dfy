/** 32-bit words as sets of events. A word with exactly one bit stands for an event, and a word for the set of the
    events it has; the masks of event_groups.c are then union, difference, inclusion and intersection of sets. A
    one-bit word is told by what it is for, not by its digits: any other word has all of it or nothing of it. That
    keeps the proofs here free of arithmetic on words, which the verifier finds hard: all they need is the laws of
    masks, and that every word but 0 has a one-bit word in it. */
module EventSets {
  import opened EventBits

  /** A word with one bit stands for an event: any other word has all of it or nothing. */
  ghost predicate One(e: Bits) { e != 0 && forall x: Bits :: Misses(x, e) || Covers(x, e) }

  ghost function Events(x: Bits): iset<Bits> { iset e: Bits | One(e) && Covers(x, e) }

  lemma SmallerPart(x: Bits, y: Bits)
    requires !Covers(y, x)
    ensures x & y < x
  {
  }

  /** Every word but 0 has an event. */
  lemma AnyBit(x: Bits) returns (e: Bits)
    requires x != 0
    ensures One(e) && e in Events(x)
    decreases x
  {
    if One(x) {
      e := x;
    } else {
      var y: Bits :| !Misses(y, x) && !Covers(y, x);
      SmallerPart(x, y);
      e := AnyBit(x & y);
      InBoth(x, y, e);
    }
  }

  lemma MissesNot(x: Bits, e: Bits)
    requires e != 0
    ensures !(Misses(x, e) && Covers(x, e))
  {
  }

  lemma OrCoversOne(a: Bits, b: Bits, e: Bits)
    requires One(e)
    ensures Covers(Or(a, b), e) <==> Covers(a, e) || Covers(b, e)
  {
    assert Misses(a, e) || Covers(a, e);
    assert Misses(b, e) || Covers(b, e);
    hide One;
    OrMisses(a, b, e);
    MissesNot(Or(a, b), e);
    MissesNot(a, e);
    MissesNot(b, e);
    if Covers(a, e) || Covers(b, e) {
      if Covers(a, e) { OrCovers(a, b, e); } else { OrCovers(b, a, e); }
    }
  }

  lemma WithoutCoversOne(a: Bits, b: Bits, e: Bits)
    requires One(e)
    ensures Covers(Without(a, b), e) <==> Covers(a, e) && !Covers(b, e)
  {
    assert e != 0 && (Misses(b, e) || Covers(b, e));
    hide One, Without, Covers, Misses;
    MissesNot(b, e);
    MissesNot(Without(a, b), e);
    if Covers(b, e) {
      WithoutAll(a, b, e);
    } else {
      KeepsCovered(a, b, e);
    }
  }

  lemma KeepsCovered(a: Bits, b: Bits, e: Bits)
    requires Misses(b, e)
    ensures Covers(Without(a, b), e) <==> Covers(a, e)
  {
    WithoutKeeps(a, b, e);
    hide Without;
  }

  lemma EventsOr(a: Bits, b: Bits)
    ensures Events(Or(a, b)) == Events(a) + Events(b)
  {
    hide One, Or, Covers;
    forall e | One(e) ensures e in Events(Or(a, b)) <==> e in Events(a) + Events(b) { OrCoversOne(a, b, e); }
  }

  lemma EventsWithout(a: Bits, b: Bits)
    ensures Events(Without(a, b)) == Events(a) - Events(b)
  {
    hide One, Without, Covers;
    forall e | One(e) ensures e in Events(Without(a, b)) <==> e in Events(a) - Events(b) { WithoutCoversOne(a, b, e); }
  }

  lemma CoversTrans(x: Bits, m: Bits, e: Bits)
    requires Covers(x, m) && Covers(m, e)
    ensures Covers(x, e)
  {
  }

  lemma CoversEvents(x: Bits, m: Bits)
    ensures Covers(x, m) <==> Events(m) <= Events(x)
  {
    NothingMissing(x, m);
    hide One, Covers, Without;
    if Covers(x, m) {
      forall e | e in Events(m) ensures e in Events(x) { CoversTrans(x, m, e); }
    } else {
      var e := AnyBit(Without(m, x));
      EventsWithout(m, x);
      assert e in Events(m) - Events(x);
    }
  }

  lemma NothingMissing(x: Bits, m: Bits)
    ensures Covers(x, m) <==> Without(m, x) == 0
  {
    Parts(x, m);
    if Covers(x, m) { assert m & x == m; }
  }

  lemma Parts(x: Bits, m: Bits)
    ensures (m & x) | (m & !x) == m && m & x == x & m
  {
  }

  lemma MissesEvents(x: Bits, m: Bits)
    ensures Misses(x, m) <==> Events(x) * Events(m) == iset{}
  {
    if Misses(x, m) {
      forall e | e in Events(x) ensures e !in Events(m) { NotBoth(x, m, e); }
    } else {
      var e := AnyBit(x & m);
      InBoth(x, m, e);
      assert e in Events(x) * Events(m);
    }
  }

  lemma NotBoth(x: Bits, m: Bits, e: Bits)
    requires Misses(x, m) && e != 0 && Covers(x, e)
    ensures !Covers(m, e)
  {
  }

  lemma InBoth(x: Bits, m: Bits, e: Bits)
    requires Covers(x & m, e)
    ensures Covers(x, e) && Covers(m, e)
  {
  }

  lemma EventsSame(x: Bits, y: Bits)
    requires Events(x) == Events(y)
    ensures x == y
  {
    CoversEvents(x, y);
    CoversEvents(y, x);
    hide Events;
  }
}
