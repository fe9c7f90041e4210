/** The bag of resources each player holds: counts by resource type, in insertion order.  Counts are numbers, whole or not. */
module Inventory {
  import opened Collections

  datatype Bag = Bag(order: seq<string>, counts: map<string, real>)

  ghost predicate ValidBag(b: Bag) {
    NoDup(b.order) && forall t :: t in b.order <==> t in b.counts
  }

  function Count(b: Bag, t: string): real {
    if t in b.counts then b.counts[t] else 0.0
  }

  function CountFn(b: Bag): string -> real {
    t => Count(b, t)
  }

  function SetCount(b: Bag, t: string, n: real): Bag {
    Bag(if t in b.counts then b.order else b.order + [t], b.counts[t := n])
  }

  /** The sum of everything in the bag. */
  function TotalOf(b: Bag): real {
    RealSum(CountFn(b), b.order)
  }

  ghost predicate NoDebt(b: Bag) {
    forall t <- b.counts.Keys :: b.counts[t] >= 0.0
  }

  /** Changing one count changes the total by as much. */
  lemma TotalAfterSet(b: Bag, t: string, n: real)
    requires ValidBag(b)
    ensures ValidBag(SetCount(b, t, n))
    ensures TotalOf(SetCount(b, t, n)) == TotalOf(b) - Count(b, t) + n
  {
    hide RealSum;
    var after := SetCount(b, t, n);
    if t in b.counts {
      var i :| 0 <= i < |b.order| && b.order[i] == t;
      SameOrder(b, i, n);
    } else {
      NoDupConcat(b.order, [t]);
      NewLast(b, t, n);
    }
  }

  lemma SameOrder(b: Bag, i: nat, n: real)
    requires ValidBag(b) && i < |b.order|
    ensures TotalOf(SetCount(b, b.order[i], n)) == TotalOf(b) - Count(b, b.order[i]) + n
  {
    hide RealSum;
    var t := b.order[i];
    var after := SetCount(b, t, n);
    var before, rest := b.order[..i], b.order[i + 1..];
    assert b.order == before + [t] + rest;
    RealSumMiddle(CountFn(b), before, t, rest);
    RealSumMiddle(CountFn(after), before, t, rest);
    assert forall x <- before + rest :: x != t;
    RealSumCongruence(CountFn(b), CountFn(after), before + rest);
  }

  lemma NewLast(b: Bag, t: string, n: real)
    requires ValidBag(b) && t !in b.counts
    ensures TotalOf(SetCount(b, t, n)) == TotalOf(b) - Count(b, t) + n
  {
    hide RealSum, NoDup;
    var after := SetCount(b, t, n);
    RealSumLast(CountFn(after), b.order, t);
    RealSumCongruence(CountFn(b), CountFn(after), b.order);
  }

  class Inventory {
    var bag: Bag

    ghost predicate Valid()
      reads this
    {
      ValidBag(bag)
    }

    constructor (initial: Bag)
      requires ValidBag(initial)
      ensures Valid() && bag == initial
    {
      bag := initial;
    }

    function Get(t: string): real
      reads this
    {
      Count(bag, t)
    }

    predicate Has(t: string, qty: real)
      reads this
    {
      Get(t) >= qty
    }

    /** ok is false where the source throws: only for a negative quantity. */
    method Add(t: string, qty: real) returns (ok: bool)
      requires Valid()
      modifies this
      ensures Valid() && (ok <==> qty >= 0.0)
      ensures bag == if ok then SetCount(old(bag), t, Count(old(bag), t) + qty) else old(bag)
      ensures TotalOf(bag) == TotalOf(old(bag)) + if ok then qty else 0.0
      ensures old(NoDebt(bag)) ==> NoDebt(bag)
    {
      if qty < 0.0 {
        return false;
      }
      TotalAfterSet(bag, t, Get(t) + qty);
      bag := SetCount(bag, t, Get(t) + qty);
      ok := true;
    }

    /** Throws, changing nothing, for a negative quantity or one that is not there. */
    method Remove(t: string, qty: real) returns (ok: bool)
      requires Valid()
      modifies this
      ensures Valid() && (ok <==> 0.0 <= qty <= old(Get(t)))
      ensures bag == if ok then SetCount(old(bag), t, Count(old(bag), t) - qty) else old(bag)
      ensures TotalOf(bag) == TotalOf(old(bag)) - if ok then qty else 0.0
      ensures old(NoDebt(bag)) ==> NoDebt(bag)
    {
      if qty < 0.0 {
        return false;
      }
      var current := Get(t);
      if current < qty {
        return false;
      }
      TotalAfterSet(bag, t, current - qty);
      bag := SetCount(bag, t, current - qty);
      ok := true;
    }

    method Total() returns (sum: real)
      requires Valid()
      ensures sum == TotalOf(bag)
    {
      sum := 0.0;
      for i := 0 to |bag.order|
        invariant sum == RealSum(CountFn(bag), bag.order[..i])
      {
        assert bag.order[..i + 1] == bag.order[..i] + [bag.order[i]];
        RealSumLast(CountFn(bag), bag.order[..i], bag.order[i]);
        sum := sum + Get(bag.order[i]);
      }
      assert bag.order[..|bag.order|] == bag.order;
    }
  }
}
