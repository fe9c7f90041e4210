/** Options, and facts about sequences without repetitions that several modules share. */
module Collections {

  datatype Option<+T> = None | Some(value: T)

  /** One test of a list of tests: the error if it fails, else what the rest of the list says. */
  function Demand<E>(met: bool, error: E, rest: Option<E>): Option<E> {
    if met then rest else Some(error)
  }

  ghost predicate NoDup<T(!new)>(s: seq<T>) {
    forall i, j :: 0 <= i < j < |s| ==> s[i] != s[j]
  }

  lemma {:induction false} MultiplicityOfNoDup<T(!new)>(s: seq<T>, x: T)
    requires NoDup(s)
    ensures multiset(s)[x] == if x in s then 1 else 0
  {
    if s == [] {
    } else {
      var rest := s[..|s| - 1];
      assert s == rest + [s[|s| - 1]];
      MultiplicityOfNoDup(rest, x);
    }
  }

  /** Two repetition-free sequences with the same elements are permutations of each other. */
  lemma SameElementsArePermutations<T(!new)>(s: seq<T>, t: seq<T>)
    requires NoDup(s) && NoDup(t)
    requires forall x :: x in s <==> x in t
    ensures multiset(s) == multiset(t) && |s| == |t|
  {
    forall x ensures multiset(s)[x] == multiset(t)[x] {
      MultiplicityOfNoDup(s, x);
      MultiplicityOfNoDup(t, x);
    }
    assert multiset(s) == multiset(t);
    assert |multiset(s)| == |multiset(t)|;
  }

  lemma SeenTwice<T>(s: seq<T>, i: nat, j: nat)
    requires i < j < |s| && s[i] == s[j]
    ensures multiset(s)[s[i]] >= 2
  {
    assert s == s[..j] + [s[j]] + s[j + 1..];
    assert s[..j][i] in multiset(s[..j]);
  }

  /** Whatever is drawn without replacement from a repetition-free sequence has no repetitions. */
  lemma SubBagIsDistinct<T(!new)>(a: seq<T>, b: seq<T>)
    requires multiset(a) <= multiset(b) && NoDup(b)
    ensures NoDup(a)
  {
    forall i, j | 0 <= i < j < |a| ensures a[i] != a[j] {
      if a[i] == a[j] {
        SeenTwice(a, i, j);
        MultiplicityOfNoDup(b, a[i]);
        assert false;
      }
    }
  }

  lemma NoDupConcat<T(!new)>(s: seq<T>, t: seq<T>)
    requires NoDup(s) && NoDup(t)
    requires forall x :: x in s ==> x !in t
    ensures NoDup(s + t)
  {
    forall i, j | 0 <= i < j < |s + t| ensures (s + t)[i] != (s + t)[j] {
      if i < |s| <= j {
        assert (s + t)[i] in s && (s + t)[j] in t;
      }
    }
  }

  function Elements<T(!new)>(s: seq<T>): (r: set<T>)
    ensures forall x :: x in r <==> x in s
  {
    set x | x in s
  }

  /** A sequence has at least as many places as elements, and exactly as many when nothing is repeated. */
  lemma {:induction false} ElementsCount<T(!new)>(s: seq<T>)
    ensures |Elements(s)| <= |s| && (|Elements(s)| == |s| <==> NoDup(s))
  {
    if s != [] {
      var init, last := s[..|s| - 1], s[|s| - 1];
      ElementsCount(init);
      assert s == init + [last];
      assert Elements(s) == Elements(init) + {last};
      if NoDup(init) && last !in init {
        NoDupConcat(init, [last]);
      }
    }
  }

  function Mapped<T, U>(f: T -> U, s: seq<T>): (r: seq<U>)
    ensures |r| == |s| && forall i :: 0 <= i < |r| ==> r[i] == f(s[i])
  {
    seq(|s|, i requires 0 <= i < |s| => f(s[i]))
  }

  /** n copies of one element. */
  function Repeat<T(!new)>(t: T, n: nat): (s: seq<T>)
    ensures |s| == n && multiset(s)[t] == n && (forall x :: x != t ==> multiset(s)[x] == 0)
  {
    if n == 0 then [] else Repeat(t, n - 1) + [t]
  }

  // ---- Sums -------------------------------------------------------------

  function Sum<T>(f: T -> int, s: seq<T>): int {
    if s == [] then 0 else f(s[0]) + Sum(f, s[1..])
  }

  lemma {:induction false} SumConcat<T>(f: T -> int, s: seq<T>, t: seq<T>)
    ensures Sum(f, s + t) == Sum(f, s) + Sum(f, t)
  {
    if s == [] {
      assert s + t == t;
    } else {
      assert (s + t)[1..] == s[1..] + t;
      SumConcat(f, s[1..], t);
    }
  }

  lemma SumLast<T>(f: T -> int, s: seq<T>, x: T)
    ensures Sum(f, s + [x]) == Sum(f, s) + f(x)
  {
    SumConcat(f, s, [x]);
    assert Sum(f, [x]) == f(x);
  }

  lemma WithoutOne<T>(t: seq<T>, i: nat)
    requires i < |t|
    ensures multiset(t) == multiset{t[i]} + multiset(t[..i] + t[i + 1..])
  {
    assert t == t[..i] + [t[i]] + t[i + 1..];
  }

  lemma Cancel<T>(a: multiset<T>, b: multiset<T>, c: multiset<T>)
    requires a + b == a + c
    ensures b == c
  {
    forall x ensures b[x] == c[x] {
      assert (a + b)[x] == (a + c)[x];
    }
  }

  lemma {:induction false} SumMiddle<T>(f: T -> int, before: seq<T>, x: T, after: seq<T>)
    ensures Sum(f, before + [x] + after) == f(x) + Sum(f, before + after)
  {
    assert Sum(f, [x]) == f(x);
    hide Sum;
    SumConcat(f, before + [x], after);
    SumConcat(f, before, [x]);
    SumConcat(f, before, after);
  }

  lemma {:induction false} SumPermutation<T>(f: T -> int, s: seq<T>, t: seq<T>)
    requires multiset(s) == multiset(t)
    ensures Sum(f, s) == Sum(f, t)
    decreases |s|
  {
    if s == [] {
      assert |multiset(t)| == 0;
    } else {
      assert s[0] in multiset(t);
      var i :| 0 <= i < |t| && t[i] == s[0];
      var rest := t[..i] + t[i + 1..];
      assert t == t[..i] + [t[i]] + t[i + 1..];
      SumMiddle(f, t[..i], t[i], t[i + 1..]);
      WithoutOne(t, i);
      assert s == [s[0]] + s[1..];
      assert multiset(s[1..]) == multiset(rest) by {
        Cancel(multiset{s[0]}, multiset(s[1..]), multiset(rest));
      }
      SumPermutation(f, s[1..], rest);
    }
  }

  lemma {:induction false} SumNonNegative<T>(f: T -> int, s: seq<T>)
    requires forall x <- s :: f(x) >= 0
    ensures Sum(f, s) >= 0
  {
    if s != [] {
      SumNonNegative(f, s[1..]);
    }
  }

  lemma {:induction false} SumCongruence<T>(f: T -> int, g: T -> int, s: seq<T>)
    requires forall x <- s :: f(x) == g(x)
    ensures Sum(f, s) == Sum(g, s)
  {
    if s != [] {
      SumCongruence(f, g, s[1..]);
    }
  }

  // ---- Sums of fractions -------------------------------------------------

  function RealSum<T>(f: T -> real, s: seq<T>): real {
    if s == [] then 0.0 else f(s[0]) + RealSum(f, s[1..])
  }

  lemma {:induction false} RealSumConcat<T>(f: T -> real, s: seq<T>, t: seq<T>)
    ensures RealSum(f, s + t) == RealSum(f, s) + RealSum(f, t)
  {
    if s == [] {
      assert s + t == t;
    } else {
      assert (s + t)[1..] == s[1..] + t;
      RealSumConcat(f, s[1..], t);
    }
  }

  lemma RealSumLast<T>(f: T -> real, s: seq<T>, x: T)
    ensures RealSum(f, s + [x]) == RealSum(f, s) + f(x)
  {
    RealSumConcat(f, s, [x]);
    assert RealSum(f, [x]) == f(x);
  }

  lemma RealSumMiddle<T>(f: T -> real, before: seq<T>, x: T, after: seq<T>)
    ensures RealSum(f, before + [x] + after) == f(x) + RealSum(f, before + after)
  {
    hide RealSum;
    RealSumConcat(f, before + [x], after);
    RealSumLast(f, before, x);
    RealSumConcat(f, before, after);
  }

  lemma {:induction false} RealSumCongruence<T>(f: T -> real, g: T -> real, s: seq<T>)
    requires forall x <- s :: f(x) == g(x)
    ensures RealSum(f, s) == RealSum(g, s)
  {
    if s != [] {
      RealSumCongruence(f, g, s[1..]);
    }
  }
}
