/**
 * The seeded generator (xorshift32 over an FNV-1a seed), integer draws, and the
 * two Fisher-Yates shuffles built on it.  Machine words are 32-bit vectors; the
 * scaling of a draw to a range is done in exact integer arithmetic.
 */
module Random {
  import opened Collections

  // ---- Seeding ------------------------------------------------------------

  /** FNV-1a over the 16-bit code units of a string. */
  function Fnv1a(s: seq<bv16>): bv32 {
    if s == [] then 2166136261 else FnvMix(Fnv1a(s[..|s| - 1]), s[|s| - 1])
  }

  function FnvMix(h: bv32, unit: bv16): bv32 {
    (h ^ (unit as bv32)) * 16777619
  }

  function Seed(s: seq<bv16>): bv32 {
    if Fnv1a(s) == 0 then 1 else Fnv1a(s)
  }

  method SeedFromString(s: seq<bv16>) returns (seed: bv32)
    ensures seed == Seed(s) && seed != 0
  {
    hide FnvMix;
    var h: bv32 := 2166136261;
    for i := 0 to |s|
      invariant h == Fnv1a(s[..i])
    {
      assert s[..i + 1][..i] == s[..i];
      h := FnvMix(h, s[i]);
    }
    assert s[..|s|] == s;
    seed := if h == 0 then 1 else h;
  }

  // ---- xorshift32 ---------------------------------------------------------

  function Mix13(x: bv32): bv32 { x ^ (x << 13) }

  function Mix17(x: bv32): bv32 { x ^ (x >> 17) }

  function Mix5(x: bv32): bv32 { x ^ (x << 5) }

  function Step(x: bv32): bv32 { Mix5(Mix17(Mix13(x))) }

  function Unmix13(y: bv32): bv32 { y ^ (y << 13) ^ (y << 26) }

  function Unmix5(y: bv32): bv32 {
    y ^ (y << 5) ^ (y << 10) ^ (y << 15) ^ (y << 20) ^ (y << 25) ^ (y << 30)
  }

  /** The predecessor of a generator state. */
  function Unstep(y: bv32): bv32 { Unmix13(Mix17(Unmix5(y))) }

  lemma Mix13Inverts(x: bv32)
    ensures Unmix13(Mix13(x)) == x && Mix13(Unmix13(x)) == x
  {
    assert Unmix13(x ^ (x << 13)) == (x ^ (x << 13)) ^ ((x ^ (x << 13)) << 13) ^ ((x ^ (x << 13)) << 26);
    var u := x ^ (x << 13) ^ (x << 26);
    assert Mix13(x ^ (x << 13) ^ (x << 26)) == (x ^ (x << 13) ^ (x << 26)) ^ ((x ^ (x << 13) ^ (x << 26)) << 13);
  }

  lemma Mix17Inverts(x: bv32)
    ensures Mix17(Mix17(x)) == x
  {
    assert Mix17(x ^ (x >> 17)) == (x ^ (x >> 17)) ^ ((x ^ (x >> 17)) >> 17);
  }

  lemma Mix5ThenUnmix(x: bv32)
    ensures Unmix5(Mix5(x)) == x
  {
    assert Unmix5(x ^ (x << 5)) ==
           (x ^ (x << 5)) ^ ((x ^ (x << 5)) << 5) ^ ((x ^ (x << 5)) << 10) ^ ((x ^ (x << 5)) << 15)
           ^ ((x ^ (x << 5)) << 20) ^ ((x ^ (x << 5)) << 25) ^ ((x ^ (x << 5)) << 30);
  }

  lemma UnmixThenMix5(x: bv32)
    ensures Mix5(Unmix5(x)) == x
  {
    assert Mix5(x ^ (x << 5) ^ (x << 10) ^ (x << 15) ^ (x << 20) ^ (x << 25) ^ (x << 30)) ==
           (x ^ (x << 5) ^ (x << 10) ^ (x << 15) ^ (x << 20) ^ (x << 25) ^ (x << 30))
           ^ ((x ^ (x << 5) ^ (x << 10) ^ (x << 15) ^ (x << 20) ^ (x << 25) ^ (x << 30)) << 5);
  }

  /** The generator step is a bijection of the 32-bit states, so no two states share a successor,
      every state has a predecessor, and zero is reached from zero alone. */
  lemma StepIsBijective(x: bv32, y: bv32)
    ensures Unstep(Step(x)) == x && Step(Unstep(x)) == x
    ensures Step(x) == Step(y) ==> x == y
    ensures Step(x) == 0 <==> x == 0
  {
    hide Mix13, Mix17, Mix5, Unmix13, Unmix5;
    RoundTrip(x);
    RoundTrip(y);
    RoundTrip(0);
    assert Step(0) == 0 by { StepOfZero(); }
  }

  lemma StepOfZero()
    ensures Step(0) == 0
  {
  }

  lemma RoundTrip(x: bv32)
    ensures Unstep(Step(x)) == x && Step(Unstep(x)) == x
  {
    hide Mix13, Mix17, Mix5, Unmix13, Unmix5;
    Mix13Inverts(x);
    Mix17Inverts(Mix13(x));
    Mix5ThenUnmix(Mix17(Mix13(x)));
    UnmixThenMix5(x);
    Mix17Inverts(Unmix5(x));
    Mix13Inverts(Mix17(Unmix5(x)));
  }

  /** The state after n draws. */
  function After(x: bv32, n: nat): bv32
    decreases n
  {
    if n == 0 then x else After(Step(x), n - 1)
  }

  lemma {:induction false} StaysNonZero(x: bv32, n: nat)
    requires x != 0
    ensures After(x, n) != 0
    decreases n
  {
    hide Step;
    if n > 0 {
      StepIsBijective(x, 0);
      StaysNonZero(Step(x), n - 1);
    }
  }

  /** The first state of a generator with the given seed; zero, which the step would never leave, is replaced. */
  function FirstWord(seed: bv32): bv32 {
    if seed == 0 then 1 else seed
  }

  /** From no seed at all does any number of draws reach the absorbing zero state. */
  lemma NeverZero(seed: bv32, n: nat)
    ensures After(FirstWord(seed), n) != 0
  {
    hide After;
    StaysNonZero(FirstWord(seed), n);
  }

  /** Seed zero gives the generator of seed one, and every other seed its own. */
  lemma ZeroIsOne(seed: bv32, n: nat)
    ensures After(FirstWord(0), n) == After(1, n)
    ensures seed != 0 ==> After(FirstWord(seed), n) == After(seed, n)
  {
  }

  /** Known values of xorshift32 with shifts 13, 17 and 5, and of the 32-bit FNV-1a hash: of nothing, of "a", and of "b". */
  lemma KnownValues()
    ensures Step(1) == 270369 && Step(270369) == 67634689 && Step(2463534242) == 723471715
    ensures Fnv1a([]) == 0x811c9dc5 && Fnv1a([97]) == 0xe40c292c && Fnv1a([98]) == 0xe70c2de5
  {
    assert [97 as bv16][..0] == [] && [98 as bv16][..0] == [];
    assert FnvMix(0x811c9dc5, 97) == 0xe40c292c;
    assert FnvMix(0x811c9dc5, 98) == 0xe70c2de5;
  }

  /** The seed of a string is its hash, or one for a string that hashes to zero. */
  lemma SeedIsHash(s: seq<bv16>)
    ensures Fnv1a(s) != 0 ==> Seed(s) == Fnv1a(s)
    ensures Fnv1a(s) == 0 ==> Seed(s) == 1
  {
  }

  // ---- Draws --------------------------------------------------------------

  /** How a 32-bit word becomes an index below n: reduced modulo n, or scaled by n / 2^32. */
  datatype Scaling = Modulo | Scaled

  /** A word read as an unsigned number. */
  function Word(x: bv32): (n: nat)
    ensures n < 0x1_0000_0000
  {
    x as int
  }

  function Index(scaling: Scaling, u: nat, n: nat): (j: nat)
    requires u < 0x1_0000_0000 && n > 0
    ensures j < n
  {
    ScaledIndexInRange(u, n);
    match scaling
    case Modulo => u % n
    case Scaled => u * n / 0x1_0000_0000
  }

  lemma ScaledIndexInRange(u: nat, n: nat)
    requires u < 0x1_0000_0000 && n > 0
    ensures 0 <= u * n / 0x1_0000_0000 < n
  {
    assert u * n < 0x1_0000_0000 * n;
  }

  /** The value intInRange returns when the generator is in state x; None when the range is empty. */
  function Draw(x: bv32, min: int, max: int): (v: Option<int>)
    ensures v.None? <==> max < min
    ensures v.Some? ==> min <= v.value <= max
  {
    if max < min then None else Some(min + Index(Scaled, Word(Step(x)), max - min + 1))
  }

  /** The three in-place xor-shifts both generators inline. */
  method NextWord(word: bv32) returns (x: bv32)
    ensures x == Step(word)
  {
    hide Mix13, Mix17, Mix5;
    x := word;
    x := Mix13(x);
    x := Mix17(x);
    x := Mix5(x);
  }

  class SeededRandom {
    var state: bv32

    constructor (seed: bv32)
      ensures state == FirstWord(seed)
    {
      state := seed;
      if seed == 0 {
        state := 1;
      }
    }

    /** The numerator of the fraction u / 2^32 that the source returns as a float in [0, 1). */
    method Next() returns (u: nat)
      modifies this
      ensures state == Step(old(state)) && u == Word(state)
      ensures old(state) != 0 ==> state != 0
    {
      hide Step, Word;
      StepIsBijective(state, 0);
      state := NextWord(state);
      u := Word(state);
    }

    /** None stands for the exception on an empty range, raised before the state moves. */
    method IntInRange(min: int, max: int) returns (r: Option<int>)
      modifies this
      ensures r == Draw(old(state), min, max)
      ensures state == if max < min then old(state) else Step(old(state))
      ensures old(state) != 0 ==> state != 0
    {
      if max < min {
        return None;
      }
      var u := Next();
      ScaledIndexInRange(u, max - min + 1);
      r := Some(min + u * (max - min + 1) / 0x1_0000_0000);
    }
  }

  // ---- Shuffles -----------------------------------------------------------

  function SwapAt<T>(s: seq<T>, i: nat, j: nat): (r: seq<T>)
    requires i < |s| && j < |s|
    ensures |r| == |s|
  {
    s[i := s[j]][j := s[i]]
  }

  lemma SwapIsPermutation<T>(s: seq<T>, i: nat, j: nat)
    requires i < |s| && j < |s|
    ensures multiset(SwapAt(s, i, j)) == multiset(s)
  {
  }

  /** The Fisher-Yates steps i, i-1, .., 1 from generator state x. */
  function ShuffleFrom<T>(s: seq<T>, x: bv32, i: nat, scaling: Scaling): (r: seq<T>)
    requires i < |s| || i == 0
    ensures |r| == |s|
    decreases i
  {
    if i == 0 then s
    else ShuffleFrom(SwapAt(s, i, Index(scaling, Word(Step(x)), i + 1)), Step(x), i - 1, scaling)
  }

  function Shuffle<T>(s: seq<T>, x: bv32, scaling: Scaling): seq<T> {
    if s == [] then [] else ShuffleFrom(s, x, |s| - 1, scaling)
  }

  lemma {:induction false} ShuffleFromIsPermutation<T>(s: seq<T>, x: bv32, i: nat, scaling: Scaling)
    requires i < |s| || i == 0
    ensures multiset(ShuffleFrom(s, x, i, scaling)) == multiset(s)
    decreases i
  {
    if i > 0 {
      var j := Index(scaling, Word(Step(x)), i + 1);
      SwapIsPermutation(s, i, j);
      ShuffleFromIsPermutation(SwapAt(s, i, j), Step(x), i - 1, scaling);
    }
  }

  /** For every list and every generator state either shuffle only reorders the list. */
  lemma ShuffleIsPermutation<T>(s: seq<T>, x: bv32, scaling: Scaling)
    ensures multiset(Shuffle(s, x, scaling)) == multiset(s) && |Shuffle(s, x, scaling)| == |s|
  {
    if s != [] {
      ShuffleFromIsPermutation(s, x, |s| - 1, scaling);
    }
  }

  /** What the walk from position i may draw: an index up to the position each time. */
  ghost predicate ShuffleDraws(i: nat, draws: seq<nat>) {
    |draws| == i && forall k :: 0 <= k < i ==> draws[k] <= i - k
  }

  /** The Fisher-Yates steps i, i-1, .., 1 with the indices given. */
  ghost function Walk<T>(s: seq<T>, i: nat, draws: seq<nat>): (r: seq<T>)
    requires (i < |s| || i == 0) && ShuffleDraws(i, draws)
    ensures |r| == |s|
    decreases i
  {
    if i == 0 then s else Walk(SwapAt(s, i, draws[0]), i - 1, draws[1..])
  }

  /** The draws of the shuffle from generator state x: the word after k + 1 steps, reduced to an index below i + 1 - k. */
  ghost function DrawsFrom(x: bv32, i: nat, scaling: Scaling): (draws: seq<nat>)
    ensures ShuffleDraws(i, draws)
    ensures forall k :: 0 <= k < i ==>
              draws[k] == if scaling == Modulo then Word(After(x, k + 1)) % (i + 1 - k)
                          else Word(After(x, k + 1)) * (i + 1 - k) / 0x1_0000_0000
  {
    seq(i, k requires 0 <= k < i => DrawAt(x, i, k, scaling))
  }

  ghost function DrawAt(x: bv32, i: nat, k: nat, scaling: Scaling): (d: nat)
    requires k < i
    ensures d <= i - k
  {
    ScaledIndexInRange(Word(After(x, k + 1)), i + 1 - k);
    if scaling == Modulo then Word(After(x, k + 1)) % (i + 1 - k)
    else Word(After(x, k + 1)) * (i + 1 - k) / 0x1_0000_0000
  }

  /** The shuffle is the walk with these draws. */
  lemma {:induction false} ShuffleIsWalk<T>(s: seq<T>, x: bv32, i: nat, scaling: Scaling)
    requires i < |s| || i == 0
    ensures ShuffleFrom(s, x, i, scaling) == Walk(s, i, DrawsFrom(x, i, scaling))
    decreases i
  {
    if i > 0 {
      hide Step, Word;
      var draws := DrawsFrom(x, i, scaling);
      assert After(x, 1) == Step(x) by { assert After(Step(x), 0) == Step(x); }
      assert draws[0] == Index(scaling, Word(Step(x)), i + 1);
      ShuffleIsWalk(SwapAt(s, i, draws[0]), Step(x), i - 1, scaling);
      assert draws[1..] == DrawsFrom(Step(x), i - 1, scaling);
    }
  }

  /** Every reordering of the list is reached by some draws. */
  lemma {:induction false} EveryOrderIsReached<T>(s: seq<T>, t: seq<T>, i: nat) returns (draws: seq<nat>)
    requires (i < |s| || i == 0) && multiset(s) == multiset(t) && |s| == |t| && (|s| > 0 ==> s[i + 1..] == t[i + 1..])
    ensures ShuffleDraws(i, draws) && Walk(s, i, draws) == t
    decreases i
  {
    if i == 0 {
      draws := [];
      if |s| > 0 {
        LastOneFits(s, t);
      }
    } else {
      var j := ElementBelow(s, t, i);
      var next := SwapAt(s, i, j);
      SwapIsPermutation(s, i, j);
      assert next[i..] == t[i..] by {
        forall k | i < k < |s| ensures next[k] == t[k] {
          assert s[i + 1..][k - i - 1] == t[i + 1..][k - i - 1];
        }
      }
      var rest := EveryOrderIsReached(next, t, i - 1);
      draws := [j] + rest;
      assert draws[1..] == rest;
    }
  }

  lemma LastOneFits<T>(s: seq<T>, t: seq<T>)
    requires 0 < |s| == |t| && multiset(s) == multiset(t) && s[1..] == t[1..]
    ensures s == t
  {
    assert s == [s[0]] + s[1..] && t == [t[0]] + t[1..];
    assert multiset{s[0]} == multiset{t[0]} by {
      assert multiset(s) == multiset(s[1..]) + multiset{s[0]} && multiset(t) == multiset(s[1..]) + multiset{t[0]};
      Cancel(multiset(s[1..]), multiset{s[0]}, multiset{t[0]});
    }
    assert s[0] in multiset{t[0]};
  }

  /** With the tail in place, what belongs at position i is found at or below it. */
  lemma ElementBelow<T>(s: seq<T>, t: seq<T>, i: nat) returns (j: nat)
    requires i < |s| == |t| && multiset(s) == multiset(t) && s[i + 1..] == t[i + 1..]
    ensures j <= i && s[j] == t[i]
  {
    assert s == s[..i + 1] + s[i + 1..] && t == t[..i + 1] + t[i + 1..];
    assert multiset(s[..i + 1]) == multiset(t[..i + 1]) by {
      assert multiset(s) == multiset(s[i + 1..]) + multiset(s[..i + 1]);
      assert multiset(t) == multiset(s[i + 1..]) + multiset(t[..i + 1]);
      Cancel(multiset(s[i + 1..]), multiset(s[..i + 1]), multiset(t[..i + 1]));
    }
    assert t[..i + 1][i] in multiset(t[..i + 1]);
    assert t[i] in s[..i + 1];
    j :| 0 <= j < i + 1 && s[..i + 1][j] == t[i];
  }

  /** Of a list without repetitions different draws give different orders, so that every order has exactly one. */
  lemma {:induction false} DrawsAreUnique<T(!new)>(s: seq<T>, i: nat, a: seq<nat>, b: seq<nat>)
    requires NoDup(s) && (i < |s| || i == 0) && ShuffleDraws(i, a) && ShuffleDraws(i, b)
    requires Walk(s, i, a) == Walk(s, i, b)
    ensures a == b
    decreases i
  {
    if i > 0 {
      WalkKeepsTail(SwapAt(s, i, a[0]), i - 1, a[1..]);
      WalkKeepsTail(SwapAt(s, i, b[0]), i - 1, b[1..]);
      assert Walk(s, i, a)[i] == SwapAt(s, i, a[0])[i] == s[a[0]];
      assert Walk(s, i, b)[i] == SwapAt(s, i, b[0])[i] == s[b[0]];
      assert a[0] == b[0];
      SwapKeepsNoDup(s, i, a[0]);
      DrawsAreUnique(SwapAt(s, i, a[0]), i - 1, a[1..], b[1..]);
      assert a == [a[0]] + a[1..] && b == [b[0]] + b[1..];
    }
  }

  lemma {:induction false} WalkKeepsTail<T>(s: seq<T>, i: nat, draws: seq<nat>)
    requires (i < |s| || i == 0) && ShuffleDraws(i, draws)
    ensures forall k :: i < k < |s| ==> Walk(s, i, draws)[k] == s[k]
    decreases i
  {
    if i > 0 {
      WalkKeepsTail(SwapAt(s, i, draws[0]), i - 1, draws[1..]);
    }
  }

  lemma SwapKeepsNoDup<T(!new)>(s: seq<T>, i: nat, j: nat)
    requires NoDup(s) && i < |s| && j < |s|
    ensures NoDup(SwapAt(s, i, j))
  {
  }

  /** The Kingdoms shuffle: in place on a copy, with its own inlined generator. */
  method SeededShuffle<T>(arr: seq<T>, seed: seq<bv16>) returns (shuffled: seq<T>)
    ensures shuffled == Shuffle(arr, Seed(seed), Modulo)
    ensures multiset(shuffled) == multiset(arr)
  {
    hide Step, Word, Seed;
    ShuffleIsPermutation(arr, Seed(seed), Modulo);
    if arr == [] {
      return [];
    }
    var copy := new T[|arr|](i requires 0 <= i < |arr| => arr[i]);
    assert copy[..] == arr;
    var x := SeedFromString(seed);
    var i := copy.Length - 1;
    while i > 0
      invariant 0 <= i < copy.Length == |arr|
      invariant ShuffleFrom(copy[..], x, i, Modulo) == Shuffle(arr, Seed(seed), Modulo)
    {
      ghost var before := copy[..];
      x := NextWord(x);
      var j := Word(x) % (i + 1);
      copy[i], copy[j] := copy[j], copy[i];
      assert copy[..] == SwapAt(before, i, j);
      i := i - 1;
    }
    shuffled := copy[..];
  }

  /** The Frontier shuffle: the same walk driven by the shared generator object. */
  method RandomShuffle<T>(arr: seq<T>, rng: SeededRandom) returns (shuffled: seq<T>)
    modifies rng
    ensures shuffled == Shuffle(arr, old(rng.state), Scaled)
    ensures multiset(shuffled) == multiset(arr)
  {
    hide Step, Word;
    ShuffleIsPermutation(arr, rng.state, Scaled);
    if arr == [] {
      return [];
    }
    var copy := new T[|arr|](i requires 0 <= i < |arr| => arr[i]);
    assert copy[..] == arr;
    var i := copy.Length - 1;
    while i > 0
      invariant 0 <= i < copy.Length == |arr|
      invariant ShuffleFrom(copy[..], rng.state, i, Scaled) == Shuffle(arr, old(rng.state), Scaled)
    {
      ghost var before := copy[..];
      var j := rng.IntInRange(0, i);
      copy[i], copy[j.value] := copy[j.value], copy[i];
      assert copy[..] == SwapAt(before, i, j.value);
      i := i - 1;
    }
    shuffled := copy[..];
  }
}
