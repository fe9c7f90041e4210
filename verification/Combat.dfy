/**
 * Battle resolution in exact arithmetic.  A force's strength is its total attack times
 * the square root of its size; squaring both sides removes the roots, and
 * `OutcomeAgreesWithRoots` ties the squares back to them.
 */
module Combat {
  import opened Collections
  import opened Random

  datatype Combatant<+I> = Combatant(id: I, attack: real)

  datatype Result<+I> = Result(
    attackerWins: bool, attackerStrength2: real, defenderStrength2: real,
    attackerLosses: seq<I>, defenderLosses: seq<I>, tileConquered: bool)

  // ---- Casualty selection ---------------------------------------------------

  predicate InRangeDraws(n: nat, i: nat, draws: seq<nat>) {
    i + |draws| <= n && forall k :: 0 <= k < |draws| ==> i + k <= draws[k] < n
  }

  /** The partial Fisher-Yates walk from position i, one swap per draw. */
  function PartialSwaps<T>(s: seq<T>, i: nat, draws: seq<nat>): (r: seq<T>)
    requires InRangeDraws(|s|, i, draws)
    ensures |r| == |s|
    decreases |draws|
  {
    if draws == [] then s
    else
      assert forall k :: 0 <= k < |draws[1..]| ==> draws[1..][k] == draws[k + 1];
      PartialSwaps(SwapAt(s, i, draws[0]), i + 1, draws[1..])
  }

  /** Whatever the draws are, the walk only reorders the items. */
  lemma {:induction false} PartialSwapsIsPermutation<T>(s: seq<T>, i: nat, draws: seq<nat>)
    requires InRangeDraws(|s|, i, draws)
    ensures multiset(PartialSwaps(s, i, draws)) == multiset(s)
    decreases |draws|
  {
    if draws != [] {
      assert forall k :: 0 <= k < |draws[1..]| ==> draws[1..][k] == draws[k + 1];
      SwapIsPermutation(s, i, draws[0]);
      PartialSwapsIsPermutation(SwapAt(s, i, draws[0]), i + 1, draws[1..]);
    }
  }

  /** The draws a generator in state x makes for positions i .. i + count - 1 of n items. */
  function Draws(x: bv32, n: nat, i: nat, count: nat): (draws: seq<nat>)
    requires i + count <= n
    ensures |draws| == count && InRangeDraws(n, i, draws)
    decreases count
  {
    if count == 0 then []
    else
      var rest := Draws(Step(x), n, i + 1, count - 1);
      var all := [Draw(x, i, n - 1).value] + rest;
      assert forall k :: 1 <= k < |all| ==> all[k] == rest[k - 1];
      all
  }

  predicate Shuffles(n: nat, count: int, rng: Option<bv32>) {
    0 < count < n && rng.Some?
  }

  function Pick<T>(items: seq<T>, count: int, rng: Option<bv32>): seq<T> {
    if count <= 0 then []
    else if Shuffles(|items|, count, rng) then
      PartialSwaps(items, 0, Draws(rng.value, |items|, 0, count))[..count]
    else if count < |items| then items[..count]
    else items
  }

  function PickState(n: nat, count: int, x: bv32): bv32 {
    if Shuffles(n, count, Some(x)) then After(x, count) else x
  }

  /** Exactly the requested number of items, capped by what there is, drawn without replacement. */
  lemma PickIsDrawWithoutReplacement<T(!new)>(items: seq<T>, count: int, rng: Option<bv32>)
    ensures |Pick(items, count, rng)| == if count <= 0 then 0 else if count < |items| then count else |items|
    ensures multiset(Pick(items, count, rng)) <= multiset(items)
    ensures forall x <- Pick(items, count, rng) :: x in items
  {
    var all := if Shuffles(|items|, count, rng)
      then PartialSwaps(items, 0, Draws(rng.value, |items|, 0, count)) else items;
    if Shuffles(|items|, count, rng) {
      PartialSwapsIsPermutation(items, 0, Draws(rng.value, |items|, 0, count));
    }
    hide PartialSwaps, Draws;
    assert multiset(all) == multiset(items);
    var k := |Pick(items, count, rng)|;
    assert Pick(items, count, rng) == all[..k];
    assert all == all[..k] + all[k..];
    forall x | x in all[..k] ensures x in items {
      assert x in multiset(all);
    }
  }

  /** The k-th draw scales the word after k + 1 steps to the positions not yet settled. */
  lemma {:induction false} DrawsByWord(x: bv32, n: nat, i: nat, count: nat, k: nat)
    requires i + count <= n && k < count
    ensures Draws(x, n, i, count)[k] == i + k + Word(After(x, k + 1)) * (n - i - k) / 0x1_0000_0000
    decreases count
  {
    hide Step, Word;
    DrawsUnroll(x, n, i, count);
    if k == 0 {
      assert After(Step(x), 0) == Step(x);
      hide After;
      ScaledIndexInRange(Word(Step(x)), n - i);
    } else {
      DrawsByWord(Step(x), n, i + 1, count - 1, k - 1);
    }
  }

  /** A selection smaller than the list is the front of the walk whose draws are read off the generator's words, and moves the
      generator on by one step for each item selected; otherwise nothing is drawn. */
  lemma PickFollowsWords<T>(items: seq<T>, count: nat, x: bv32) returns (draws: seq<nat>)
    ensures |draws| == (if 0 < count < |items| then count else 0) && InRangeDraws(|items|, 0, draws)
    ensures forall k :: 0 <= k < |draws| ==> draws[k] == k + Word(After(x, k + 1)) * (|items| - k) / 0x1_0000_0000
    ensures var n := if count <= |items| then count else |items|;
            Pick(items, count, Some(x)) == PartialSwaps(items, 0, draws)[..n]
    ensures PickState(|items|, count, x) == After(x, |draws|)
  {
    if 0 < count < |items| {
      draws := Draws(x, |items|, 0, count);
      forall k | 0 <= k < count ensures draws[k] == k + Word(After(x, k + 1)) * (|items| - k) / 0x1_0000_0000 {
        DrawsByWord(x, |items|, 0, count, k);
      }
    } else {
      draws := [];
      assert items[..|items|] == items;
    }
  }

  /** Every selection, in every order, is drawn by some draws. */
  lemma {:induction false} EverySelectionIsReached<T>(items: seq<T>, goal: seq<T>, i: nat, count: nat)
      returns (draws: seq<nat>)
    requires i + count <= |items| == |goal| && multiset(items) == multiset(goal) && items[..i] == goal[..i]
    ensures |draws| == count && InRangeDraws(|items|, i, draws)
    ensures PartialSwaps(items, i, draws)[..i + count] == goal[..i + count]
    decreases count
  {
    if count == 0 {
      draws := [];
    } else {
      var j := ElementAbove(items, goal, i);
      var next := SwapAt(items, i, j);
      SwapIsPermutation(items, i, j);
      assert next[..i + 1] == goal[..i + 1] by {
        forall k | 0 <= k < i ensures next[k] == goal[k] {
          assert items[..i][k] == goal[..i][k];
        }
      }
      var rest := EverySelectionIsReached(next, goal, i + 1, count - 1);
      draws := [j] + rest;
      assert draws[1..] == rest;
    }
  }

  /** With the front in place, what belongs at position i is found at or after it. */
  lemma ElementAbove<T>(s: seq<T>, t: seq<T>, i: nat) returns (j: nat)
    requires i < |s| == |t| && multiset(s) == multiset(t) && s[..i] == t[..i]
    ensures i <= j < |s| && s[j] == t[i]
  {
    assert s == s[..i] + s[i..] && t == t[..i] + t[i..];
    assert multiset(s[i..]) == multiset(t[i..]) by {
      assert multiset(s) == multiset(s[..i]) + multiset(s[i..]) && multiset(t) == multiset(s[..i]) + multiset(t[i..]);
      Cancel(multiset(s[..i]), multiset(s[i..]), multiset(t[i..]));
    }
    assert t[i..][0] in multiset(t[i..]);
    assert t[i] in s[i..];
    var k :| 0 <= k < |s| - i && s[i..][k] == t[i];
    j := i + k;
  }

  /** One swap of the walk, with the draw a generator in state x makes for it. */
  lemma WalkUnroll<T>(s: seq<T>, x: bv32, i: nat, count: nat)
    requires i + count <= |s| && count > 0
    ensures PartialSwaps(s, i, Draws(x, |s|, i, count)) ==
            PartialSwaps(SwapAt(s, i, Draw(x, i, |s| - 1).value), i + 1, Draws(Step(x), |s|, i + 1, count - 1))
  {
    hide Step, Draw;
    DrawsUnroll(x, |s|, i, count);
    var draws := Draws(x, |s|, i, count);
    assert draws[1..] == Draws(Step(x), |s|, i + 1, count - 1);
  }

  lemma DrawsUnroll(x: bv32, n: nat, i: nat, count: nat)
    requires i + count <= n && count > 0
    ensures Draws(x, n, i, count) == [Draw(x, i, n - 1).value] + Draws(Step(x), n, i + 1, count - 1)
  {
  }

  lemma WalkEnds<T>(s: seq<T>, x: bv32, i: nat)
    requires i <= |s|
    ensures PartialSwaps(s, i, Draws(x, |s|, i, 0)) == s
  {
  }

  lemma SwapInPlace<T>(before: seq<T>, after: seq<T>, i: nat, j: nat)
    requires i < |before| == |after| && j < |before|
    requires after == before[i := before[j]][j := before[i]]
    ensures after == SwapAt(before, i, j)
  {
  }

  /** The swapping loop of the selection, in place. */
  method SwapWalk<T>(copy: array<T>, count: nat, rng: SeededRandom)
    requires count <= copy.Length
    modifies copy, rng
    ensures copy[..] == PartialSwaps(old(copy[..]), 0, Draws(old(rng.state), copy.Length, 0, count))
    ensures rng.state == After(old(rng.state), count)
  {
    hide Step, PartialSwaps, Draws, SwapAt;
    ghost var goal := PartialSwaps(copy[..], 0, Draws(rng.state, copy.Length, 0, count));
    for i := 0 to count
      invariant PartialSwaps(copy[..], i, Draws(rng.state, copy.Length, i, count - i)) == goal
      invariant After(rng.state, count - i) == After(old(rng.state), count)
    {
      ghost var before := copy[..];
      WalkUnroll(before, rng.state, i, count - i);
      var j := rng.IntInRange(i, copy.Length - 1);
      copy[i], copy[j.value] := copy[j.value], copy[i];
      SwapInPlace(before, copy[..], i, j.value);
    }
    WalkEnds(copy[..], rng.state, count);
  }

  method PickRandom<T>(items: seq<T>, count: int, rng: SeededRandom?) returns (picked: seq<T>)
    modifies if rng == null then {} else {rng}
    ensures picked == Pick(items, count, if rng == null then None else Some(old(rng.state)))
    ensures rng != null ==> rng.state == PickState(|items|, count, old(rng.state))
  {
    if count <= 0 {
      return [];
    }
    if rng == null || count >= |items| {
      return if count < |items| then items[..count] else items;
    }
    hide PartialSwaps, Draws, After;
    var copy := new T[|items|](i requires 0 <= i < |items| => items[i]);
    assert copy[..] == items;
    SwapWalk(copy, count, rng);
    picked := copy[..count];
  }

  // ---- Products of reals ------------------------------------------------------

  function Times(a: real, b: real): real { a * b }

  function Square(a: real): real { Times(a, a) }

  lemma TimesCommutes(a: real, b: real)
    ensures Times(a, b) == Times(b, a)
  {
  }

  lemma TimesRegroups(a: real, b: real, c: real)
    ensures Times(Times(a, b), c) == Times(a, Times(b, c))
  {
  }

  lemma ScaleMonotone(a: real, b: real, c: real)
    requires a <= b && c >= 0.0
    ensures Times(a, c) <= Times(b, c)
  {
  }

  lemma ScaleStrict(a: real, b: real, c: real)
    requires a < b && c > 0.0
    ensures Times(a, c) < Times(b, c)
  {
  }

  lemma TimesPositive(a: real, b: real)
    ensures a >= 0.0 && b >= 0.0 ==> Times(a, b) >= 0.0
    ensures a > 0.0 && b > 0.0 ==> Times(a, b) > 0.0
  {
  }

  lemma SquareMonotone(a: real, b: real)
    requires a >= 0.0 && b >= 0.0
    ensures a <= b <==> Square(a) <= Square(b)
    ensures a < b <==> Square(a) < Square(b)
  {
    hide Times;
    TimesCommutes(a, b);
    if a < b {
      ScaleMonotone(a, b, a);
      ScaleStrict(a, b, b);
    } else if b < a {
      ScaleMonotone(b, a, b);
      ScaleStrict(b, a, a);
    }
  }

  lemma SquareOfProduct(a: real, b: real)
    ensures Square(Times(a, b)) == Times(Square(a), Square(b))
  {
    hide Times;
    TimesRegroups(a, b, Times(a, b));
    TimesCommutes(a, b);
    TimesRegroups(b, b, a);
    TimesCommutes(Square(b), a);
    TimesRegroups(a, a, Square(b));
  }

  // ---- Strength -----------------------------------------------------------------

  function TotalAttack<I>(force: seq<Combatant<I>>): real {
    if force == [] then 0.0 else TotalAttack(force[..|force| - 1]) + force[|force| - 1].attack
  }

  /** The square of total attack times the root of the size. */
  function Strength2<I>(force: seq<Combatant<I>>): real {
    Times(Square(TotalAttack(force)), |force| as real)
  }

  function DefenseBonus(terrain: real, structures: seq<real>): real {
    if structures == [] then terrain
    else Times(DefenseBonus(terrain, structures[..|structures| - 1]), structures[|structures| - 1])
  }

  /** One more structure multiplies the bonus, and so the defender's strength, by its own multiplier. */
  lemma AnotherStructure<I>(defenders: seq<Combatant<I>>, terrain: real, structures: seq<real>, x: real)
    ensures DefenseBonus(terrain, []) == terrain
    ensures DefenseBonus(terrain, structures + [x]) == Times(DefenseBonus(terrain, structures), x)
    ensures Times(Strength2(defenders), Square(DefenseBonus(terrain, structures + [x]))) ==
            Times(Times(Strength2(defenders), Square(DefenseBonus(terrain, structures))), Square(x))
  {
    hide Times, Strength2;
    assert (structures + [x])[..|structures|] == structures;
    SquareOfProduct(DefenseBonus(terrain, structures), x);
    TimesRegroups(Strength2(defenders), Square(DefenseBonus(terrain, structures)), Square(x));
  }

  lemma {:induction false} StructureOutOfOrder(terrain: real, before: seq<real>, x: real, after: seq<real>)
    ensures DefenseBonus(terrain, before + [x] + after) == Times(DefenseBonus(terrain, before + after), x)
  {
    hide Times;
    if after == [] {
      assert before + [x] + after == before + [x] && before + after == before;
      assert (before + [x])[..|before|] == before;
    } else {
      var init, y := after[..|after| - 1], after[|after| - 1];
      StructureOutOfOrder(terrain, before, x, init);
      assert (before + [x] + after)[..|before + [x] + after| - 1] == before + [x] + init;
      assert (before + after)[..|before + after| - 1] == before + init;
      var b := DefenseBonus(terrain, before + init);
      TimesRegroups(b, x, y);
      TimesRegroups(b, y, x);
      TimesCommutes(x, y);
    }
  }

  /** The order of the structures does not matter. */
  lemma {:induction false} StructuresInAnyOrder(terrain: real, a: seq<real>, b: seq<real>)
    requires multiset(a) == multiset(b)
    ensures DefenseBonus(terrain, a) == DefenseBonus(terrain, b)
    decreases |a|
  {
    if a == [] {
      assert |multiset(b)| == 0;
    } else {
      hide Times, DefenseBonus;
      var init, x := a[..|a| - 1], a[|a| - 1];
      assert a == init + [x];
      assert x in multiset(b);
      var i :| 0 <= i < |b| && b[i] == x;
      var rest := b[..i] + b[i + 1..];
      assert b == b[..i] + [x] + b[i + 1..];
      WithoutOne(b, i);
      Cancel(multiset{x}, multiset(init), multiset(rest));
      StructuresInAnyOrder(terrain, init, rest);
      StructureOutOfOrder(terrain, b[..i], x, b[i + 1..]);
      StructureOutOfOrder(terrain, init, x, []);
      assert init + [x] + [] == a && init + [] == init;
    }
  }

  ghost predicate Armed<I>(force: seq<Combatant<I>>) {
    forall c <- force :: c.attack > 0.0
  }

  lemma {:induction false} ArmedForceIsStrong<I>(force: seq<Combatant<I>>)
    requires Armed(force)
    ensures TotalAttack(force) >= 0.0 && Strength2(force) >= 0.0
    ensures force != [] ==> TotalAttack(force) > 0.0 && Strength2(force) > 0.0
  {
    hide Times;
    if force != [] {
      var init := force[..|force| - 1];
      assert Armed(init);
      ArmedForceIsStrong(init);
      assert force[|force| - 1] in force;
    }
    TimesPositive(TotalAttack(force), TotalAttack(force));
    TimesPositive(Square(TotalAttack(force)), |force| as real);
  }

  // ---- Casualty counts ------------------------------------------------------------

  /** k is at most the share of n times the ratio of the weaker strength to the stronger, squared. */
  predicate Affordable(k: nat, n: nat, share: real, weak2: real, strong2: real) {
    Times(Square(k as real), strong2) <= Times(Square(Times(n as real, share)), weak2)
  }

  /** No more than the share of the force is affordable, and strictly less against a strictly weaker enemy. */
  lemma AffordableIsBounded(k: nat, n: nat, share: real, weak2: real, strong2: real)
    requires share > 0.0 && 0.0 <= weak2 <= strong2 && strong2 > 0.0
    requires Affordable(k, n, share, weak2, strong2)
    ensures (k as real) <= Times(n as real, share)
    ensures weak2 < strong2 && n > 0 ==> (k as real) < Times(n as real, share)
  {
    hide Times;
    var a, b := k as real, Times(n as real, share);
    TimesPositive(n as real, share);
    TimesPositive(b, b);
    TimesCommutes(weak2, Square(b));
    TimesCommutes(strong2, Square(b));
    ScaleMonotone(weak2, strong2, Square(b));
    SquareMonotone(a, b);
    if a > b {
      ScaleStrict(Square(b), Square(a), strong2);
    } else if a == b && weak2 < strong2 && n > 0 {
      ScaleStrict(weak2, strong2, Square(b));
    }
  }

  /** The largest affordable number of casualties, found from k downwards. */
  function Casualties(k: nat, n: nat, share: real, weak2: real, strong2: real): (c: nat)
    requires weak2 >= 0.0
    ensures c <= k && Affordable(c, n, share, weak2, strong2)
    ensures forall j: nat :: c < j <= k ==> !Affordable(j, n, share, weak2, strong2)
  {
    if k == 0 then
      ZeroIsAffordable(n, share, weak2, strong2);
      0
    else if Affordable(k, n, share, weak2, strong2) then k
    else Casualties(k - 1, n, share, weak2, strong2)
  }

  /** With the roots back in place the count is the floor of size * share * (weaker / stronger). */
  lemma CasualtiesAreTheFloor(n: nat, share: real, weak: real, strong: real)
    requires 0.0 <= weak <= strong && strong > 0.0 && 0.0 < share < 1.0
    ensures Square(weak) >= 0.0
    ensures var c := Casualties(n, n, share, Square(weak), Square(strong));
            Times(c as real, strong) <= Times(Times(n as real, share), weak) < Times((c + 1) as real, strong)
  {
    hide Times;
    TimesPositive(weak, weak);
    TimesPositive(strong, strong);
    var c := Casualties(n, n, share, Square(weak), Square(strong));
    AffordableWithRoots(c, n, share, weak, strong);
    if c < n {
      AffordableWithRoots(c + 1, n, share, weak, strong);
    } else {
      var b := Times(n as real, share);
      ShareIsSmaller(n, share);
      TimesPositive(n as real, share);
      TimesCommutes(weak, b);
      TimesCommutes(strong, b);
      ScaleMonotone(weak, strong, b);
      ScaleStrict(b, (n + 1) as real, strong);
    }
  }

  lemma ShareIsSmaller(n: nat, share: real)
    requires 0.0 < share < 1.0
    ensures Times(n as real, share) < (n + 1) as real
  {
    var r := n as real;
    assert (n + 1) as real == r + 1.0;
    TimesCommutes(r, share);
    ScaleMonotone(share, 1.0, r);
  }

  lemma AffordableWithRoots(k: nat, n: nat, share: real, weak: real, strong: real)
    requires 0.0 <= weak && 0.0 <= strong && share > 0.0
    ensures Affordable(k, n, share, Square(weak), Square(strong)) <==>
            Times(k as real, strong) <= Times(Times(n as real, share), weak)
  {
    var b := Times(n as real, share);
    hide Times, Square;
    TimesPositive(n as real, share);
    TimesPositive(k as real, strong);
    TimesPositive(b, weak);
    SquareOfProduct(k as real, strong);
    SquareOfProduct(b, weak);
    SquareMonotone(Times(k as real, strong), Times(b, weak));
  }

  lemma ZeroIsAffordable(n: nat, share: real, weak2: real, strong2: real)
    requires weak2 >= 0.0
    ensures Affordable(0, n, share, weak2, strong2)
  {
    SquareIsNonNegative(Times(n as real, share));
    TimesPositive(Square(Times(n as real, share)), weak2);
    hide Square;
    assert Square(0.0) == 0.0 by { ZeroSquared(); }
    assert Times(0.0, strong2) == 0.0;
  }

  lemma ZeroSquared()
    ensures Square(0.0) == 0.0
  {
  }

  lemma SquareIsNonNegative(a: real)
    ensures Square(a) >= 0.0
  {
    if a < 0.0 {
      TimesPositive(-a, -a);
    } else {
      TimesPositive(a, a);
    }
  }

  // ---- The battle -------------------------------------------------------------

  function Ids<I>(force: seq<Combatant<I>>): seq<I> {
    Mapped((c: Combatant<I>) => c.id, force)
  }

  function DefenderStrength2<I>(defenders: seq<Combatant<I>>, terrain: real, structures: seq<real>): real {
    Times(Strength2(defenders), Square(DefenseBonus(terrain, structures)))
  }

  lemma StrengthsAreNonNegative<I>(force: seq<Combatant<I>>, terrain: real, structures: seq<real>)
    ensures Strength2(force) >= 0.0 && DefenderStrength2(force, terrain, structures) >= 0.0
  {
    hide Square;
    SquareIsNonNegative(TotalAttack(force));
    SquareIsNonNegative(DefenseBonus(terrain, structures));
    TimesPositive(Square(TotalAttack(force)), |force| as real);
    TimesPositive(Strength2(force), Square(DefenseBonus(terrain, structures)));
  }

  function LossCount(attackers: nat, defenders: nat, a2: real, d2: real): nat
    requires a2 >= 0.0 && d2 >= 0.0
  {
    if defenders == 0 then 0
    else if a2 > d2 then Casualties(attackers, attackers, 0.5, d2, a2)
    else Casualties(defenders, defenders, 0.4, a2, d2)
  }

  function Losses<I>(attackers: seq<Combatant<I>>, defenders: seq<Combatant<I>>,
                     terrain: real, structures: seq<real>): nat
  {
    StrengthsAreNonNegative(attackers, terrain, structures);
    StrengthsAreNonNegative(defenders, terrain, structures);
    LossCount(|attackers|, |defenders|, Strength2(attackers), DefenderStrength2(defenders, terrain, structures))
  }

  function ResolveAttack<I>(attackers: seq<Combatant<I>>, defenders: seq<Combatant<I>>,
                            terrain: real, structures: seq<real>, rng: Option<bv32>): Result<I>
  {
    var a2, d2 := Strength2(attackers), DefenderStrength2(defenders, terrain, structures);
    var losses := Losses(attackers, defenders, terrain, structures);
    if defenders == [] then Result(true, a2, 0.0, [], [], true)
    else if a2 > d2 then Result(true, a2, d2, Ids(Pick(attackers, losses, rng)), Ids(defenders), true)
    else Result(false, a2, d2, Ids(attackers), Ids(Pick(defenders, losses, rng)), false)
  }

  /** The generator state after a battle. */
  function StateAfterAttack<I>(attackers: seq<Combatant<I>>, defenders: seq<Combatant<I>>,
                               terrain: real, structures: seq<real>, x: bv32): bv32
  {
    var losses := Losses(attackers, defenders, terrain, structures);
    if defenders == [] then x
    else if Strength2(attackers) > DefenderStrength2(defenders, terrain, structures)
    then PickState(|attackers|, losses, x)
    else PickState(|defenders|, losses, x)
  }

  method Resolve<I>(attackers: seq<Combatant<I>>, defenders: seq<Combatant<I>>,
                    terrain: real, structures: seq<real>, rng: SeededRandom?) returns (result: Result<I>)
    modifies if rng == null then {} else {rng}
    ensures result == ResolveAttack(attackers, defenders, terrain, structures,
                                    if rng == null then None else Some(old(rng.state)))
    ensures rng != null ==>
              rng.state == StateAfterAttack(attackers, defenders, terrain, structures, old(rng.state))
  {
    hide Strength2, DefenderStrength2, Losses, Pick, PickState;
    var a2 := Strength2(attackers);
    var d2 := DefenderStrength2(defenders, terrain, structures);
    if defenders == [] {
      return Result(true, a2, 0.0, [], [], true);
    }
    var losses := Losses(attackers, defenders, terrain, structures);
    if a2 > d2 {
      var dead := PickRandom(attackers, losses, rng);
      return Result(true, a2, d2, Ids(dead), Ids(defenders), true);
    } else {
      var dead := PickRandom(defenders, losses, rng);
      return Result(false, a2, d2, Ids(attackers), Ids(dead), false);
    }
  }

  // ---- What a battle does -----------------------------------------------------------

  ghost predicate PositiveBonuses(terrain: real, structures: seq<real>) {
    terrain > 0.0 && forall s <- structures :: s > 0.0
  }

  lemma {:induction false} BonusIsPositive(terrain: real, structures: seq<real>)
    requires PositiveBonuses(terrain, structures)
    ensures DefenseBonus(terrain, structures) > 0.0
  {
    if structures != [] {
      var init := structures[..|structures| - 1];
      assert forall s <- init :: s in structures;
      BonusIsPositive(terrain, init);
      assert structures[|structures| - 1] in structures;
      TimesPositive(DefenseBonus(terrain, init), structures[|structures| - 1]);
    }
  }

  lemma DefendersAreStrong<I>(defenders: seq<Combatant<I>>, terrain: real, structures: seq<real>)
    requires defenders != [] && Armed(defenders) && PositiveBonuses(terrain, structures)
    ensures DefenderStrength2(defenders, terrain, structures) > 0.0
  {
    hide Times, Strength2;
    BonusIsPositive(terrain, structures);
    var bonus := DefenseBonus(terrain, structures);
    ArmedForceIsStrong(defenders);
    TimesPositive(bonus, bonus);
    TimesPositive(Strength2(defenders), Square(bonus));
  }

  lemma IdsOfPick<I(!new)>(force: seq<Combatant<I>>, count: int, rng: Option<bv32>)
    ensures multiset(Ids(Pick(force, count, rng))) <= multiset(Ids(force))
  {
    var picked := Pick(force, count, rng);
    PickIsDrawWithoutReplacement(force, count, rng);
    hide Pick;
    IdsOfSubBag(picked, force);
  }

  lemma IdsAround<I(!new)>(before: seq<Combatant<I>>, c: Combatant<I>, after: seq<Combatant<I>>)
    ensures multiset(Ids(before + [c] + after)) == multiset{c.id} + multiset(Ids(before + after))
  {
    assert Ids(before + [c] + after) == Ids(before) + [c.id] + Ids(after);
    assert Ids(before + after) == Ids(before) + Ids(after);
  }

  lemma {:induction false} IdsOfSubBag<I(!new)>(s: seq<Combatant<I>>, t: seq<Combatant<I>>)
    requires multiset(s) <= multiset(t)
    ensures multiset(Ids(s)) <= multiset(Ids(t))
    decreases |s|
  {
    if s != [] {
      hide Ids;
      assert s[0] in multiset(s);
      var i :| 0 <= i < |t| && t[i] == s[0];
      var rest := t[..i] + t[i + 1..];
      WithoutOne(t, i);
      assert s == [] + [s[0]] + s[1..] && t == t[..i] + [t[i]] + t[i + 1..];
      IdsAround([], s[0], s[1..]);
      IdsAround(t[..i], t[i], t[i + 1..]);
      assert [] + s[1..] == s[1..];
      SmallerBags(multiset{s[0]}, multiset(s[1..]), multiset(rest));
      IdsOfSubBag(s[1..], rest);
    }
  }

  lemma SmallerBags<T>(a: multiset<T>, b: multiset<T>, c: multiset<T>)
    requires a + b <= a + c
    ensures b <= c
  {
    forall x ensures b[x] <= c[x] {
      assert (a + b)[x] <= (a + c)[x];
    }
  }

  /** The attack is won exactly when nobody defends or the attackers are strictly stronger.  An
      undefended tile costs nothing.  The losing side dies to the last unit; a winning attacker loses
      strictly less than half its force, a winning defender at most two fifths, drawn without
      replacement from its own side. */
  lemma BattleOutcome<I(!new)>(attackers: seq<Combatant<I>>, defenders: seq<Combatant<I>>,
                               terrain: real, structures: seq<real>, rng: Option<bv32>)
    requires Armed(attackers) && Armed(defenders) && PositiveBonuses(terrain, structures)
    ensures var r := ResolveAttack(attackers, defenders, terrain, structures, rng);
            && r.tileConquered == r.attackerWins
            && (r.attackerWins <==> defenders == []
                                    || Strength2(attackers) > DefenderStrength2(defenders, terrain, structures))
            && (defenders == [] ==> r.attackerLosses == [] == r.defenderLosses)
            && (r.attackerWins && defenders != [] ==>
                  && r.defenderLosses == Ids(defenders)
                  && multiset(r.attackerLosses) <= multiset(Ids(attackers))
                  && |r.attackerLosses| == Losses(attackers, defenders, terrain, structures)
                  && 2 * |r.attackerLosses| < |attackers|)
            && (!r.attackerWins ==>
                  && defenders != [] && r.attackerLosses == Ids(attackers)
                  && multiset(r.defenderLosses) <= multiset(Ids(defenders))
                  && |r.defenderLosses| == Losses(attackers, defenders, terrain, structures)
                  && 5 * |r.defenderLosses| <= 2 * |defenders|)
  {
    var losses := Losses(attackers, defenders, terrain, structures);
    if defenders != [] {
      LossesAreBounded(attackers, defenders, terrain, structures);
      hide Strength2, DefenderStrength2, Losses;
      IdsOfPick(attackers, losses, rng);
      IdsOfPick(defenders, losses, rng);
      PickIsDrawWithoutReplacement(attackers, losses, rng);
      PickIsDrawWithoutReplacement(defenders, losses, rng);
      hide Pick;
    }
  }

  lemma LossesAreBounded<I>(attackers: seq<Combatant<I>>, defenders: seq<Combatant<I>>,
                            terrain: real, structures: seq<real>)
    requires Armed(attackers) && Armed(defenders) && PositiveBonuses(terrain, structures) && defenders != []
    ensures var losses := Losses(attackers, defenders, terrain, structures);
            if Strength2(attackers) > DefenderStrength2(defenders, terrain, structures)
            then losses <= |attackers| && 2 * losses < |attackers|
            else losses <= |defenders| && 5 * losses <= 2 * |defenders|
  {
    var a2, d2 := Strength2(attackers), DefenderStrength2(defenders, terrain, structures);
    DefendersAreStrong(defenders, terrain, structures);
    StrengthsAreNonNegative(attackers, terrain, structures);
    NobodyIsWeak(attackers);
    var losses := Losses(attackers, defenders, terrain, structures);
    hide Strength2, DefenderStrength2, Affordable;
    if a2 > d2 {
      AffordableIsBounded(losses, |attackers|, 0.5, d2, a2);
    } else {
      AffordableIsBounded(losses, |defenders|, 0.4, a2, d2);
    }
  }

  lemma NobodyIsWeak<I>(force: seq<Combatant<I>>)
    ensures force == [] ==> Strength2(force) == 0.0
  {
  }

  /** An attacker still standing means the attack was won, and then no defender is. */
  lemma SurvivorMeansDefendersDied<I(!new)>(attackers: seq<Combatant<I>>, defenders: seq<Combatant<I>>,
                                            terrain: real, structures: seq<real>, rng: Option<bv32>, survivor: I)
    requires survivor in Ids(attackers)
    requires survivor !in ResolveAttack(attackers, defenders, terrain, structures, rng).attackerLosses
    ensures ResolveAttack(attackers, defenders, terrain, structures, rng).attackerWins
    ensures ResolveAttack(attackers, defenders, terrain, structures, rng).defenderLosses == Ids(defenders)
  {
  }

  /** With the square roots of the two sizes at hand the battle goes as the unsquared formulas say: strength is total
      attack times root, the attack is won iff it is the larger, and the winner loses the floor of
      size * share * weaker / stronger. */
  lemma OutcomeAgreesWithRoots<I(!new)>(attackers: seq<Combatant<I>>, defenders: seq<Combatant<I>>,
                                        terrain: real, structures: seq<real>, rng: Option<bv32>, ra: real, rd: real)
    requires Armed(attackers) && Armed(defenders) && PositiveBonuses(terrain, structures)
    requires ra >= 0.0 && rd >= 0.0 && Square(ra) == |attackers| as real && Square(rd) == |defenders| as real
    requires defenders != []
    ensures var a := Times(TotalAttack(attackers), ra);
            var d := Times(Times(TotalAttack(defenders), rd), DefenseBonus(terrain, structures));
            var r := ResolveAttack(attackers, defenders, terrain, structures, rng);
            && (r.attackerWins <==> a > d)
            && (r.attackerWins ==>
                  IsFloor(|r.attackerLosses|, a, Times(Times(|attackers| as real, 0.5), d)))
            && (!r.attackerWins ==>
                  IsFloor(|r.defenderLosses|, d, Times(Times(|defenders| as real, 0.4), a)))
  {
    hide ResolveAttack, Strength2, DefenderStrength2, TotalAttack, Times, Square, Losses, DefenseBonus, IsFloor;
    BattleOutcome(attackers, defenders, terrain, structures, rng);
    LossesAgreeWithRoots(attackers, defenders, terrain, structures, ra, rd);
  }

  /** k is the floor of share / strong. */
  ghost predicate IsFloor(k: nat, strong: real, share: real) {
    Times(k as real, strong) <= share < Times((k + 1) as real, strong)
  }

  lemma LossesAgreeWithRoots<I(!new)>(attackers: seq<Combatant<I>>, defenders: seq<Combatant<I>>,
                                      terrain: real, structures: seq<real>, ra: real, rd: real)
    requires Armed(attackers) && Armed(defenders) && PositiveBonuses(terrain, structures)
    requires ra >= 0.0 && rd >= 0.0 && Square(ra) == |attackers| as real && Square(rd) == |defenders| as real
    requires defenders != []
    ensures var a := Times(TotalAttack(attackers), ra);
            var d := Times(Times(TotalAttack(defenders), rd), DefenseBonus(terrain, structures));
            var losses := Losses(attackers, defenders, terrain, structures);
            if a > d
            then Strength2(attackers) > DefenderStrength2(defenders, terrain, structures)
                 && IsFloor(losses, a, Times(Times(|attackers| as real, 0.5), d))
            else Strength2(attackers) <= DefenderStrength2(defenders, terrain, structures)
                 && IsFloor(losses, d, Times(Times(|defenders| as real, 0.4), a))
  {
    var bonus := DefenseBonus(terrain, structures);
    var a := Times(TotalAttack(attackers), ra);
    var d0 := Times(TotalAttack(defenders), rd);
    var d := Times(d0, bonus);
    RootedStrength(attackers, ra);
    RootedStrength(defenders, rd);
    BonusIsPositive(terrain, structures);
    DefendersAreStrong(defenders, terrain, structures);
    SquareOfProduct(d0, bonus);
    TimesPositive(d0, bonus);
    assert Strength2(attackers) == Square(a);
    assert DefenderStrength2(defenders, terrain, structures) == Square(d);
    hide Strength2, DefenderStrength2, TotalAttack, Times, Square;
    SquareMonotone(a, d);
    SquareMonotone(d, a);
    if a > d {
      CasualtiesAreTheFloor(|attackers|, 0.5, d, a);
    } else {
      assert d > 0.0 by {
        SquareMonotone(0.0, d);
        ZeroSquared();
      }
      CasualtiesAreTheFloor(|defenders|, 0.4, a, d);
    }
  }

  lemma RootedStrength<I>(force: seq<Combatant<I>>, root: real)
    requires Armed(force) && root >= 0.0 && Square(root) == |force| as real
    ensures Times(TotalAttack(force), root) >= 0.0
    ensures Square(Times(TotalAttack(force), root)) == Strength2(force)
  {
    ArmedForceIsStrong(force);
    TimesPositive(TotalAttack(force), root);
    SquareOfProduct(TotalAttack(force), root);
  }
}
