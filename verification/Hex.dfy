/**
 * Axial hex coordinates, distance, neighbourhood, the ball of a given radius and
 * the spiral of rings the Kingdoms board is laid out on.
 */
module Hex {
  import opened Collections

  datatype Coord = Coord(q: int, r: int)

  datatype Cube = Cube(x: int, y: int, z: int)

  function Abs(n: int): nat {
    if n < 0 then -n else n
  }

  function AxialToCube(c: Coord): Cube {
    Cube(c.q, -c.q - c.r, c.r)
  }

  function Distance(a: Coord, b: Coord): int {
    var ac, bc := AxialToCube(a), AxialToCube(b);
    (Abs(ac.x - bc.x) + Abs(ac.y - bc.y) + Abs(ac.z - bc.z)) / 2
  }

  predicate IsNeighbour(a: Coord, b: Coord) {
    a != b && Abs(a.q - b.q) <= 1 && Abs(a.r - b.r) <= 1 && Abs((a.q - b.q) + (a.r - b.r)) <= 1
  }

  const AXIAL_NEIGHBOURS: seq<Coord> :=
    [Coord(1, 0), Coord(1, -1), Coord(0, -1), Coord(-1, 0), Coord(-1, 1), Coord(0, 1)]

  function Shift(c: Coord, d: Coord): Coord {
    Coord(c.q + d.q, c.r + d.r)
  }

  /** The division by two is exact, and the result is the largest of the three axis differences. */
  lemma DistanceIsExactMax(a: Coord, b: Coord)
    ensures var dq, dr := a.q - b.q, a.r - b.r;
            && 2 * Distance(a, b) == Abs(dq) + Abs(dq + dr) + Abs(dr)
            && Distance(a, b) >= Abs(dq) && Distance(a, b) >= Abs(dr) && Distance(a, b) >= Abs(dq + dr)
            && (Distance(a, b) == Abs(dq) || Distance(a, b) == Abs(dr) || Distance(a, b) == Abs(dq + dr))
  {
    var dq, dr := a.q - b.q, a.r - b.r;
    assert AxialToCube(a).y - AxialToCube(b).y == -(dq + dr);
  }

  lemma DistanceIsMetric(a: Coord, b: Coord, c: Coord)
    ensures Distance(a, b) == Distance(b, a)
    ensures Distance(a, b) == 0 <==> a == b
    ensures Distance(a, c) <= Distance(a, b) + Distance(b, c)
  {
    hide Distance;
    DistanceIsExactMax(a, b);
    DistanceIsExactMax(b, a);
    DistanceIsExactMax(b, c);
    DistanceIsExactMax(a, c);
  }

  /** The three tests for adjacency the code base uses agree: box test, distance one, direction table. */
  lemma NeighbourCharacterisations(a: Coord, b: Coord)
    ensures IsNeighbour(a, b) <==> Distance(a, b) == 1
    ensures IsNeighbour(a, b) <==> exists i :: 0 <= i < 6 && Shift(a, AXIAL_NEIGHBOURS[i]) == b
  {
    DistanceIsExactMax(a, b);
    var d := Coord(b.q - a.q, b.r - a.r);
    assert AXIAL_NEIGHBOURS[0] == Coord(1, 0) && AXIAL_NEIGHBOURS[1] == Coord(1, -1)
        && AXIAL_NEIGHBOURS[2] == Coord(0, -1) && AXIAL_NEIGHBOURS[3] == Coord(-1, 0)
        && AXIAL_NEIGHBOURS[4] == Coord(-1, 1) && AXIAL_NEIGHBOURS[5] == Coord(0, 1);
    if IsNeighbour(a, b) {
      var i := if d == Coord(1, 0) then 0 else if d == Coord(1, -1) then 1
               else if d == Coord(0, -1) then 2 else if d == Coord(-1, 0) then 3
               else if d == Coord(-1, 1) then 4 else 5;
      assert Shift(a, AXIAL_NEIGHBOURS[i]) == b;
    }
  }

  // ---- One ring -----------------------------------------------------------

  /** The i-th coordinate on side d of the ring of radius k, walking from (k, 0). */
  function Side(k: int, d: int, i: int): Coord
    requires 0 <= d < 6
  {
    match d
    case 0 => Coord(k, -i)
    case 1 => Coord(k - i, -k)
    case 2 => Coord(-i, i - k)
    case 3 => Coord(-k, i)
    case 4 => Coord(i - k, k)
    case _ => Coord(i, k - i)
  }

  function SideList(k: nat, d: int): (s: seq<Coord>)
    requires 0 <= d < 6
  {
    seq(k, i => Side(k, d, i))
  }

  /** The sides 0 .. d-1 of the ring, in order. */
  function Sides(k: nat, d: nat): (s: seq<Coord>)
    requires d <= 6
  {
    if d == 0 then [] else Sides(k, d - 1) + SideList(k, d - 1)
  }

  function RingList(k: nat): seq<Coord> {
    if k == 0 then [Coord(0, 0)] else Sides(k, 6)
  }

  /** Which coordinates lie on the sides 0 .. d-1 of the ring of radius k. */
  predicate OnSides(k: int, d: nat, c: Coord)
    requires d <= 6
  {
    || (d > 0 && c.q == k && -k < c.r <= 0)
    || (d > 1 && c.r == -k && 0 < c.q <= k)
    || (d > 2 && c.q + c.r == -k && -k < c.q <= 0)
    || (d > 3 && c.q == -k && 0 <= c.r < k)
    || (d > 4 && c.r == k && -k <= c.q < 0)
    || (d > 5 && c.q + c.r == k && 0 <= c.q < k)
  }

  predicate OnSide(k: int, d: nat, c: Coord)
    requires d < 6
  {
    match d
    case 0 => c.q == k && -k < c.r <= 0
    case 1 => c.r == -k && 0 < c.q <= k
    case 2 => c.q + c.r == -k && -k < c.q <= 0
    case 3 => c.q == -k && 0 <= c.r < k
    case 4 => c.r == k && -k <= c.q < 0
    case _ => c.q + c.r == k && 0 <= c.q < k
  }

  lemma SideListFacts(k: nat, d: nat)
    requires d < 6
    ensures NoDup(SideList(k, d))
    ensures forall c :: c in SideList(k, d) <==> OnSide(k, d, c)
  {
    var s := SideList(k, d);
    forall c | OnSide(k, d, c) ensures c in s {
      var i := match d
        case 0 => -c.r case 1 => k - c.q case 2 => -c.q
        case 3 => c.r case 4 => c.q + k case _ => c.q;
      assert s[i] == c;
    }
  }

  lemma {:induction false} SidesFacts(k: nat, d: nat)
    requires k > 0 && d <= 6
    ensures |Sides(k, d)| == d * k && NoDup(Sides(k, d))
    ensures forall c :: c in Sides(k, d) <==> OnSides(k, d, c)
  {
    if d > 0 {
      SidesFacts(k, d - 1);
      SideListFacts(k, d - 1);
      NoDupConcat(Sides(k, d - 1), SideList(k, d - 1));
      assert d * k == (d - 1) * k + k;
    }
  }

  lemma OnSphereIsOnSides(k: nat, c: Coord)
    ensures Distance(Coord(0, 0), c) == k <==> if k == 0 then c == Coord(0, 0) else OnSides(k, 6, c)
  {
    hide Distance;
    DistanceIsExactMax(Coord(0, 0), c);
  }

  lemma ListOfSidesIsSphere(k: nat, s: seq<Coord>)
    requires k > 0
    requires forall c :: c in s <==> OnSides(k, 6, c)
    ensures forall c :: c in s <==> Distance(Coord(0, 0), c) == k
  {
    forall c ensures c in s <==> Distance(Coord(0, 0), c) == k {
      OnSphereIsOnSides(k, c);
    }
  }

  /** A ring holds exactly the coordinates at its distance, once each: six times the radius of them. */
  lemma RingIsSphere(k: nat)
    ensures NoDup(RingList(k))
    ensures forall c :: c in RingList(k) <==> Distance(Coord(0, 0), c) == k
    ensures |RingList(k)| == if k == 0 then 1 else 6 * k
  {
    if k > 0 {
      SidesFacts(k, 6);
      ListOfSidesIsSphere(k, Sides(k, 6));
    } else {
      forall c ensures Distance(Coord(0, 0), c) == 0 <==> c == Coord(0, 0) {
        DistanceIsExactMax(Coord(0, 0), c);
      }
    }
  }

  const RING_DIRECTIONS: seq<Coord> :=
    [Coord(0, -1), Coord(-1, 0), Coord(-1, 1), Coord(0, 1), Coord(1, 0), Coord(1, -1)]

  /** Walks the ring one step at a time; a negative radius walks nothing. */
  method Ring(radius: int) returns (coords: seq<Coord>)
    ensures radius < 0 ==> coords == []
    ensures radius >= 0 ==> coords == RingList(radius)
  {
    if radius == 0 {
      return [Coord(0, 0)];
    }
    coords := [];
    var q, r := radius, 0;
    for d := 0 to 6
      invariant radius < 0 ==> coords == []
      invariant radius > 0 ==> coords == Sides(radius, d)
      invariant radius > 0 ==> Coord(q, r) == if d < 6 then Side(radius, d, 0) else Side(radius, 0, 0)
    {
      var dir := RING_DIRECTIONS[d];
      var i := 0;
      while i < radius
        invariant radius < 0 ==> coords == [] && i == 0
        invariant radius > 0 ==> 0 <= i <= radius && coords == Sides(radius, d) + seq(i, j => Side(radius, d, j))
        invariant radius > 0 ==> Coord(q, r) == Side(radius, d, i)
      {
        coords := coords + [Coord(q, r)];
        q, r := q + dir.q, r + dir.r;
        i := i + 1;
      }
      assert radius > 0 ==> seq(i, j => Side(radius, d, j)) == SideList(radius, d);
    }
  }

  // ---- Balls --------------------------------------------------------------

  /** The rings 0 .. radius one after the other. */
  function Spiral(radius: nat): seq<Coord> {
    if radius == 0 then RingList(0) else Spiral(radius - 1) + RingList(radius)
  }

  lemma {:induction false} SpiralIsBall(radius: nat)
    ensures NoDup(Spiral(radius))
    ensures forall c :: c in Spiral(radius) <==> Distance(Coord(0, 0), c) <= radius
    ensures |Spiral(radius)| == 3 * radius * radius + 3 * radius + 1
  {
    hide Distance, RingList;
    RingIsSphere(radius);
    if radius > 0 {
      SpiralIsBall(radius - 1);
      NoDupConcat(Spiral(radius - 1), RingList(radius));
      var p := radius - 1;
      assert 3 * radius * radius + 3 * radius + 1 == 3 * p * p + 3 * p + 1 + 6 * radius;
    } else {
      forall c ensures Distance(Coord(0, 0), c) >= 0 {
        DistanceIsExactMax(Coord(0, 0), c);
      }
    }
  }

  predicate InRows(centre: Coord, radius: int, fromRow: int, toRow: int, c: Coord) {
    fromRow <= c.q - centre.q < toRow && Distance(centre, c) <= radius
  }

  function Max(a: int, b: int): int { if a > b then a else b }

  function Min(a: int, b: int): int { if a < b then a else b }

  /** Every hex within the radius of the centre, listed row by row. */
  method HexesInRange(centre: Coord, radius: int) returns (out: seq<Coord>)
    ensures NoDup(out)
    ensures forall c :: c in out <==> Distance(centre, c) <= radius
  {
    out := [];
    var dq := -radius;
    while dq <= radius
      invariant dq >= -radius && (radius >= 0 ==> dq <= radius + 1)
      invariant NoDup(out)
      invariant forall c :: c in out <==> InRows(centre, radius, -radius, dq, c)
      decreases radius - dq
    {
      var rMin := Max(-radius, -dq - radius);
      var rMax := Min(radius, -dq + radius);
      var dr := rMin;
      while dr <= rMax
        invariant rMin <= dr <= rMax + 1
        invariant NoDup(out)
        invariant forall c :: c in out <==>
                    || InRows(centre, radius, -radius, dq, c)
                    || (c.q == centre.q + dq && rMin <= c.r - centre.r < dr)
      {
        out := out + [Coord(centre.q + dq, centre.r + dr)];
        dr := dr + 1;
      }
      forall c ensures InRows(centre, radius, -radius, dq + 1, c) <==>
                       (InRows(centre, radius, -radius, dq, c)
                        || (c.q == centre.q + dq && rMin <= c.r - centre.r < dr)) {
        DistanceIsExactMax(centre, c);
      }
      dq := dq + 1;
    }
    forall c ensures c in out <==> Distance(centre, c) <= radius {
      DistanceIsExactMax(centre, c);
    }
  }

  lemma ShiftList(s: seq<Coord>, centre: Coord) returns (moved: seq<Coord>)
    requires NoDup(s)
    ensures NoDup(moved) && |moved| == |s|
    ensures forall c :: c in moved <==> Coord(c.q - centre.q, c.r - centre.r) in s
  {
    moved := seq(|s|, i requires 0 <= i < |s| => Shift(centre, s[i]));
    forall c ensures c in moved <==> Coord(c.q - centre.q, c.r - centre.r) in s {
      if Coord(c.q - centre.q, c.r - centre.r) in s {
        var i :| 0 <= i < |s| && s[i] == Coord(c.q - centre.q, c.r - centre.r);
        assert moved[i] == c;
      }
    }
  }

  lemma DistanceShift(centre: Coord, c: Coord)
    ensures Distance(centre, c) == Distance(Coord(0, 0), Coord(c.q - centre.q, c.r - centre.r))
  {
    DistanceIsExactMax(Coord(0, 0), Coord(c.q - centre.q, c.r - centre.r));
    DistanceIsExactMax(centre, c);
  }

  /** Any duplicate-free listing of the ball about a centre has 3R^2 + 3R + 1 entries and,
      about the origin, is a permutation of the spiral of rings. */
  lemma BallListing(listing: seq<Coord>, centre: Coord, radius: nat)
    requires NoDup(listing)
    requires forall c :: c in listing <==> Distance(centre, c) <= radius
    ensures |listing| == 3 * radius * radius + 3 * radius + 1
    ensures centre == Coord(0, 0) ==> multiset(listing) == multiset(Spiral(radius))
  {
    hide Distance, Spiral;
    SpiralIsBall(radius);
    var moved := ShiftList(Spiral(radius), centre);
    forall c ensures c in moved <==> c in listing {
      DistanceShift(centre, c);
    }
    SameElementsArePermutations(moved, listing);
    if centre == Coord(0, 0) {
      SameElementsArePermutations(Spiral(radius), listing);
    }
  }
}
