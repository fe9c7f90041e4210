/** The 37-tile board of the Frontier scenario. */
module FrontierMap {
  import opened Collections
  import opened Hex
  import opened Board
  import opened Random

  datatype Terrain = Grass | Forest | Mountain

  datatype Resource = Wood | Stone

  function TerrainVp(t: Terrain): nat {
    match t
    case Grass => 1
    case Forest => 2
    case Mountain => 3
  }

  function TerrainResource(t: Terrain): Option<Resource> {
    match t
    case Grass => None
    case Forest => Some(Wood)
    case Mountain => Some(Stone)
  }

  function InnerRing(): (s: seq<Coord>)
    ensures |s| == 6
  {
    [Coord(1, 0), Coord(1, -1), Coord(0, -1), Coord(-1, 0), Coord(-1, 1), Coord(0, 1)]
  }

  function MiddleRing(): (s: seq<Coord>)
    ensures |s| == 12
  {
    [Coord(2, 0), Coord(2, -1), Coord(2, -2), Coord(1, -2), Coord(0, -2), Coord(-1, -1),
     Coord(-2, 0), Coord(-2, 1), Coord(-2, 2), Coord(-1, 2), Coord(0, 2), Coord(1, 1)]
  }

  function OuterRing(): (s: seq<Coord>)
    ensures |s| == 18
  {
    [Coord(3, 0), Coord(3, -1), Coord(3, -2), Coord(3, -3), Coord(2, -3), Coord(1, -3),
     Coord(0, -3), Coord(-1, -2), Coord(-2, -1), Coord(-3, 0), Coord(-3, 1), Coord(-3, 2),
     Coord(-3, 3), Coord(-2, 3), Coord(-1, 3), Coord(0, 3), Coord(1, 2), Coord(2, 1)]
  }

  /** The written-out coordinates of the board. */
  function Coords(): (s: seq<Coord>)
    ensures |s| == 37
  {
    [Coord(0, 0)] + InnerRing() + MiddleRing() + OuterRing()
  }

  function TerrainBag(): (s: seq<Terrain>)
    ensures |s| == 37
  {
    Repeat(Grass, 12) + Repeat(Forest, 14) + Repeat(Mountain, 11)
  }

  function Layout(coords: seq<Coord>, terrains: seq<Terrain>, n: nat): GameMap<Terrain>
    requires n <= |coords| && n <= |terrains|
  {
    if n == 0 then EmptyMap() else Put(Layout(coords, terrains, n - 1), coords[n - 1], terrains[n - 1])
  }

  function FrontierTerrains(seed: bv32): (t: seq<Terrain>)
    ensures |t| == 37
  {
    ShuffleIsPermutation(TerrainBag(), seed, Scaled);
    Shuffle(TerrainBag(), seed, Scaled)
  }

  /** The board for a generator state. */
  function FrontierBoard(seed: bv32): GameMap<Terrain> {
    Layout(Coords(), FrontierTerrains(seed), 37)
  }

  method BuildFrontierMap(seed: bv32) returns (board: GameMap<Terrain>)
    requires seed != 0
    ensures board == FrontierBoard(seed)
  {
    hide Coords, TerrainBag, Shuffle;
    var rng := new SeededRandom(seed);
    var terrains := RandomShuffle(TerrainBag(), rng);
    assert terrains == FrontierTerrains(seed);
    var coords := Coords();
    board := EmptyMap();
    for i := 0 to |coords|
      invariant board == Layout(coords, terrains, i)
    {
      board := Put(board, coords[i], terrains[i]);
    }
  }

  lemma Inner()
    ensures RingList(1) == InnerRing()
  {
    hide Sides;
    RingOfSix(1);
  }

  lemma Middle()
    ensures RingList(2) == MiddleRing()
  {
    hide Sides;
    RingOfSix(2);
  }

  lemma Outer()
    ensures RingList(3) == OuterRing()
  {
    hide Sides;
    RingOfSix(3);
  }

  lemma RingOfSix(k: nat)
    requires k > 0
    ensures RingList(k) == SideList(k, 0) + SideList(k, 1) + SideList(k, 2) + SideList(k, 3) + SideList(k, 4) + SideList(k, 5)
  {
    hide SideList;
    SidesUpTo(k, 1);
    SidesUpTo(k, 2);
    SidesUpTo(k, 3);
    SidesUpTo(k, 4);
    SidesUpTo(k, 5);
    SidesUpTo(k, 6);
  }

  lemma SidesUpTo(k: nat, d: nat)
    requires 0 < d <= 6
    ensures Sides(k, d) == if d == 1 then SideList(k, 0) else Sides(k, d - 1) + SideList(k, d - 1)
  {
    hide SideList;
    if d == 1 {
      assert Sides(k, 0) == [];
    }
  }

  /** The written-out list is the ring walk of radius 0 to 3: exactly the ball of radius 3, without repetition. */
  lemma CoordsAreTheSpiral()
    ensures Coords() == Spiral(3) && NoDup(Coords())
    ensures forall c :: c in Coords() <==> Distance(Coord(0, 0), c) <= 3
  {
    hide InnerRing, MiddleRing, OuterRing, RingList, Distance, Spiral, NoDup;
    SpiralIsBall(3);
    SpiralOfThree();
    Inner();
    Middle();
    Outer();
  }

  lemma SpiralStep(k: nat)
    requires k > 0
    ensures Spiral(k) == Spiral(k - 1) + RingList(k)
    ensures Spiral(0) == [Coord(0, 0)]
  {
  }

  lemma SpiralOfThree()
    ensures Spiral(3) == [Coord(0, 0)] + RingList(1) + RingList(2) + RingList(3)
  {
    hide RingList, Spiral;
    SpiralStep(1);
    SpiralStep(2);
    SpiralStep(3);
  }

  lemma {:induction false} LayoutFacts(coords: seq<Coord>, terrains: seq<Terrain>, n: nat)
    requires n <= |coords| && n <= |terrains| && NoDup(coords)
    ensures Layout(coords, terrains, n).Valid() && Layout(coords, terrains, n).order == coords[..n]
  {
    if n > 0 {
      LayoutFacts(coords, terrains, n - 1);
      PutKeepsValid(Layout(coords, terrains, n - 1), coords[n - 1], terrains[n - 1]);
      assert coords[n - 1] !in coords[..n - 1];
    }
  }

  ghost function TilesOf(m: GameMap<Terrain>, t: Terrain): set<Coord> {
    set c | c in m.tiles && m.tiles[c] == t
  }

  lemma {:induction false} TerrainCount(coords: seq<Coord>, terrains: seq<Terrain>, n: nat, t: Terrain)
    requires n <= |coords| && n <= |terrains| && NoDup(coords)
    ensures |TilesOf(Layout(coords, terrains, n), t)| == multiset(terrains[..n])[t]
  {
    hide Layout, TilesOf, Put;
    LayoutStep(coords, terrains, n);
    if n > 0 {
      TerrainCount(coords, terrains, n - 1, t);
      LayoutFacts(coords, terrains, n - 1);
      assert coords[n - 1] !in coords[..n - 1];
      CountAfterPut(Layout(coords, terrains, n - 1), coords[n - 1], terrains[n - 1], t);
      assert terrains[..n] == terrains[..n - 1] + [terrains[n - 1]];
    } else {
      NoTiles(t);
    }
  }

  lemma LayoutStep(coords: seq<Coord>, terrains: seq<Terrain>, n: nat)
    requires n <= |coords| && n <= |terrains|
    ensures Layout(coords, terrains, n) ==
            if n == 0 then EmptyMap() else Put(Layout(coords, terrains, n - 1), coords[n - 1], terrains[n - 1])
  {
  }

  lemma NoTiles(t: Terrain)
    ensures TilesOf(EmptyMap(), t) == {}
  {
  }

  lemma CountAfterPut(m: GameMap<Terrain>, c: Coord, terrain: Terrain, t: Terrain)
    requires c !in m.tiles
    ensures |TilesOf(Put(m, c, terrain), t)| == |TilesOf(m, t)| + if terrain == t then 1 else 0
  {
    assert TilesOf(Put(m, c, terrain), t) == TilesOf(m, t) + if terrain == t then {c} else {};
  }

  /** Every seed gives the same 37 tiles and the same mix: 12 plains, 14 forests, 11 mountains. */
  lemma EveryFrontierBoardHasTheSameMix(seed: bv32)
    ensures FrontierBoard(seed).Valid() && FrontierBoard(seed).order == Coords() && |Coords()| == 37
    ensures forall c :: c in FrontierBoard(seed).tiles <==> Distance(Coord(0, 0), c) <= 3
    ensures |TilesOf(FrontierBoard(seed), Grass)| == 12 && |TilesOf(FrontierBoard(seed), Forest)| == 14
            && |TilesOf(FrontierBoard(seed), Mountain)| == 11
  {
    hide Coords, TilesOf, Layout, Distance, Shuffle, FrontierTerrains, TerrainBag, Spiral;
    CoordsAreTheSpiral();
    var coords, terrains := Coords(), FrontierTerrains(seed);
    LayoutFacts(coords, terrains, 37);
    assert coords[..37] == coords && terrains[..37] == terrains;
    BagOfSeed(seed);
    TerrainCount(coords, terrains, 37, Grass);
    TerrainCount(coords, terrains, 37, Forest);
    TerrainCount(coords, terrains, 37, Mountain);
  }

  lemma BagOfSeed(seed: bv32)
    ensures multiset(FrontierTerrains(seed))[Grass] == 12 && multiset(FrontierTerrains(seed))[Forest] == 14
            && multiset(FrontierTerrains(seed))[Mountain] == 11
  {
    hide Shuffle, Repeat;
    ShuffleIsPermutation(TerrainBag(), seed, Scaled);
  }

  /** Home tiles per player count; any other count falls back to the two-player homes. */
  function StartingCoords(players: nat): (s: seq<Coord>)
    ensures NoDup(s) && (2 <= players <= 4 ==> |s| == players)
    ensures forall c <- s :: Distance(Coord(0, 0), c) == 3
  {
    match players
    case 3 => [Coord(3, 0), Coord(-1, -2), Coord(-2, 3)]
    case 4 => [Coord(3, 0), Coord(-3, 0), Coord(0, -3), Coord(0, 3)]
    case _ => [Coord(3, -2), Coord(-3, 2)]
  }

  /** Two players start six steps apart, straight across the board; of three the first two start six steps apart and the
      third five from both; of four everybody has two others six steps away and one three. */
  lemma HomesAreApart(n: nat, i: nat, j: nat)
    requires 2 <= n <= 4 && i < n && j < n && i != j
    ensures var d := Distance(StartingCoords(n)[i], StartingCoords(n)[j]);
            && (n == 2 ==> d == 6) && (n == 3 ==> d == if i + j == 1 then 6 else 5)
            && (n == 4 ==> d == if i + j == 3 then 3 else 6)
  {
  }
}
