/** The seeded 61-tile board of the Kingdoms scenario. */
module KingdomsMap {
  import opened Collections
  import opened Hex
  import opened Board
  import opened Random

  datatype Terrain = Plains | Forest | Hills | Mountain

  datatype Resource = Wood | Food | Iron

  /** resource: None is the null resource type of a barren tile. */
  datatype Tile = Tile(coord: Coord, terrain: Terrain, resource: Option<Resource>, economicValue: int, combatValue: int)

  function TerrainBag(): seq<Terrain> {
    Repeat(Plains, 25) + Repeat(Forest, 15) + Repeat(Hills, 12) + Repeat(Mountain, 9)
  }

  function TerrainResource(t: Terrain): Resource {
    match t
    case Plains => Food
    case Forest => Wood
    case Hills => Iron
    case Mountain => Iron
  }

  function TerrainCombatValue(t: Terrain): int {
    match t
    case Plains => 1
    case Forest => 2
    case Hills => 2
    case Mountain => 3
  }

  function EconomicValue(ring: int): int {
    Max(1, 5 - ring)
  }

  function TileRing(c: Coord): int {
    Max(Abs(c.q), Max(Abs(c.r), Abs(c.q + c.r)))
  }

  function MakeTile(c: Coord, t: Terrain): Tile {
    Tile(c, t, Some(TerrainResource(t)), EconomicValue(TileRing(c)), TerrainCombatValue(t))
  }

  /** The board holding the first n coordinates of the list with the terrains at the same positions. */
  function Layout(coords: seq<Coord>, terrains: seq<Terrain>, n: nat): GameMap<Tile>
    requires n <= |coords| && n <= |terrains|
  {
    if n == 0 then EmptyMap()
    else Put(Layout(coords, terrains, n - 1), coords[n - 1], MakeTile(coords[n - 1], terrains[n - 1]))
  }

  function KingdomsTerrains(seed: seq<bv16>): (t: seq<Terrain>)
    ensures |t| == 61
  {
    ShuffleIsPermutation(TerrainBag(), Seed(seed), Modulo);
    Shuffle(TerrainBag(), Seed(seed), Modulo)
  }

  lemma SpiralHas61()
    ensures |Spiral(4)| == 61 && NoDup(Spiral(4))
  {
    hide Spiral;
    SpiralIsBall(4);
  }

  function KingdomsBoard(seed: seq<bv16>): GameMap<Tile> {
    SpiralHas61();
    Layout(Spiral(4), KingdomsTerrains(seed), 61)
  }

  method AllCoords() returns (coords: seq<Coord>)
    ensures coords == Spiral(4)
  {
    hide RingList;
    coords := Ring(0);
    for k := 1 to 5
      invariant coords == Spiral(k - 1)
    {
      var ring := Ring(k);
      coords := coords + ring;
    }
  }

  method BuildKingdomsMap(seed: seq<bv16>) returns (board: GameMap<Tile>)
    ensures board == KingdomsBoard(seed)
  {
    hide Shuffle, Seed, MakeTile, Spiral, TerrainBag;
    var coords := AllCoords();
    SpiralHas61();
    var terrains := SeededShuffle(TerrainBag(), seed);
    assert terrains == KingdomsTerrains(seed);
    hide KingdomsTerrains;
    board := EmptyMap();
    for i := 0 to |coords|
      invariant board == Layout(coords, terrains, i)
    {
      board := Put(board, coords[i], MakeTile(coords[i], terrains[i]));
    }
  }

  ghost function CoordsOfTerrain(m: GameMap<Tile>, t: Terrain): set<Coord> {
    set c | c in m.tiles && m.tiles[c].terrain == t
  }

  lemma {:induction false} LayoutOrder(coords: seq<Coord>, terrains: seq<Terrain>, n: nat)
    requires n <= |coords| && n <= |terrains| && NoDup(coords)
    ensures Layout(coords, terrains, n).Valid()
    ensures Layout(coords, terrains, n).order == coords[..n]
  {
    hide MakeTile;
    if n > 0 {
      LayoutOrder(coords, terrains, n - 1);
      PutKeepsValid(Layout(coords, terrains, n - 1), coords[n - 1], MakeTile(coords[n - 1], terrains[n - 1]));
      FreshLast(coords, n);
    }
  }

  lemma FreshLast(coords: seq<Coord>, n: nat)
    requires 0 < n <= |coords| && NoDup(coords)
    ensures coords[n - 1] !in coords[..n - 1] && coords[..n] == coords[..n - 1] + [coords[n - 1]]
  {
  }

  lemma {:induction false} LayoutContents(coords: seq<Coord>, terrains: seq<Terrain>, n: nat, c: Coord)
    requires n <= |coords| && n <= |terrains| && NoDup(coords)
    requires c in Layout(coords, terrains, n).tiles
    ensures exists t :: Layout(coords, terrains, n).tiles[c] == MakeTile(c, t)
  {
    hide MakeTile;
    if n > 0 {
      if c == coords[n - 1] {
        assert Layout(coords, terrains, n).tiles[c] == MakeTile(c, terrains[n - 1]);
      } else {
        LayoutContents(coords, terrains, n - 1, c);
      }
    }
  }

  lemma {:induction false} TerrainCount(coords: seq<Coord>, terrains: seq<Terrain>, n: nat, t: Terrain)
    requires n <= |coords| && n <= |terrains| && NoDup(coords)
    ensures |CoordsOfTerrain(Layout(coords, terrains, n), t)| == multiset(terrains[..n])[t]
  {
    hide Layout, Put, CoordsOfTerrain, MakeTile;
    LayoutStep(coords, terrains, n);
    if n > 0 {
      TerrainCount(coords, terrains, n - 1, t);
      LayoutOrder(coords, terrains, n - 1);
      FreshLast(coords, n);
      CountAfterPut(Layout(coords, terrains, n - 1), coords[n - 1], terrains[n - 1], t);
      assert terrains[..n] == terrains[..n - 1] + [terrains[n - 1]];
    } else {
      NoTiles(t);
    }
  }

  lemma LayoutStep(coords: seq<Coord>, terrains: seq<Terrain>, n: nat)
    requires n <= |coords| && n <= |terrains|
    ensures Layout(coords, terrains, n) ==
            if n == 0 then EmptyMap()
            else Put(Layout(coords, terrains, n - 1), coords[n - 1], MakeTile(coords[n - 1], terrains[n - 1]))
  {
    hide MakeTile;
  }

  lemma NoTiles(t: Terrain)
    ensures CoordsOfTerrain(EmptyMap(), t) == {}
  {
  }

  lemma CountAfterPut(m: GameMap<Tile>, c: Coord, terrain: Terrain, t: Terrain)
    requires c !in m.tiles
    ensures |CoordsOfTerrain(Put(m, c, MakeTile(c, terrain)), t)| ==
            |CoordsOfTerrain(m, t)| + if terrain == t then 1 else 0
  {
    assert CoordsOfTerrain(Put(m, c, MakeTile(c, terrain)), t) ==
           CoordsOfTerrain(m, t) + if terrain == t then {c} else {};
  }

  function BagCount(t: Terrain): nat {
    match t
    case Plains => 25
    case Forest => 15
    case Hills => 12
    case Mountain => 9
  }

  lemma BagCounts(t: Terrain)
    ensures multiset(TerrainBag())[t] == BagCount(t)
  {
    hide Repeat;
  }

  /** Every seed gives the same 61 coordinates, exactly the ball of radius 4, in spiral order,
      and the same mix of terrains: 25 plains, 15 forest, 12 hills and 9 mountains. */
  lemma EveryBoardHasTheSameMix(seed: seq<bv16>)
    ensures KingdomsBoard(seed).Valid()
    ensures KingdomsBoard(seed).order == Spiral(4) && |KingdomsBoard(seed).order| == 61
    ensures forall c :: c in KingdomsBoard(seed).tiles <==> Distance(Coord(0, 0), c) <= 4
    ensures forall t :: |CoordsOfTerrain(KingdomsBoard(seed), t)| == BagCount(t)
  {
    hide Spiral, Distance, Layout, CoordsOfTerrain, BagCount, KingdomsTerrains;
    SpiralIsBall(4);
    SpiralHas61();
    var coords, terrains := Spiral(4), KingdomsTerrains(seed);
    LayoutOrder(coords, terrains, 61);
    assert coords[..61] == coords;
    forall t ensures |CoordsOfTerrain(KingdomsBoard(seed), t)| == BagCount(t) {
      TerrainCount(coords, terrains, 61, t);
      assert terrains[..61] == terrains;
      TerrainsAreTheBag(seed, t);
    }
  }

  lemma TerrainsAreTheBag(seed: seq<bv16>, t: Terrain)
    ensures multiset(KingdomsTerrains(seed))[t] == BagCount(t)
  {
    hide TerrainBag, Shuffle, BagCount;
    ShuffleIsPermutation(TerrainBag(), Seed(seed), Modulo);
    BagCounts(t);
  }

  /** A tile carries its own coordinate, its terrain's resource and combat value, and the economic
      value 5 less its distance from the centre, never below 1. */
  lemma TileContents(seed: seq<bv16>, c: Coord)
    requires c in KingdomsBoard(seed).tiles
    ensures var tile := KingdomsBoard(seed).tiles[c];
            && tile.coord == c && tile.resource == Some(TerrainResource(tile.terrain))
            && tile.combatValue == TerrainCombatValue(tile.terrain)
            && tile.economicValue == 5 - Min(4, Distance(Coord(0, 0), c)) && 1 <= tile.economicValue <= 5
  {
    SpiralHas61();
    hide Spiral, KingdomsTerrains, Layout;
    LayoutContents(Spiral(4), KingdomsTerrains(seed), 61, c);
    EconomicValueFromDistance(c);
  }

  lemma EconomicValueFromDistance(c: Coord)
    ensures EconomicValue(TileRing(c)) == 5 - Min(4, Distance(Coord(0, 0), c))
    ensures 1 <= EconomicValue(TileRing(c)) <= 5
  {
    hide Distance;
    DistanceIsExactMax(Coord(0, 0), c);
  }

  ghost function CoordsOfResource(m: GameMap<Tile>, r: Resource): set<Coord> {
    set c | c in m.tiles && m.tiles[c].resource == Some(r)
  }

  ghost function CoordsOfCombatValue(m: GameMap<Tile>, v: int): set<Coord> {
    set c | c in m.tiles && m.tiles[c].combatValue == v
  }

  /** On every board 25 tiles yield food, 15 wood and 21 iron, and 25, 27 and 9 tiles are worth one, two and three in
      combat. */
  lemma EveryBoardYieldsTheSame(seed: seq<bv16>)
    ensures var m := KingdomsBoard(seed);
            && |CoordsOfResource(m, Food)| == 25 && |CoordsOfResource(m, Wood)| == 15 && |CoordsOfResource(m, Iron)| == 21
            && |CoordsOfCombatValue(m, 1)| == 25 && |CoordsOfCombatValue(m, 2)| == 27 && |CoordsOfCombatValue(m, 3)| == 9
  {
    hide KingdomsBoard, Spiral, Distance, CoordsOfTerrain, CoordsOfResource, CoordsOfCombatValue, TerrainResource,
         TerrainCombatValue;
    var m := KingdomsBoard(seed);
    EveryBoardHasTheSameMix(seed);
    forall c | c in m.tiles
      ensures m.tiles[c].resource == Some(TerrainResource(m.tiles[c].terrain))
      ensures m.tiles[c].combatValue == TerrainCombatValue(m.tiles[c].terrain)
    {
      TileContents(seed, c);
    }
    CountsByTerrain(m);
  }

  lemma CountsByTerrain(m: GameMap<Tile>)
    requires forall c <- m.tiles.Keys :: m.tiles[c].resource == Some(TerrainResource(m.tiles[c].terrain))
    requires forall c <- m.tiles.Keys :: m.tiles[c].combatValue == TerrainCombatValue(m.tiles[c].terrain)
    ensures |CoordsOfResource(m, Food)| == |CoordsOfTerrain(m, Plains)| == |CoordsOfCombatValue(m, 1)|
    ensures |CoordsOfResource(m, Wood)| == |CoordsOfTerrain(m, Forest)|
    ensures |CoordsOfResource(m, Iron)| == |CoordsOfTerrain(m, Hills)| + |CoordsOfTerrain(m, Mountain)|
    ensures |CoordsOfCombatValue(m, 2)| == |CoordsOfTerrain(m, Forest)| + |CoordsOfTerrain(m, Hills)|
    ensures |CoordsOfCombatValue(m, 3)| == |CoordsOfTerrain(m, Mountain)|
  {
    hide CoordsOfTerrain, CoordsOfResource, CoordsOfCombatValue;
    ResourcesByTerrain(m);
    CombatByTerrain(m);
    Joined(CoordsOfTerrain(m, Hills), CoordsOfTerrain(m, Mountain));
    Joined(CoordsOfTerrain(m, Forest), CoordsOfTerrain(m, Hills));
  }

  lemma Joined(a: set<Coord>, b: set<Coord>)
    requires a !! b
    ensures |a + b| == |a| + |b|
  {
  }

  lemma ResourcesByTerrain(m: GameMap<Tile>)
    requires forall c <- m.tiles.Keys :: m.tiles[c].resource == Some(TerrainResource(m.tiles[c].terrain))
    ensures CoordsOfResource(m, Food) == CoordsOfTerrain(m, Plains) && CoordsOfResource(m, Wood) == CoordsOfTerrain(m, Forest)
    ensures CoordsOfResource(m, Iron) == CoordsOfTerrain(m, Hills) + CoordsOfTerrain(m, Mountain)
    ensures CoordsOfTerrain(m, Hills) !! CoordsOfTerrain(m, Mountain)
  {
  }

  lemma CombatByTerrain(m: GameMap<Tile>)
    requires forall c <- m.tiles.Keys :: m.tiles[c].combatValue == TerrainCombatValue(m.tiles[c].terrain)
    ensures CoordsOfCombatValue(m, 1) == CoordsOfTerrain(m, Plains) && CoordsOfCombatValue(m, 3) == CoordsOfTerrain(m, Mountain)
    ensures CoordsOfCombatValue(m, 2) == CoordsOfTerrain(m, Forest) + CoordsOfTerrain(m, Hills)
    ensures CoordsOfTerrain(m, Forest) !! CoordsOfTerrain(m, Hills)
  {
  }

  /** Starting corners per player count; any other count falls back to the two-player corners. */
  function StartingCoords(players: nat): (s: seq<Coord>)
    ensures NoDup(s) && (2 <= players <= 6 ==> |s| == players)
    ensures forall c <- s :: Distance(Coord(0, 0), c) == 4
  {
    match players
    case 3 => [Coord(4, 0), Coord(0, -4), Coord(-4, 4)]
    case 4 => [Coord(4, 0), Coord(0, -4), Coord(-4, 0), Coord(0, 4)]
    case 5 => [Coord(4, 0), Coord(4, -4), Coord(0, -4), Coord(-4, 0), Coord(0, 4)]
    case 6 => [Coord(4, 0), Coord(4, -4), Coord(0, -4), Coord(-4, 0), Coord(-4, 4), Coord(0, 4)]
    case _ => [Coord(4, -4), Coord(-4, 4)]
  }

  /** Two or three players all start eight steps from each other; of four everybody has two others eight steps away and
      one four. */
  lemma HomesAreApart(n: nat, i: nat, j: nat)
    requires 2 <= n <= 4 && i < n && j < n && i != j
    ensures var d := Distance(StartingCoords(n)[i], StartingCoords(n)[j]);
            d == if n == 4 && i + j == 3 then 4 else 8
  {
  }
}
