/**
 * Income, upkeep, the gold-for-food exchange, the round-end economy and the income
 * previews shown to players.
 */
module KingdomsEconomy {
  import opened Collections
  import opened Hex
  import opened Board
  import opened KingdomsMap
  import opened Rounds
  import opened Connectivity
  import opened KingdomsState

  // ---- One tile -------------------------------------------------------------------

  datatype TileIncome = TileIncome(gold: int, resource: Option<Resource>, amount: int)

  function GoldMultiplier(kinds: seq<Kind>): real {
    if kinds == [] then 1.0
    else GoldMultiplier(kinds[..|kinds| - 1]) * if kinds[|kinds| - 1] == City then 2.0 else 1.0
  }

  function GoldFlat(kinds: seq<Kind>): int {
    if kinds == [] then 0
    else GoldFlat(kinds[..|kinds| - 1]) + if kinds[|kinds| - 1] == CapitalBase then 1 else 0
  }

  function ResourceMultiplier(kinds: seq<Kind>): real {
    if kinds == [] then 1.0
    else
      var before := ResourceMultiplier(kinds[..|kinds| - 1]);
      var effect := if kinds[|kinds| - 1] == Farm then 1.5 else 1.0;
      if before > effect then before else effect
  }

  function IncomeOfTile(tile: Tile, kinds: seq<Kind>): TileIncome {
    var gold := (tile.economicValue as real * GoldMultiplier(kinds)).Floor + GoldFlat(kinds);
    var amount := if tile.resource.Some? then (2.0 * ResourceMultiplier(kinds)).Floor else 0;
    TileIncome(gold, if amount > 0 then tile.resource else None, amount)
  }

  method CalculateTileIncome(tile: Tile, kinds: seq<Kind>) returns (income: TileIncome)
    ensures income == IncomeOfTile(tile, kinds)
  {
    var goldMultiplier, goldFlat, resourceMultiplier := 1.0, 0, 1.0;
    for i := 0 to |kinds|
      invariant goldMultiplier == GoldMultiplier(kinds[..i])
      invariant goldFlat == GoldFlat(kinds[..i])
      invariant resourceMultiplier == ResourceMultiplier(kinds[..i])
    {
      assert kinds[..i + 1][..i] == kinds[..i];
      goldMultiplier := goldMultiplier * if kinds[i] == City then 2.0 else 1.0;
      goldFlat := goldFlat + if kinds[i] == CapitalBase then 1 else 0;
      var effect := if kinds[i] == Farm then 1.5 else 1.0;
      if effect >= resourceMultiplier {
        resourceMultiplier := effect;
      }
    }
    assert kinds[..|kinds|] == kinds;
    var gold := (tile.economicValue as real * goldMultiplier).Floor + goldFlat;
    var amount := if tile.resource.Some? then (2.0 * resourceMultiplier).Floor else 0;
    income := TileIncome(gold, if amount > 0 then tile.resource else None, amount);
  }

  lemma {:induction false} MultipliersAreAtLeastOne(kinds: seq<Kind>)
    ensures GoldMultiplier(kinds) >= 1.0 && GoldFlat(kinds) >= 0 && 1.0 <= ResourceMultiplier(kinds) <= 1.5
  {
    if kinds != [] {
      MultipliersAreAtLeastOne(kinds[..|kinds| - 1]);
    }
  }

  /** A tile never costs gold, a tile with a resource yields two or, with a farm, three of it. */
  lemma TileIncomeIsPositive(tile: Tile, kinds: seq<Kind>)
    requires tile.economicValue >= 0
    ensures IncomeOfTile(tile, kinds).gold >= tile.economicValue
    ensures tile.resource.Some? ==>
              && IncomeOfTile(tile, kinds).resource == tile.resource
              && IncomeOfTile(tile, kinds).amount == if Farm in kinds then 3 else 2
    ensures tile.resource.None? ==> IncomeOfTile(tile, kinds) == TileIncome(IncomeOfTile(tile, kinds).gold, None, 0)
  {
    MultipliersAreAtLeastOne(kinds);
    FarmMultiplier(kinds);
    var v := tile.economicValue as real;
    assert v * GoldMultiplier(kinds) >= v * 1.0 by {
      ProductMonotone(v, 1.0, GoldMultiplier(kinds));
    }
  }

  lemma ProductMonotone(a: real, b: real, c: real)
    requires a >= 0.0 && b <= c
    ensures a * b <= a * c
  {
  }

  lemma {:induction false} FarmMultiplier(kinds: seq<Kind>)
    ensures ResourceMultiplier(kinds) == if Farm in kinds then 1.5 else 1.0
  {
    if kinds != [] {
      var init := kinds[..|kinds| - 1];
      assert kinds == init + [kinds[|kinds| - 1]];
      FarmMultiplier(init);
    }
  }

  // ---- The land a player lives off --------------------------------------------------

  /** The unmortgaged structures on a tile, in table order. */
  function KindsOn(order: seq<PieceId>, at: map<PieceId, Piece>, mortgaged: seq<PieceId>, tile: Coord): seq<Kind> {
    if order == [] then []
    else KindsOn(order[..|order| - 1], at, mortgaged, tile) + KindOf(order[|order| - 1], at, mortgaged, tile)
  }

  function KindOf(id: PieceId, at: map<PieceId, Piece>, mortgaged: seq<PieceId>, tile: Coord): seq<Kind> {
    if id !in mortgaged && id in at && !IsUnit(at[id].kind) && at[id].tile == tile then [at[id].kind] else []
  }

  function KindsAt(land: Land, tile: Coord): seq<Kind> {
    KindsOn(land.pieces.order, land.pieces.at, land.mortgaged, tile)
  }

  function GoldAt(land: Land, c: Coord): int {
    if c in land.board.tiles then IncomeOfTile(land.board.tiles[c], KindsAt(land, c)).gold else 0
  }

  /** What development adds to: the tile's own resource, or the one its terrain unlocks. */
  function EffectiveResource(tile: Tile): Resource {
    if tile.resource.Some? then tile.resource.value else TerrainResource(tile.terrain)
  }

  function YieldAt(land: Land, c: Coord, res: Resource): int {
    if c in land.board.tiles then
      var income := IncomeOfTile(land.board.tiles[c], KindsAt(land, c));
      if income.resource == Some(res) then income.amount else 0
    else 0
  }

  function DevelopmentAt(land: Land, c: Coord, res: Resource): int {
    if c in land.board.tiles && c in land.developed && EffectiveResource(land.board.tiles[c]) == res then 2 else 0
  }

  function GoldFn(land: Land): Coord -> int { c => GoldAt(land, c) }

  function ResourceFn(land: Land, res: Resource): Coord -> int {
    c => YieldAt(land, c, res) + DevelopmentAt(land, c, res)
  }

  /** The listed coordinates that lie in a set, in list order. */
  ghost function Within(order: seq<Coord>, s: set<Coord>): (r: seq<Coord>)
    ensures forall c :: c in r <==> c in order && c in s
  {
    if order == [] then []
    else if order[0] in s then [order[0]] + Within(order[1..], s)
    else Within(order[1..], s)
  }

  lemma {:induction false} WithinIsDistinct(order: seq<Coord>, s: set<Coord>)
    requires NoDup(order)
    ensures NoDup(Within(order, s))
  {
    if order != [] {
      WithinIsDistinct(order[1..], s);
      assert order[0] !in order[1..];
      NoDupConcat([order[0]], Within(order[1..], s));
    }
  }

  function IncomeFrom(land: Land, tiles: seq<Coord>): Stock {
    Stock(Sum(ResourceFn(land, Resource.Wood), tiles), Sum(ResourceFn(land, Resource.Food), tiles),
          Sum(ResourceFn(land, Resource.Iron), tiles), Sum(GoldFn(land), tiles))
  }

  /** Everything the supplied tiles on the map yield. */
  ghost function Income(land: Land, p: PlayerId): Stock {
    IncomeFrom(land, Within(land.board.order, Supplied(land, p)))
  }

  /** Listing the supplied tiles in any other order, with or without tiles off the map, gives the same income. */
  lemma IncomeInAnyOrder(land: Land, p: PlayerId, visited: seq<Coord>)
    requires land.board.Valid() && NoDup(visited)
    requires forall c :: c in visited <==> c in Supplied(land, p)
    ensures IncomeFrom(land, visited) == Income(land, p)
  {
    hide Supplied, IncomeOfTile;
    var c := Supplied(land, p);
    var listed := Within(land.board.order, c);
    WithinIsDistinct(land.board.order, c);
    var onMap := Within(visited, land.board.tiles.Keys);
    WithinIsDistinct(visited, land.board.tiles.Keys);
    SameElementsArePermutations(onMap, listed);
    IgnoreOffMap(GoldFn(land), land, visited);
    SumPermutation(GoldFn(land), onMap, listed);
    forall res: Resource ensures Sum(ResourceFn(land, res), visited) == Sum(ResourceFn(land, res), listed) {
      IgnoreOffMap(ResourceFn(land, res), land, visited);
      SumPermutation(ResourceFn(land, res), onMap, listed);
    }
  }

  lemma {:induction false} IgnoreOffMap(f: Coord -> int, land: Land, visited: seq<Coord>)
    requires forall c :: c !in land.board.tiles ==> f(c) == 0
    ensures Sum(f, Within(visited, land.board.tiles.Keys)) == Sum(f, visited)
  {
    if visited != [] {
      IgnoreOffMap(f, land, visited[1..]);
      var rest := Within(visited[1..], land.board.tiles.Keys);
      assert ([visited[0]] + rest)[1..] == rest;
    }
  }

  method BuildStructureMap(land: Land) returns (structures: map<Coord, seq<Kind>>)
    requires ValidPieces(land.pieces)
    ensures forall t :: (if t in structures then structures[t] else []) == KindsAt(land, t)
  {
    hide IsUnit;
    structures := map[];
    var order, at := land.pieces.order, land.pieces.at;
    for i := 0 to |order|
      invariant forall t :: (if t in structures then structures[t] else []) == KindsOn(order[..i], at, land.mortgaged, t)
    {
      assert order[..i + 1][..i] == order[..i];
      var id := order[i];
      assert id in at;
      if id !in land.mortgaged && !IsUnit(at[id].kind) {
        var t := at[id].tile;
        structures := structures[t := (if t in structures then structures[t] else []) + [at[id].kind]];
      }
    }
    assert order[..|order|] == order;
  }

  method FindGates(ps: Pieces, p: PlayerId) returns (tiles: set<Coord>)
    requires ValidPieces(ps)
    ensures tiles == GateTiles(ps, p)
  {
    tiles := {};
    for i := 0 to |ps.order|
      invariant tiles == set id | id in ps.order[..i] && id in ps.at && ps.at[id].kind == Gate && ps.at[id].owner == p
                           :: ps.at[id].tile
    {
      var id := ps.order[i];
      assert ps.order[..i + 1] == ps.order[..i] + [id];
      assert id in ps.at;
      if ps.at[id].kind != Gate || ps.at[id].owner != p {
        continue;
      }
      tiles := tiles + {ps.at[id].tile};
    }
    assert ps.order[..|ps.order|] == ps.order;
  }

  /** The supply search from the player's capital over its own tiles and gates. */
  method PlayerConnectedTiles(land: Land, p: PlayerId) returns (visited: seq<Coord>)
    requires land.board.Valid() && ValidPieces(land.pieces)
    ensures NoDup(visited) && forall c :: c in visited <==> c in Supplied(land, p)
  {
    if p !in land.capitals {
      return [];
    }
    var gates := FindGates(land.pieces, p);
    visited := GetConnectedTiles(land.board, land.capitals[p], OwnedTiles(land.ownership, p), gates);
  }

  function Credit(s: Stock, res: Resource, amount: int): Stock {
    match res
    case Wood => s.(wood := s.wood + amount)
    case Food => s.(food := s.food + amount)
    case Iron => s.(iron := s.iron + amount)
  }

  function TileStock(land: Land, c: Coord): Stock {
    Stock(ResourceFn(land, Resource.Wood)(c), ResourceFn(land, Resource.Food)(c),
          ResourceFn(land, Resource.Iron)(c), GoldFn(land)(c))
  }

  lemma IncomeFromLast(land: Land, tiles: seq<Coord>, i: nat)
    requires i < |tiles|
    ensures IncomeFrom(land, tiles[..i + 1]) == Plus(IncomeFrom(land, tiles[..i]), TileStock(land, tiles[i]))
  {
    hide GoldAt, YieldAt, DevelopmentAt;
    assert tiles[..i + 1] == tiles[..i] + [tiles[i]];
    SumLast(GoldFn(land), tiles[..i], tiles[i]);
    forall res: Resource {
      SumLast(ResourceFn(land, res), tiles[..i], tiles[i]);
    }
  }

  method ComputeIncome(land: Land, p: PlayerId) returns (result: Stock)
    requires land.board.Valid() && ValidPieces(land.pieces)
    ensures result == Income(land, p)
  {
    hide Sum, Supplied, KindsAt, Income, IncomeOfTile;
    var connected := PlayerConnectedTiles(land, p);
    IncomeInAnyOrder(land, p, connected);
    var structures := BuildStructureMap(land);
    result := Stock(0, 0, 0, 0);
    assert connected[..0] == [];
    EmptyIncome(land);
    for i := 0 to |connected|
      invariant result == IncomeFrom(land, connected[..i])
    {
      IncomeFromLast(land, connected, i);
      result := AddTile(land, connected[i], structures, result);
    }
    assert connected[..|connected|] == connected;
  }

  lemma EmptyIncome(land: Land)
    ensures IncomeFrom(land, []) == Stock(0, 0, 0, 0)
  {
  }

  /** The body of the income loop for one connected tile. */
  method AddTile(land: Land, c: Coord, structures: map<Coord, seq<Kind>>, before: Stock) returns (result: Stock)
    requires (if c in structures then structures[c] else []) == KindsAt(land, c)
    ensures result == Plus(before, TileStock(land, c))
  {
    hide KindsAt, IncomeOfTile;
    result := before;
    if c !in land.board.tiles {
      return;
    }
    var tile := land.board.tiles[c];
    var income := CalculateTileIncome(tile, if c in structures then structures[c] else []);
    result := result.(gold := result.gold + income.gold);
    if income.resource.Some? && income.amount > 0 {
      result := Credit(result, income.resource.value, income.amount);
    }
    YieldIsPositive(tile, KindsAt(land, c));
    if c in land.developed {
      result := Credit(result, EffectiveResource(tile), 2);
    }
  }

  lemma YieldIsPositive(tile: Tile, kinds: seq<Kind>)
    ensures IncomeOfTile(tile, kinds).resource.Some? ==> IncomeOfTile(tile, kinds).amount > 0
  {
  }

  // ---- Upkeep ------------------------------------------------------------------------

  function UpkeepOf(id: PieceId, at: map<PieceId, Piece>, mortgaged: seq<PieceId>, p: PlayerId): nat {
    if id in at && at[id].owner == p && id !in mortgaged then Upkeep(at[id].kind) else 0
  }

  function UpkeepOver(order: seq<PieceId>, at: map<PieceId, Piece>, mortgaged: seq<PieceId>, p: PlayerId): nat {
    if order == [] then 0
    else UpkeepOver(order[..|order| - 1], at, mortgaged, p) + UpkeepOf(order[|order| - 1], at, mortgaged, p)
  }

  function FoodCost(land: Land, p: PlayerId): nat {
    UpkeepOver(land.pieces.order, land.pieces.at, land.mortgaged, p)
  }

  /** What so many pieces of four kinds eat: spearmen and nobles one each, cannoneers and cities two. */
  function Meals(spearmen: nat, cannoneers: nat, nobles: nat, cities: nat): nat {
    spearmen + 2 * cannoneers + nobles + 2 * cities
  }

  /** What a player's armies and cities eat, some pieces left out. */
  function FedWithout(ps: Pieces, p: PlayerId, out: set<PieceId>): nat {
    Meals(|Army(ps, p, Spearman) - out|, |Army(ps, p, Cannoneer) - out|, |Army(ps, p, Noble) - out|, |Army(ps, p, City) - out|)
  }

  /** What those of a player's armies and cities eat that are among some pieces. */
  function FedAmong(ps: Pieces, p: PlayerId, some: set<PieceId>): nat {
    Meals(|Army(ps, p, Spearman) * some|, |Army(ps, p, Cannoneer) * some|, |Army(ps, p, Noble) * some|, |Army(ps, p, City) * some|)
  }

  function ListedArmy(order: seq<PieceId>, at: map<PieceId, Piece>, p: PlayerId, k: Kind): set<PieceId> {
    set id | id in order && id in at && at[id].owner == p && at[id].kind == k
  }

  lemma ListedLast(order: seq<PieceId>, last: PieceId, at: map<PieceId, Piece>, out: set<PieceId>, p: PlayerId, k: Kind)
    requires last !in order
    ensures |ListedArmy(order + [last], at, p, k) - out| ==
            |ListedArmy(order, at, p, k) - out|
            + if last in at && at[last].owner == p && at[last].kind == k && last !in out then 1 else 0
  {
    assert ListedArmy(order + [last], at, p, k) - out ==
           ListedArmy(order, at, p, k) - out
           + if last in at && at[last].owner == p && at[last].kind == k && last !in out then {last} else {};
  }

  lemma {:induction false} UpkeepAddsUp(order: seq<PieceId>, at: map<PieceId, Piece>, mortgaged: seq<PieceId>, p: PlayerId)
    requires NoDup(order)
    ensures var out := Elements(mortgaged);
            UpkeepOver(order, at, mortgaged, p) ==
            Meals(|ListedArmy(order, at, p, Spearman) - out|, |ListedArmy(order, at, p, Cannoneer) - out|,
                  |ListedArmy(order, at, p, Noble) - out|, |ListedArmy(order, at, p, City) - out|)
  {
    hide ListedArmy;
    if order == [] {
      NothingListed(at, p);
    } else {
      var init, last, out := order[..|order| - 1], order[|order| - 1], Elements(mortgaged);
      assert order == init + [last] && last !in init;
      UpkeepAddsUp(init, at, mortgaged, p);
      ListedLast(init, last, at, out, p, Spearman);
      ListedLast(init, last, at, out, p, Cannoneer);
      ListedLast(init, last, at, out, p, Noble);
      ListedLast(init, last, at, out, p, City);
    }
  }

  lemma NothingListed(at: map<PieceId, Piece>, p: PlayerId)
    ensures forall k :: ListedArmy([], at, p, k) == {}
  {
  }

  /** A player's upkeep by its own pieces: one for each spearman and noble, two for each cannoneer and city, nothing for
      any other piece or for one that is mortgaged. */
  lemma UpkeepByKinds(land: Land, p: PlayerId)
    requires ValidPieces(land.pieces)
    ensures var ps, out := land.pieces, Elements(land.mortgaged);
            FoodCost(land, p) == FedWithout(ps, p, out)
  {
    hide UpkeepOver, Meals;
    var ps := land.pieces;
    UpkeepAddsUp(ps.order, ps.at, land.mortgaged, p);
    forall k ensures ListedArmy(ps.order, ps.at, p, k) == Army(ps, p, k) {
    }
  }

  /** Losing pieces saves their owners exactly what those pieces ate. */
  lemma LossesSaveUpkeep(land: Land, gone: set<PieceId>, p: PlayerId)
    requires ValidPieces(land.pieces) && land.mortgaged == []
    ensures var ps := land.pieces;
            FoodCost(land, p) ==
            FoodCost(land.(pieces := Without(ps, gone)), p)
            + FedAmong(ps, p, gone)
  {
    hide FoodCost, Without, ValidPieces, FedWithout, FedAmong, Elements;
    var ps, after := land.pieces, Without(land.pieces, gone);
    WithoutKeepsValid(ps, gone);
    UpkeepByKinds(land, p);
    UpkeepByKinds(land.(pieces := after), p);
    NoElements(land.mortgaged);
    FedAfterLosses(ps, gone, p);
  }

  lemma NoElements(s: seq<PieceId>)
    requires s == []
    ensures Elements(s) == {}
  {
  }

  lemma FedAfterLosses(ps: Pieces, gone: set<PieceId>, p: PlayerId)
    ensures FedWithout(ps, p, {}) == FedWithout(Without(ps, gone), p, {}) + FedAmong(ps, p, gone)
  {
    hide Without, Army;
    ArmyAfterLosses(ps, gone, p, Spearman);
    ArmyAfterLosses(ps, gone, p, Cannoneer);
    ArmyAfterLosses(ps, gone, p, Noble);
    ArmyAfterLosses(ps, gone, p, City);
  }

  lemma ArmyAfterLosses(ps: Pieces, gone: set<PieceId>, p: PlayerId, k: Kind)
    ensures |Army(ps, p, k) - {}| == |Army(Without(ps, gone), p, k) - {}| + |Army(ps, p, k) * gone|
  {
    var before, after := Army(ps, p, k), Army(Without(ps, gone), p, k);
    assert after == before - gone;
    SplitBy(before, gone);
    assert before - {} == before && after - {} == after;
  }

  lemma SplitBy(a: set<PieceId>, gone: set<PieceId>)
    ensures |a| == |a - gone| + |a * gone|
  {
    assert a == (a - gone) + (a * gone);
  }

  function KindUpkeep(kinds: seq<Kind>): nat {
    if kinds == [] then 0 else KindUpkeep(kinds[..|kinds| - 1]) + Upkeep(kinds[|kinds| - 1])
  }

  lemma KindUpkeepLast(kinds: seq<Kind>, k: Kind)
    ensures KindUpkeep(kinds + [k]) == KindUpkeep(kinds) + Upkeep(k)
  {
    assert (kinds + [k])[..|kinds|] == kinds;
  }

  /** Collects the unit kinds and the structure kinds apart, then adds up both. */
  method ComputeFoodCost(land: Land, p: PlayerId) returns (cost: nat)
    requires ValidPieces(land.pieces)
    ensures cost == FoodCost(land, p)
  {
    hide IsUnit, Upkeep;
    var unitKinds: seq<Kind>, structureKinds: seq<Kind> := [], [];
    var order, at := land.pieces.order, land.pieces.at;
    for i := 0 to |order|
      invariant KindUpkeep(unitKinds) + KindUpkeep(structureKinds) == UpkeepOver(order[..i], at, land.mortgaged, p)
    {
      assert order[..i + 1][..i] == order[..i];
      var id := order[i];
      assert id in at;
      if at[id].owner == p && id !in land.mortgaged {
        if IsUnit(at[id].kind) {
          KindUpkeepLast(unitKinds, at[id].kind);
          unitKinds := unitKinds + [at[id].kind];
        } else {
          KindUpkeepLast(structureKinds, at[id].kind);
          structureKinds := structureKinds + [at[id].kind];
        }
      }
    }
    assert order[..|order|] == order;
    cost := KindUpkeep(unitKinds) + KindUpkeep(structureKinds);
  }

  // ---- One player's cycle ------------------------------------------------------------

  function Collect(stock: Stock, income: Stock): Stock {
    Plus(stock, Stock(Max(0, income.wood), Max(0, income.food), Max(0, income.iron), Max(0, income.gold)))
  }

  /** Food bought for a deficit: as much as is needed and the gold allows at 3 a piece. */
  function Purchased(gold: int, deficit: int): (n: int)
  {
    if deficit <= 0 then 0 else Min(deficit, gold / 3)
  }

  function Exchanged(stock: Stock, deficit: int): Stock {
    var n := Purchased(stock.gold, deficit);
    if n > 0 then stock.(gold := stock.gold - 3 * n, food := stock.food + n) else stock
  }

  function Eat(stock: Stock, cost: nat): Stock {
    if cost == 0 then stock
    else
      var used := Min(stock.food, cost);
      Exchanged(if used > 0 then stock.(food := stock.food - used) else stock, cost - stock.food)
  }

  function Cycle(stock: Stock, income: Stock, cost: nat): Stock {
    Eat(Collect(stock, income), cost)
  }

  /** The exchange trades at a fixed rate, never overdraws, and stops only when the deficit is met or the
      gold left buys nothing. */
  lemma ExchangeConserves(stock: Stock, deficit: int)
    requires NonNegative(stock)
    ensures var after := Exchanged(stock, deficit);
            && 3 * after.food + after.gold == 3 * stock.food + stock.gold
            && NonNegative(after) && after.food >= stock.food
            && (deficit <= 0 ==> after == stock)
            && (deficit > 0 ==> after.food - stock.food == deficit || after.gold < 3)
            && (deficit > 0 ==> after.food - stock.food <= deficit)
  {
  }

  /** A whole cycle keeps every resource non-negative; wood and iron only grow by the income.  Upkeep the
      stock covers is simply paid.  Otherwise the stock is used up and the food bought, at 3 gold each, is
      put in the larder without being eaten. */
  lemma CycleIsSolvent(stock: Stock, income: Stock, cost: nat)
    requires NonNegative(stock) && NonNegative(income)
    ensures var after := Cycle(stock, income, cost);
            && NonNegative(after)
            && after.wood == stock.wood + income.wood && after.iron == stock.iron + income.iron
            && (stock.food + income.food >= cost ==>
                  after.food == stock.food + income.food - cost && after.gold == stock.gold + income.gold)
            && (stock.food + income.food < cost ==>
                  var deficit := cost - (stock.food + income.food);
                  && 0 <= after.food <= deficit
                  && 3 * after.food + after.gold == stock.gold + income.gold
                  && (after.food == deficit || after.gold < 3))
  {
    var held := Collect(stock, income);
    if held.food < cost {
      ExchangeConserves(held.(food := 0), cost - held.food);
    }
  }

  // ---- Round end ------------------------------------------------------------------------

  /** The number a piece id ends in; cities only ever carry generated ids. */
  function IdOrder(id: PieceId): nat {
    match id
    case Generated(n) => n
    case SpearmanId(_, i) => i
    case _ => 0
  }

  function OldestCity(order: seq<PieceId>, at: map<PieceId, Piece>, p: PlayerId, mortgaged: seq<PieceId>): Option<PieceId> {
    if order == [] then None
    else
      var id := order[|order| - 1];
      var before := OldestCity(order[..|order| - 1], at, p, mortgaged);
      if id in at && at[id].owner == p && at[id].kind == City && id !in mortgaged
         && (before.None? || IdOrder(id) < IdOrder(before.value)) then Some(id)
      else before
  }

  /** A city of the player that is not mortgaged. */
  predicate IsOpenCity(at: map<PieceId, Piece>, p: PlayerId, mortgaged: seq<PieceId>, id: PieceId) {
    id in at && at[id].owner == p && at[id].kind == City && id !in mortgaged
  }

  /** Position i holds an open city with the lowest number, and no earlier one has that number. */
  ghost predicate IsOldestAt(order: seq<PieceId>, at: map<PieceId, Piece>, p: PlayerId, mortgaged: seq<PieceId>, i: nat) {
    && i < |order| && IsOpenCity(at, p, mortgaged, order[i])
    && (forall j :: 0 <= j < |order| && IsOpenCity(at, p, mortgaged, order[j]) ==> IdOrder(order[i]) <= IdOrder(order[j]))
    && forall j :: 0 <= j < i && IsOpenCity(at, p, mortgaged, order[j]) ==> IdOrder(order[i]) < IdOrder(order[j])
  }

  /** The search finds a city exactly if the player has one that is not mortgaged, and of those the one listed first among
      the ones with the lowest number. */
  lemma {:induction false} OldestCityIsOldest(order: seq<PieceId>, at: map<PieceId, Piece>, p: PlayerId, mortgaged: seq<PieceId>)
      returns (i: nat)
    ensures var city := OldestCity(order, at, p, mortgaged);
            && (city.None? <==> forall id <- order :: !IsOpenCity(at, p, mortgaged, id))
            && (city.Some? ==> IsOldestAt(order, at, p, mortgaged, i) && city.value == order[i])
  {
    i := 0;
    hide IdOrder, IsOpenCity;
    if order != [] {
      var init, last := order[..|order| - 1], order[|order| - 1];
      var k := OldestCityIsOldest(init, at, p, mortgaged);
      assert order == init + [last];
      OneMoreCity(order, at, p, mortgaged);
      if OldestCity(order, at, p, mortgaged) == OldestCity(init, at, p, mortgaged) {
        i := k;
      } else {
        i := |order| - 1;
      }
    }
  }

  lemma OneMoreCity(order: seq<PieceId>, at: map<PieceId, Piece>, p: PlayerId, mortgaged: seq<PieceId>)
    requires order != []
    ensures var id, before := order[|order| - 1], OldestCity(order[..|order| - 1], at, p, mortgaged);
            OldestCity(order, at, p, mortgaged) ==
            if IsOpenCity(at, p, mortgaged, id) && (before.None? || IdOrder(id) < IdOrder(before.value)) then Some(id) else before
  {
  }

  /** One player's cycle on the state: a player without an inventory is passed over, and a city is
      mortgaged only if the gold ends up negative. */
  ghost function ProcessPlayer(s: State, p: PlayerId): State {
    if p !in s.stocks then s
    else
      var stock := Cycle(s.stocks[p], Income(LandOf(s), p), FoodCost(LandOf(s), p));
      var s1 := s.(stocks := s.stocks[p := stock]);
      var city := OldestCity(s.pieces.order, s.pieces.at, p, s.mortgaged);
      if stock.gold < 0 && city.Some? then s1.(mortgaged := s.mortgaged + [city.value]) else s1
  }

  /** A cycle mortgages a city exactly when it ends in debt and there is one left to mortgage: that one, and nothing but the
      player's own stock changes besides. */
  lemma DebtMortgages(s: State, p: PlayerId)
    requires p in s.stocks
    ensures var after, city := ProcessPlayer(s, p), OldestCity(s.pieces.order, s.pieces.at, p, s.mortgaged);
            && p in after.stocks
            && (after.stocks[p].gold < 0 && city.Some? ==> after.mortgaged == s.mortgaged + [city.value])
            && (after.stocks[p].gold >= 0 || city.None? ==> after.mortgaged == s.mortgaged)
            && after == s.(stocks := s.stocks[p := after.stocks[p]], mortgaged := after.mortgaged)
  {
    hide Cycle, Income, FoodCost, OldestCity;
  }

  ghost function ProcessPlayers(s: State, ps: seq<PlayerId>): State {
    if ps == [] then s else ProcessPlayer(ProcessPlayers(s, ps[..|ps| - 1]), ps[|ps| - 1])
  }

  /** The simultaneous version: every listed player's cycle computed from the same state. */
  ghost function SettledStocks(s: State, ps: set<PlayerId>): map<PlayerId, Stock> {
    map p | p in s.stocks ::
      if p in ps then Cycle(s.stocks[p], Income(LandOf(s), p), FoodCost(LandOf(s), p)) else s.stocks[p]
  }

  ghost predicate NobodyInDebt(s: State) {
    forall p <- s.stocks.Keys :: s.stocks[p].gold >= 0
  }

  lemma CycleNeverOverdraws(stock: Stock, income: Stock, cost: nat)
    requires stock.gold >= 0
    ensures Cycle(stock, income, cost).gold >= 0
  {
  }

  /** One after the other equals all at once: nobody's cycle touches what another's reads. */
  lemma {:induction false} RoundEndIsSimultaneous(s: State, ps: seq<PlayerId>)
    requires NobodyInDebt(s) && NoDup(ps)
    ensures ProcessPlayers(s, ps) == s.(stocks := SettledStocks(s, set p | p in ps))
  {
    hide Cycle, Income, FoodCost, OldestCity;
    if ps == [] {
      assert SettledStocks(s, set p | p in ps) == s.stocks;
    } else {
      var init, p := ps[..|ps| - 1], ps[|ps| - 1];
      RoundEndIsSimultaneous(s, init);
      assert ps == init + [p];
      LastPlayerSettles(s, init, p);
    }
  }

  lemma LastPlayerSettles(s: State, init: seq<PlayerId>, p: PlayerId)
    requires NobodyInDebt(s) && p !in init
    ensures ProcessPlayer(s.(stocks := SettledStocks(s, set q | q in init)), p) ==
            s.(stocks := SettledStocks(s, set q | q in init + [p]))
  {
    hide Cycle, Income, FoodCost, OldestCity;
    var before := s.(stocks := SettledStocks(s, set q | q in init));
    assert LandOf(before) == LandOf(s);
    if p in s.stocks {
      CycleNeverOverdraws(s.stocks[p], Income(LandOf(s), p), FoodCost(LandOf(s), p));
      assert before.stocks[p := Cycle(s.stocks[p], Income(LandOf(s), p), FoodCost(LandOf(s), p))] ==
             SettledStocks(s, set q | q in init + [p]);
    } else {
      assert before.stocks == SettledStocks(s, set q | q in init + [p]);
    }
  }

  /** The round end leaves the same state for every order of the players, and mortgages nothing. */
  lemma RoundEndIsOrderFree(s: State, ps: seq<PlayerId>, qs: seq<PlayerId>)
    requires NobodyInDebt(s) && NoDup(ps) && multiset(ps) == multiset(qs)
    ensures ProcessPlayers(s, ps) == ProcessPlayers(s, qs)
    ensures ProcessPlayers(s, ps).mortgaged == s.mortgaged
  {
    hide ProcessPlayers, SettledStocks;
    assert NoDup(qs) by {
      SubBagIsDistinct(qs, ps);
    }
    RoundEndIsSimultaneous(s, ps);
    RoundEndIsSimultaneous(s, qs);
    assert (set p | p in ps) == (set p | p in qs) by {
      forall p ensures p in ps <==> p in qs {
        assert p in multiset(ps) <==> p in multiset(qs);
      }
    }
  }

  // ---- Growth -----------------------------------------------------------------------------

  lemma {:induction false} SumOverLargerSet(f: Coord -> int, g: Coord -> int, order: seq<Coord>, a: set<Coord>, b: set<Coord>)
    requires a <= b && forall c :: 0 <= f(c) <= g(c)
    ensures Sum(f, Within(order, a)) <= Sum(g, Within(order, b))
  {
    if order != [] {
      SumOverLargerSet(f, g, order[1..], a, b);
      var ra, rb := Within(order[1..], a), Within(order[1..], b);
      assert ([order[0]] + ra)[1..] == ra && ([order[0]] + rb)[1..] == rb;
    }
  }

  ghost predicate NoLess(a: Stock, b: Stock) {
    a.wood <= b.wood && a.food <= b.food && a.iron <= b.iron && a.gold <= b.gold
  }

  /** Tile by tile, b yields at least what a does. */
  ghost predicate YieldsNoLess(a: Land, b: Land) {
    && (forall c :: GoldFn(a)(c) <= GoldFn(b)(c))
    && forall c, res :: ResourceFn(a, res)(c) <= ResourceFn(b, res)(c)
  }

  ghost predicate Fertile(board: GameMap<Tile>) {
    forall c <- board.tiles.Keys :: board.tiles[c].economicValue >= 0
  }

  /** Between any two situations with the same board and capitals: if the player's territory, its gates and the yields
      only grow, none of its four incomes falls. */
  lemma IncomeIsMonotone(a: Land, b: Land, p: PlayerId)
    requires a.board == b.board && a.capitals == b.capitals && Fertile(a.board)
    requires OwnedTiles(a.ownership, p) <= OwnedTiles(b.ownership, p) && GateTiles(a.pieces, p) <= GateTiles(b.pieces, p)
    requires YieldsNoLess(a, b)
    ensures NoLess(Income(a, p), Income(b, p))
  {
    hide Connected, OwnedTiles, GateTiles, GoldAt, YieldAt, DevelopmentAt;
    if p in a.capitals {
      ConnectedIsMonotone(a.board, a.capitals[p], OwnedTiles(a.ownership, p), GateTiles(a.pieces, p),
                          OwnedTiles(b.ownership, p), GateTiles(b.pieces, p));
    }
    forall c ensures 0 <= GoldFn(a)(c) {
      YieldsAreNonNegative(a, c, Resource.Wood);
    }
    SumOverLargerSet(GoldFn(a), GoldFn(b), a.board.order, Supplied(a, p), Supplied(b, p));
    ResourceIsMonotone(a, b, p, Resource.Wood);
    ResourceIsMonotone(a, b, p, Resource.Food);
    ResourceIsMonotone(a, b, p, Resource.Iron);
  }

  lemma ResourceIsMonotone(a: Land, b: Land, p: PlayerId, res: Resource)
    requires a.board == b.board && Fertile(a.board) && YieldsNoLess(a, b) && Supplied(a, p) <= Supplied(b, p)
    ensures Sum(ResourceFn(a, res), Within(a.board.order, Supplied(a, p))) <=
            Sum(ResourceFn(b, res), Within(b.board.order, Supplied(b, p)))
  {
    hide Supplied, GoldAt, YieldAt, DevelopmentAt;
    forall c ensures 0 <= ResourceFn(a, res)(c) {
      YieldsAreNonNegative(a, c, res);
    }
    SumOverLargerSet(ResourceFn(a, res), ResourceFn(b, res), a.board.order, Supplied(a, p), Supplied(b, p));
  }

  /** More territory never lowers an income, although a gate bridges unowned tiles only. */
  lemma TerritoryPays(a: Land, own: map<Coord, PlayerId>, p: PlayerId)
    requires Fertile(a.board) && OwnedTiles(a.ownership, p) <= OwnedTiles(own, p)
    ensures NoLess(Income(a, p), Income(a.(ownership := own), p))
  {
    hide OwnedTiles, GateTiles, IncomeOfTile, KindsOn, Income, NoLess;
    IncomeIsMonotone(a, a.(ownership := own), p);
  }

  lemma {:induction false} SumOfNonNegative(f: Coord -> int, tiles: seq<Coord>)
    requires forall c :: f(c) >= 0
    ensures Sum(f, tiles) >= 0
  {
    SumNonNegative(f, tiles);
  }

  lemma YieldsAreNonNegative(land: Land, c: Coord, res: Resource)
    requires forall c <- land.board.tiles.Keys :: land.board.tiles[c].economicValue >= 0
    ensures GoldFn(land)(c) >= 0 && ResourceFn(land, res)(c) >= 0
  {
    hide IncomeOfTile, KindsAt;
    if c in land.board.tiles {
      TileIncomeIsPositive(land.board.tiles[c], KindsAt(land, c));
    }
  }

  lemma IncomeIsNonNegative(land: Land, p: PlayerId)
    requires forall c <- land.board.tiles.Keys :: land.board.tiles[c].economicValue >= 0
    ensures NonNegative(Income(land, p))
  {
    hide IncomeOfTile, Supplied;
    var tiles := Within(land.board.order, Supplied(land, p));
    forall c ensures GoldFn(land)(c) >= 0 {
      YieldsAreNonNegative(land, c, Resource.Wood);
    }
    forall c, res ensures ResourceFn(land, res)(c) >= 0 {
      YieldsAreNonNegative(land, c, res);
    }
    SumOfNonNegative(GoldFn(land), tiles);
    SumOfNonNegative(ResourceFn(land, Resource.Wood), tiles);
    SumOfNonNegative(ResourceFn(land, Resource.Food), tiles);
    SumOfNonNegative(ResourceFn(land, Resource.Iron), tiles);
  }

  // ---- Previews -------------------------------------------------------------------------------

  /** What the view shows for a tile: nothing unless its owner is in the game and supplies it.  The view's
      own structure pass does not look at mortgages. */
  ghost function Preview(land: Land, eliminated: set<PlayerId>, t: Coord): Option<TileIncome> {
    if t in land.board.tiles && t in land.ownership && land.ownership[t] !in eliminated
       && t in Supplied(land, land.ownership[t])
    then Some(IncomeOfTile(land.board.tiles[t], KindsOn(land.pieces.order, land.pieces.at, [], t)))
    else None
  }

  ghost function PreviewGold(land: Land, eliminated: set<PlayerId>, p: PlayerId): Coord -> int {
    t => if t in land.ownership && land.ownership[t] == p && Preview(land, eliminated, t).Some?
         then Preview(land, eliminated, t).value.gold else 0
  }

  ghost function PreviewYield(land: Land, eliminated: set<PlayerId>, p: PlayerId, res: Resource): Coord -> int {
    t => if t in land.ownership && land.ownership[t] == p && Preview(land, eliminated, t).Some?
            && Preview(land, eliminated, t).value.resource == Some(res)
         then Preview(land, eliminated, t).value.amount else 0
  }

  /** Two for each supplied, developed tile of the resource: what the tile previews leave out. */
  ghost function DevelopmentBonus(land: Land, p: PlayerId, res: Resource): Coord -> int {
    t => if t in Supplied(land, p) then DevelopmentAt(land, t, res) else 0
  }

  lemma {:induction false} SumWithin(f: Coord -> int, g: Coord -> int, order: seq<Coord>, s: set<Coord>)
    requires forall c :: g(c) == if c in order && c in s then f(c) else if c in order then 0 else g(c)
    ensures Sum(f, Within(order, s)) == Sum(g, order)
    decreases |order|
  {
    if order != [] {
      var rest := order[1..];
      assert forall c <- rest :: c in order;
      SumWithin(f, g, rest, s);
      assert ([order[0]] + Within(rest, s))[1..] == Within(rest, s);
      assert order[0] in order;
    }
  }

  lemma SuppliedIsOwned(land: Land, p: PlayerId)
    ensures forall t <- Supplied(land, p) :: t in land.ownership && land.ownership[t] == p
  {
    hide Connected;
    if p in land.capitals && land.capitals[p] in OwnedTiles(land.ownership, p) {
      ConnectedIsLeastArea(land.board, land.capitals[p], OwnedTiles(land.ownership, p), GateTiles(land.pieces, p), {});
    } else if p in land.capitals {
      NothingWithoutCapital(land, p);
    }
  }

  lemma NothingWithoutCapital(land: Land, p: PlayerId)
    requires p in land.capitals && land.capitals[p] !in OwnedTiles(land.ownership, p)
    ensures Supplied(land, p) == {}
  {
  }

  /** With nothing mortgaged, adding up the previews of a player's tiles gives exactly the gold the round end
      pays, and per resource the amount it pays less the development bonus. */
  lemma PreviewsAddUpToPayout(land: Land, eliminated: set<PlayerId>, p: PlayerId)
    requires land.board.Valid() && land.mortgaged == [] && p !in eliminated
    ensures Sum(PreviewGold(land, eliminated, p), land.board.order) == Income(land, p).gold
    ensures Sum(PreviewYield(land, eliminated, p, Resource.Wood), land.board.order)
            + Sum(DevelopmentBonus(land, p, Resource.Wood), land.board.order) == Income(land, p).wood
    ensures Sum(PreviewYield(land, eliminated, p, Resource.Food), land.board.order)
            + Sum(DevelopmentBonus(land, p, Resource.Food), land.board.order) == Income(land, p).food
    ensures Sum(PreviewYield(land, eliminated, p, Resource.Iron), land.board.order)
            + Sum(DevelopmentBonus(land, p, Resource.Iron), land.board.order) == Income(land, p).iron
  {
    hide Supplied, Sum, IncomeOfTile;
    PreviewedGold(land, eliminated, p);
    PreviewedResource(land, eliminated, p, Resource.Wood);
    PreviewedResource(land, eliminated, p, Resource.Food);
    PreviewedResource(land, eliminated, p, Resource.Iron);
  }

  lemma PreviewedGold(land: Land, eliminated: set<PlayerId>, p: PlayerId)
    requires land.board.Valid() && land.mortgaged == [] && p !in eliminated
    ensures Sum(PreviewGold(land, eliminated, p), land.board.order) ==
            Sum(GoldFn(land), Within(land.board.order, Supplied(land, p)))
  {
    hide Supplied, Sum, IncomeOfTile;
    SuppliedIsOwned(land, p);
    SumWithin(GoldFn(land), PreviewGold(land, eliminated, p), land.board.order, Supplied(land, p));
  }

  lemma PreviewedResource(land: Land, eliminated: set<PlayerId>, p: PlayerId, res: Resource)
    requires land.board.Valid() && land.mortgaged == [] && p !in eliminated
    ensures Sum(PreviewYield(land, eliminated, p, res), land.board.order)
            + Sum(DevelopmentBonus(land, p, res), land.board.order) ==
            Sum(ResourceFn(land, res), Within(land.board.order, Supplied(land, p)))
  {
    hide Supplied, Sum, IncomeOfTile;
    SuppliedIsOwned(land, p);
    var order := land.board.order;
    var y, d := PreviewYield(land, eliminated, p, res), DevelopmentBonus(land, p, res);
    var both: Coord -> int := t => y(t) + d(t);
    SumOfSums(y, d, both, order);
    SumWithin(ResourceFn(land, res), both, order, Supplied(land, p));
  }

  lemma {:induction false} SumOfSums(f: Coord -> int, g: Coord -> int, both: Coord -> int, order: seq<Coord>)
    requires forall c :: both(c) == f(c) + g(c)
    ensures Sum(both, order) == Sum(f, order) + Sum(g, order)
  {
    if order != [] {
      SumOfSums(f, g, both, order[1..]);
    }
  }

  /** The supply search of every player still in the game; none for the eliminated. */
  method ConnectedByPlayer(land: Land, roster: seq<Player>) returns (connected: map<PlayerId, seq<Coord>>)
    requires land.board.Valid() && ValidPieces(land.pieces)
    ensures forall i :: 0 <= i < |roster| ==> roster[i].id in connected
    ensures forall p <- connected.Keys :: forall c ::
              c in connected[p] <==> !IsEliminated(roster, p) && c in Supplied(land, p)
  {
    hide Supplied, IsEliminated;
    connected := map[];
    for k := 0 to |roster|
      invariant forall i :: 0 <= i < k ==> roster[i].id in connected
      invariant forall p <- connected.Keys :: forall c ::
                  c in connected[p] <==> !IsEliminated(roster, p) && c in Supplied(land, p)
    {
      var visited := [];
      if !IsEliminated(roster, roster[k].id) {
        visited := PlayerConnectedTiles(land, roster[k].id);
      }
      connected := connected[roster[k].id := visited];
    }
  }

  /** The tile part of the view builder: one supply search per player in the game, one pass over the tiles. */
  method BuildTilePreviews(land: Land, roster: seq<Player>) returns (previews: seq<Option<TileIncome>>)
    requires land.board.Valid() && ValidPieces(land.pieces) && Roster(roster)
    requires forall t <- land.ownership.Keys :: land.ownership[t] in RosterIds(roster)
    ensures |previews| == |land.board.order|
    ensures forall i :: 0 <= i < |previews| ==>
              previews[i] == Preview(land, RosterIds(roster) - ActiveIds(roster), land.board.order[i])
  {
    hide Preview, KindsOn, Supplied, Roster, NoDup;
    var structures := BuildStructureMap(land.(mortgaged := []));
    var connected := ConnectedByPlayer(land, roster);
    previews := [];
    for i := 0 to |land.board.order|
      invariant |previews| == i
      invariant forall j :: 0 <= j < i ==>
                  previews[j] == Preview(land, RosterIds(roster) - ActiveIds(roster), land.board.order[j])
    {
      var t := land.board.order[i];
      var preview := PreviewTile(land, roster, t, connected, structures);
      previews := previews + [preview];
    }
  }

  method PreviewTile(land: Land, roster: seq<Player>, t: Coord, connected: map<PlayerId, seq<Coord>>,
                     structures: map<Coord, seq<Kind>>) returns (preview: Option<TileIncome>)
    requires t in land.board.tiles && Roster(roster)
    requires t in land.ownership ==> land.ownership[t] in RosterIds(roster)
    requires forall i :: 0 <= i < |roster| ==> roster[i].id in connected
    requires forall p <- connected.Keys :: forall c ::
               c in connected[p] <==> !IsEliminated(roster, p) && c in Supplied(land, p)
    requires (if t in structures then structures[t] else []) == KindsAt(land.(mortgaged := []), t)
    ensures preview == Preview(land, RosterIds(roster) - ActiveIds(roster), t)
  {
    hide Supplied, IncomeOfTile, IsEliminated, KindsOn;
    preview := None;
    if t in land.ownership {
      var owner := land.ownership[t];
      EliminatedIsNotActive(roster, owner);
      var k :| 0 <= k < |roster| && roster[k].id == owner;
      if t in connected[owner] {
        var income := CalculateTileIncome(land.board.tiles[t], if t in structures then structures[t] else []);
        preview := Some(income);
      }
    }
  }
}
