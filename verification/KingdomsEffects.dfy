/** What single Kingdoms actions amount to: what undoes what, what things cost, and what pays. */
module KingdomsEffects {
  import opened Collections
  import opened Hex
  import opened Board
  import opened KingdomsMap
  import opened Rounds
  import opened Connectivity
  import opened KingdomsState
  import opened KingdomsEconomy
  import opened KingdomsRules
  import opened KingdomsInvariant
  import opened KingdomsConquest
  import opened KingdomsRun

  // ---- Build and demolish -------------------------------------------------------------------

  lemma {:induction false} OrderWithoutLast(order: seq<PieceId>, id: PieceId)
    requires id !in order
    ensures OrderWithout(order + [id], {id}) == order
  {
    if order != [] {
      assert (order + [id])[1..] == order[1..] + [id];
      OrderWithoutLast(order[1..], id);
    }
  }

  lemma PlacedAndGone(ps: Pieces, id: PieceId, piece: Piece)
    requires ValidPieces(ps) && id !in ps.at
    ensures Without(SetPiece(ps, id, piece), {id}) == ps
  {
    OrderWithoutLast(ps.order, id);
    assert ps.at[id := piece] - {id} == ps.at;
  }

  /** Demolishing a structure just built is allowed and leaves everything as it was, except that its id is used up and
      half of each part of the price, rounded up, is lost. */
  lemma DemolishUndoesBuild(s: State, p: PlayerId, tile: Coord, kind: Kind)
    requires Inv(s) && p in s.stocks && ValidateBuild(s, p, tile, kind).None?
    ensures ExecuteBuild(s, p, tile, kind).Done?
    ensures var built := ExecuteBuild(s, p, tile, kind).state;
            && ValidateDemolish(built, p, tile).None? && ExecuteDemolish(built, p, tile).Done?
            && ExecuteDemolish(built, p, tile).state ==
               s.(stocks := s.stocks[p := Plus(Minus(s.stocks[p], Cost(kind)), Refund(kind))],
                  nextPieceId := s.nextPieceId + 1)
  {
    hide Inv, StructureOnTile, Supplied, CountOfKind, Without, Cost, Refund, Affords;
    BuildKeepsInv(s, p, tile, kind);
    PiecesKnown(s);
    var id, piece := Generated(s.nextPieceId + 1), Piece(kind, p, tile);
    var built := ExecuteBuild(s, p, tile, kind).state;
    OnlyStructure(built, tile);
    assert StructureOnTile(built.pieces, tile, Structures) == Some(id);
    PlacedAndGone(s.pieces, id, piece);
    assert built.stocks[p := Plus(built.stocks[p], Refund(kind))] ==
           s.stocks[p := Plus(Minus(s.stocks[p], Cost(kind)), Refund(kind))];
  }

  lemma PiecesKnown(s: State)
    requires Inv(s)
    ensures ValidPieces(s.pieces) && Generated(s.nextPieceId + 1) !in s.pieces.at
  {
    hide BoardOk, RosterOk, LandOk, CapitalsOk, StocksOk, LoyaltyOk, TrackersOk, LimitsOk, NoDup;
  }

  // ---- Moving there and back ------------------------------------------------------------------

  /** Ending turns, however often, moves no piece and no border; after the first, everybody may move again. */
  lemma {:induction false} FinishingKeepsTable(s: State, cs: seq<Command>)
    requires Inv(s) && forall c <- cs :: c.action.FinishTurn?
    ensures Play(s, cs).Some? && SameTable(s, Play(s, cs).value)
  {
    hide Inv, Validate, Execute;
    RunsKeepInv(s, cs);
    if cs != [] {
      var init, c := cs[..|cs| - 1], cs[|cs| - 1];
      assert c in cs && forall x <- init :: x in cs;
      FinishingKeepsTable(s, init);
      RunsKeepInv(s, init);
      var before := Play(s, init).value;
      if Validate(before, c).None? {
        FinishKeepsTable(before, c);
      }
    }
  }

  ghost predicate SameTable(s: State, t: State) {
    && t.board == s.board && t.pieces == s.pieces && t.ownership == s.ownership && t.capitals == s.capitals
    && ((t.moved == s.moved && t.rounds == s.rounds) || t.moved == [])
  }

  lemma FinishKeepsTable(s: State, c: Command)
    requires Inv(s) && Validate(s, c).None? && c.action.FinishTurn?
    ensures Execute(s, c).Done? && SameTable(s, Execute(s, c).state) && Execute(s, c).state.moved == []
  {
    hide Inv, Guard, EndTurn, RoundEnd, Recovered, SettledStocks, ActiveIds, RosterIds;
    GuardPassed(s, c.player);
    FinishKeepsInv(s, c.player.value);
    var (rounds, newRound) := EndTurn(s.rounds, s.roster, COMMAND_PHASE).value;
    if newRound {
      TurnedKeepsInv(s, rounds, newRound);
      RoundEndSettles(s.(moved := [], attackedFrom := [], rounds := rounds));
    }
  }

  lemma MoveKeepsSupply(s: State, p: PlayerId, id: PieceId, target: Coord)
    requires id in s.pieces.at && IsUnit(s.pieces.at[id].kind)
    ensures GateTiles(SetPiece(s.pieces, id, s.pieces.at[id].(tile := target)), p) == GateTiles(s.pieces, p)
  {
    var after := SetPiece(s.pieces, id, s.pieces.at[id].(tile := target));
    forall t ensures t in GateTiles(after, p) <==> t in GateTiles(s.pieces, p) {
      if t in GateTiles(s.pieces, p) {
        var g :| g in s.pieces.at && s.pieces.at[g].kind == Gate && s.pieces.at[g].owner == p && s.pieces.at[g].tile == t;
        assert g in after.at && after.at[g] == s.pieces.at[g];
      }
    }
  }

  lemma StandsOnOwnTile(s: State, id: PieceId)
    requires Inv(s) && id in s.pieces.at
    ensures Owns(s, s.pieces.at[id].owner, s.pieces.at[id].tile)
  {
    hide BoardOk, RosterOk, LandOk, CapitalsOk, StocksOk, LoyaltyOk, TrackersOk, LimitsOk, ValidPieces, SameSite;
  }

  /** A unit that has moved may not move again in the same turn.  In a later turn of its owner, if nobody did anything
      in between, the way back is open exactly when the tile it came from was in supply, and taking it puts all pieces
      back as they were. */
  lemma MoveBackLater(s: State, p: PlayerId, id: PieceId, target: Coord, other: Coord, cs: seq<Command>)
    requires Inv(s) && ValidateMove(s, p, id, target).None? && forall c <- cs :: c.action.FinishTurn?
    ensures ExecuteMove(s, p, id, target).Done?
    ensures var away, home := ExecuteMove(s, p, id, target).state, s.pieces.at[id].tile;
            && ValidateMove(away, p, id, other) == Some(AlreadyMoved)
            && Play(away, cs).Some?
            && var later := Play(away, cs).value;
               later.rounds != s.rounds ==>
                 && (ValidateMove(later, p, id, home).None? <==> home in Supplied(LandOf(s), p))
                 && ExecuteMove(later, p, id, home).Done? && ExecuteMove(later, p, id, home).state.pieces == s.pieces
  {
    hide Inv, Supplied, GateTiles;
    MoveKeepsInv(s, p, id, target);
    var away, home := ExecuteMove(s, p, id, target).state, s.pieces.at[id].tile;
    FinishingKeepsTable(away, cs);
    var later := Play(away, cs).value;
    MoveKeepsSupply(s, p, id, target);
    SupplyReads(LandOf(s), LandOf(later), p);
    StandsOnOwnTile(s, id);
    assert away.pieces.at[id := s.pieces.at[id]] == s.pieces.at;
  }

  // ---- Recruiting ----------------------------------------------------------------------------

  /** The price list.  A Noble costs the least gold that covers 8 · 1.7^(n-1) with n Nobles already there. */
  predicate IsPriceOf(kind: Kind, owned: nat, price: Stock) {
    match kind
    case Spearman => price == Stock(0, 1, 0, 10)
    case Cannoneer => price == Stock(0, 0, 2, 20)
    case Noble =>
      var e := if owned == 0 then 0 else owned - 1;
      && price.wood == 0 && price.food == 1 && price.iron == 1
      && 8 * Power(17, e) <= price.gold * Power(10, e) && (price.gold - 1) * Power(10, e) < 8 * Power(17, e)
    case Farm => price == Stock(2, 0, 0, 0)
    case City => price == Stock(3, 0, 2, 0)
    case Castle => price == Stock(4, 0, 3, 0)
    case Gate => price == Stock(2, 0, 1, 0)
    case CapitalBase => false
  }

  lemma PricesAreListed(kind: Kind, owned: nat)
    requires kind != CapitalBase
    ensures IsPriceOf(kind, owned, if IsUnit(kind) then RecruitCost(kind, owned) else Cost(kind))
  {
    hide Power;
    if kind == Noble {
      var e := if owned == 0 then 0 else owned - 1;
      PowerGrows(e);
      assert 0 * Power(10, e) == 0;
      assert NobleGold(owned) != 0;
    }
  }

  lemma NewArmy(ps: Pieces, id: PieceId, piece: Piece, q: PlayerId, k: Kind)
    requires id !in ps.at
    ensures id !in Army(ps, q, k)
    ensures Army(SetPiece(ps, id, piece), q, k) == Army(ps, q, k) + if piece.owner == q && piece.kind == k then {id} else {}
  {
  }

  lemma ArmyAfterPlacing(ps: Pieces, id: PieceId, piece: Piece, q: PlayerId, k: Kind)
    requires id !in ps.at
    ensures |Army(SetPiece(ps, id, piece), q, k) - {}| ==
            |Army(ps, q, k) - {}| + if piece.owner == q && piece.kind == k then 1 else 0
  {
    hide Army, SetPiece;
    NewArmy(ps, id, piece, q, k);
    WithoutNothing(Army(ps, q, k));
    WithoutNothing(Army(SetPiece(ps, id, piece), q, k));
  }

  lemma WithoutNothing(a: set<PieceId>)
    ensures a - {} == a
  {
  }

  /** One more piece costs its owner its keep, and nobody else anything. */
  lemma PlacingFeeds(s: State, after: State, id: PieceId, piece: Piece, q: PlayerId)
    requires ValidPieces(s.pieces) && id !in s.pieces.at && after.pieces == SetPiece(s.pieces, id, piece)
    requires s.mortgaged == after.mortgaged == []
    ensures FoodCost(LandOf(after), q) == FoodCost(LandOf(s), q) + if q == piece.owner then Keep(piece.kind) else 0
  {
    hide FoodCost, SetPiece, ValidPieces, Elements, FedWithout;
    SetPieceKeepsValid(s.pieces, id, piece);
    UpkeepByKinds(LandOf(s), q);
    UpkeepByKinds(LandOf(after), q);
    NoElements(s.mortgaged);
    MealsGrow(s.pieces, id, piece, q);
  }

  lemma MealsGrow(ps: Pieces, id: PieceId, piece: Piece, q: PlayerId)
    requires id !in ps.at
    ensures FedWithout(SetPiece(ps, id, piece), q, {}) == FedWithout(ps, q, {}) + if q == piece.owner then Keep(piece.kind) else 0
  {
    hide SetPiece, Army, Meals, Keep;
    var k := if q == piece.owner then Some(piece.kind) else None;
    ArmyAfterPlacing(ps, id, piece, q, Spearman);
    ArmyAfterPlacing(ps, id, piece, q, Cannoneer);
    ArmyAfterPlacing(ps, id, piece, q, Noble);
    ArmyAfterPlacing(ps, id, piece, q, City);
    OneMoreMeal(|Army(ps, q, Spearman) - {}|, |Army(ps, q, Cannoneer) - {}|, |Army(ps, q, Noble) - {}|, |Army(ps, q, City) - {}|, k);
  }

  lemma OneMoreMeal(spearmen: nat, cannoneers: nat, nobles: nat, cities: nat, k: Option<Kind>)
    ensures Meals(spearmen + (if k == Some(Spearman) then 1 else 0), cannoneers + (if k == Some(Cannoneer) then 1 else 0),
                  nobles + (if k == Some(Noble) then 1 else 0), cities + (if k == Some(City) then 1 else 0)) ==
            Meals(spearmen, cannoneers, nobles, cities) + if k.Some? then Keep(k.value) else 0
  {
  }

  /** The food a piece eats each round. */
  function Keep(kind: Kind): nat {
    match kind
    case Spearman => 1
    case Cannoneer => 2
    case Noble => 1
    case City => 2
    case _ => 0
  }

  /** What placing a new piece at its price amounts to: one more of the kind on that tile under an unused id, the price
      paid, the keep due from now on, and nothing else changed for anybody. */
  ghost predicate PlacedAtPrice(s: State, after: State, p: PlayerId, tile: Coord, kind: Kind) {
    var id := Generated(s.nextPieceId + 1);
    && id !in s.pieces.at && after.pieces.at == s.pieces.at[id := Piece(kind, p, tile)] && p in s.stocks && p in after.stocks
    && IsPriceOf(kind, |Army(s.pieces, p, kind)|, Minus(s.stocks[p], after.stocks[p])) && NonNegative(after.stocks[p])
    && after.stocks == s.stocks[p := after.stocks[p]]
    && after == s.(pieces := after.pieces, stocks := after.stocks, nextPieceId := s.nextPieceId + 1)
    && (forall q, k :: CountOfKind(after.pieces, q, k) == CountOfKind(s.pieces, q, k) + if q == p && k == kind then 1 else 0)
    && forall q :: FoodCost(LandOf(after), q) == FoodCost(LandOf(s), q) + if q == p then Keep(kind) else 0
  }

  lemma PlacingAtPrice(s: State, p: PlayerId, tile: Coord, kind: Kind, price: Stock)
    requires Inv(s) && CanPay(s, p, price) && IsPriceOf(kind, CountOfKind(s.pieces, p, kind), price)
    ensures PlacedAtPrice(s, PlaceNew(Pay(s, p, price), Piece(kind, p, tile)), p, tile, kind)
  {
    hide Inv, CountOfKind, IsPriceOf, FoodCost, Army, ValidPieces;
    PiecesKnown(s);
    NothingMortgaged(s);
    CountIsArmy(s.pieces, p, kind);
    var id, piece, after := Generated(s.nextPieceId + 1), Piece(kind, p, tile), PlaceNew(Pay(s, p, price), Piece(kind, p, tile));
    assert Minus(s.stocks[p], after.stocks[p]) == price;
    forall q, k ensures CountOfKind(after.pieces, q, k) == CountOfKind(s.pieces, q, k) + if q == p && k == kind then 1 else 0 {
      CountAfterPlacing(s.pieces, id, piece, q, k);
    }
    forall q ensures FoodCost(LandOf(after), q) == FoodCost(LandOf(s), q) + if q == p then Keep(kind) else 0 {
      PlacingFeeds(s, after, id, piece, q);
    }
  }

  lemma NothingMortgaged(s: State)
    requires Inv(s)
    ensures s.mortgaged == []
  {
    hide BoardOk, RosterOk, LandOk, PiecesOk, CapitalsOk, StocksOk, LoyaltyOk, LimitsOk, NoDup;
  }

  /** A recruit is one more unit of that kind on that tile for the listed price, and is reported as such. */
  lemma RecruitAddsOne(s: State, p: PlayerId, tile: Coord, kind: Kind)
    requires Inv(s) && p in s.stocks && ValidateRecruit(s, p, tile, kind).None?
    ensures ExecuteRecruit(s, p, tile, kind).Done?
    ensures PlacedAtPrice(s, ExecuteRecruit(s, p, tile, kind).state, p, tile, kind)
    ensures ExecuteRecruit(s, p, tile, kind).events == [UnitRecruited(p, Generated(s.nextPieceId + 1), kind, tile)]
  {
    hide Inv, CountOfKind, RecruitCost, Supplied, StructureOnTile, PlacedAtPrice, IsPriceOf;
    RecruitKeepsInv(s, p, tile, kind);
    PricesAreListed(kind, CountOfKind(s.pieces, p, kind));
    PlacingAtPrice(s, p, tile, kind, RecruitCost(kind, CountOfKind(s.pieces, p, kind)));
  }

  /** Building likewise. */
  lemma BuildAddsOne(s: State, p: PlayerId, tile: Coord, kind: Kind)
    requires Inv(s) && p in s.stocks && ValidateBuild(s, p, tile, kind).None?
    ensures ExecuteBuild(s, p, tile, kind).Done?
    ensures PlacedAtPrice(s, ExecuteBuild(s, p, tile, kind).state, p, tile, kind)
    ensures ExecuteBuild(s, p, tile, kind).events == [StructureBuilt(p, Generated(s.nextPieceId + 1), kind, tile)]
  {
    hide Inv, CountOfKind, Cost, Supplied, StructureOnTile, PlacedAtPrice, IsPriceOf;
    BuildKeepsInv(s, p, tile, kind);
    PricesAreListed(kind, CountOfKind(s.pieces, p, kind));
    PlacingAtPrice(s, p, tile, kind, Cost(kind));
  }

  /** A move takes one unit to the target and notes that it has moved; nothing else changes. */
  lemma MoveMovesOne(s: State, p: PlayerId, id: PieceId, target: Coord)
    requires Inv(s) && ValidateMove(s, p, id, target).None?
    ensures ExecuteMove(s, p, id, target).Done? && id in s.pieces.at
    ensures var o, piece := ExecuteMove(s, p, id, target), s.pieces.at[id];
            && o.state.pieces.at == s.pieces.at[id := Piece(piece.kind, p, target)] && o.state.pieces.order == s.pieces.order
            && o.state == s.(pieces := o.state.pieces, moved := s.moved + [id])
            && o.events == [UnitMoved(p, id, piece.tile, target)] && piece.tile != target
  {
    hide Inv, Supplied;
    MoveKeepsInv(s, p, id, target);
  }

  /** r is half of c, rounded down. */
  predicate IsHalf(r: Stock, c: Stock) {
    && 2 * r.wood <= c.wood < 2 * r.wood + 2 && 2 * r.food <= c.food < 2 * r.food + 2
    && 2 * r.iron <= c.iron < 2 * r.iron + 2 && 2 * r.gold <= c.gold < 2 * r.gold + 2
  }

  /** Demolishing takes the structure off the tile, pays back half of its price, each part rounded down, and saves its
      keep. */
  lemma DemolishRemovesOne(s: State, p: PlayerId, tile: Coord, q: PlayerId) returns (id: PieceId, price: Stock)
    requires Inv(s) && p in s.stocks && ValidateDemolish(s, p, tile).None?
    ensures ExecuteDemolish(s, p, tile).Done? && id in s.pieces.at
    ensures var o, piece := ExecuteDemolish(s, p, tile), s.pieces.at[id];
            && piece.tile == tile && !IsUnit(piece.kind) && IsPriceOf(piece.kind, 0, price)
            && o.state.pieces.at == s.pieces.at - {id} && p in o.state.stocks
            && o.state.stocks == s.stocks[p := o.state.stocks[p]]
            && o.state == s.(pieces := o.state.pieces, stocks := o.state.stocks)
            && IsHalf(Minus(o.state.stocks[p], s.stocks[p]), price)
            && o.events == [StructureDemolished(p, piece.kind, tile, Minus(o.state.stocks[p], s.stocks[p]))]
            && FoodCost(LandOf(s), q) == FoodCost(LandOf(o.state), q) + if q == p then Keep(piece.kind) else 0
  {
    hide Inv, StructureOnTile, OrderWithout, FoodCost, ValidPieces, Cost, FedAmong, Keep, IsPriceOf, IsHalf;
    DemolishKeepsInv(s, p, tile);
    PiecesKnown(s);
    NothingMortgaged(s);
    id := StructureOnTile(s.pieces, tile, Structures).value;
    var kind := s.pieces.at[id].kind;
    PricesAreListed(kind, 0);
    price := Cost(kind);
    RefundIsHalf(kind);
    assert Minus(ExecuteDemolish(s, p, tile).state.stocks[p], s.stocks[p]) == Refund(kind);
    LossesSaveUpkeep(LandOf(s), {id}, q);
    OneEats(s.pieces, id, q);
  }

  lemma OneEats(ps: Pieces, id: PieceId, q: PlayerId)
    requires id in ps.at
    ensures FedAmong(ps, q, {id}) == if ps.at[id].owner == q then Keep(ps.at[id].kind) else 0
  {
    hide Army, Meals, Keep;
    var k := if ps.at[id].owner == q then Some(ps.at[id].kind) else None;
    OneLost(ps, id, q, Spearman);
    OneLost(ps, id, q, Cannoneer);
    OneLost(ps, id, q, Noble);
    OneLost(ps, id, q, City);
    OneMoreMeal(0, 0, 0, 0, k);
    NoMeals();
  }

  lemma NoMeals()
    ensures Meals(0, 0, 0, 0) == 0
  {
  }

  lemma RefundIsHalf(kind: Kind)
    ensures IsHalf(Refund(kind), Cost(kind))
  {
  }

  lemma OneLost(ps: Pieces, id: PieceId, q: PlayerId, k: Kind)
    requires id in ps.at
    ensures |Army(ps, q, k) * {id}| == if ps.at[id].owner == q && ps.at[id].kind == k then 1 else 0
  {
    assert Army(ps, q, k) * {id} == if ps.at[id].owner == q && ps.at[id].kind == k then {id} else {};
  }

  /** Developing costs eight gold and marks the tile; what it unlocks is what DevelopmentPays adds. */
  lemma DevelopMarksTile(s: State, p: PlayerId, tile: Coord)
    requires Inv(s) && p in s.stocks && ValidateDevelop(s, p, tile).None?
    ensures ExecuteDevelop(s, p, tile).Done? && tile in s.board.tiles
    ensures var o, ground := ExecuteDevelop(s, p, tile), s.board.tiles[tile];
            var unlocked := match ground.terrain case Plains => Food case Forest => Wood case Hills => Iron case Mountain => Iron;
            && o.state == s.(stocks := s.stocks[p := s.stocks[p].(gold := s.stocks[p].gold - 8)], developed := s.developed + [tile])
            && o.events == [TileDeveloped(p, tile, 8, if ground.resource.Some? then ground.resource.value else unlocked)]
  {
    hide Inv, Supplied;
    DevelopKeepsInv(s, p, tile);
  }

  /** Every further Noble costs at least five gold more than the one before. */
  lemma NoblesGetDearer(count: nat)
    requires count >= 1
    ensures NobleGold(count + 1) >= NobleGold(count) + 5
  {
    hide Power;
    var e := count - 1;
    var a, b := NobleGold(count), NobleGold(count + 1);
    PowerGrows(e);
    PowerStep(17, e);
    PowerStep(10, e);
    PriceStep(a, b, Power(17, e), Power(10, e));
  }

  lemma PowerStep(b: nat, e: nat)
    ensures Power(b, e + 1) == b * Power(b, e)
  {
  }

  lemma {:induction false} PowerGrows(e: nat)
    ensures Power(17, e) >= Power(10, e) > 0
  {
    if e > 0 {
      PowerGrows(e - 1);
    }
  }

  /** If a just covers 8n/d and b covers 8·17n/(10d), with n at least d, then b is at least 5 more than a. */
  lemma PriceStep(a: nat, b: nat, n: nat, d: nat)
    requires n >= d > 0 && (a == 0 || (a - 1) * d < 8 * n) && 8 * (17 * n) <= b * (10 * d)
    ensures b >= a + 5
  {
    assert (a + 4) * (10 * d) == 10 * ((a - 1) * d) + 50 * d;
    if b < a + 5 {
      Scaled(b, a + 4, 10 * d);
    }
  }

  lemma Scaled(a: int, b: int, d: nat)
    requires a <= b
    ensures a * d <= b * d
  {
  }

  // ---- What pays -----------------------------------------------------------------------------

  lemma {:induction false} SumDiffersAt(f: Coord -> int, g: Coord -> int, tiles: seq<Coord>, c: Coord)
    requires NoDup(tiles) && c in tiles && forall x :: x != c ==> f(x) == g(x)
    ensures Sum(g, tiles) == Sum(f, tiles) + g(c) - f(c)
  {
    var i :| 0 <= i < |tiles| && tiles[i] == c;
    var left, right := tiles[..i], tiles[i + 1..];
    assert tiles == left + [c] + right;
    SumMiddle(f, left, c, right);
    SumMiddle(g, left, c, right);
    SumCongruence(f, g, left + right);
  }

  lemma SuppliedListed(land: Land, p: PlayerId, c: Coord)
    requires land.board.Valid() && c in land.board.tiles && c in Supplied(land, p)
    ensures NoDup(Within(land.board.order, Supplied(land, p))) && c in Within(land.board.order, Supplied(land, p))
  {
    hide Supplied;
    WithinIsDistinct(land.board.order, Supplied(land, p));
  }

  function Bonus(res: Resource, n: int): Stock {
    match res
    case Wood => Stock(n, 0, 0, 0)
    case Food => Stock(0, n, 0, 0)
    case Iron => Stock(0, 0, n, 0)
  }

  /** Developing a supplied tile adds two of its resource to its owner's income, and nothing else. */
  lemma DevelopmentPays(s: State, p: PlayerId, tile: Coord)
    requires Inv(s) && p in s.stocks && ValidateDevelop(s, p, tile).None?
    ensures ExecuteDevelop(s, p, tile).Done? && tile in s.board.tiles
    ensures Income(LandOf(ExecuteDevelop(s, p, tile).state), p) ==
            Plus(Income(LandOf(s), p), Bonus(EffectiveResource(s.board.tiles[tile]), 2))
  {
    hide Inv, Sum, Supplied, IncomeOfTile, KindsAt, Within, EffectiveResource;
    DevelopKeepsInv(s, p, tile);
    OnBoard(s);
    DevelopIsSupplied(s, p, tile);
    var before, after := LandOf(s), LandOf(ExecuteDevelop(s, p, tile).state);
    SuppliedListed(before, p, tile);
    assert SameSupply(before, after, p) by { SupplyReads(before, after, p); }
    var tiles := Within(before.board.order, Supplied(before, p));
    forall res: Resource
      ensures Sum(ResourceFn(after, res), tiles) ==
              Sum(ResourceFn(before, res), tiles) + if EffectiveResource(s.board.tiles[tile]) == res then 2 else 0
    {
      ResourceAfterDevelopment(before, after, tile, res);
      SumDiffersAt(ResourceFn(before, res), ResourceFn(after, res), tiles, tile);
    }
    ResourceAfterDevelopment(before, after, tile, Resource.Wood);
    SumCongruence(GoldFn(before), GoldFn(after), tiles);
  }

  lemma ResourceAfterDevelopment(before: Land, after: Land, tile: Coord, res: Resource)
    requires after == before.(developed := before.developed + [tile]) && tile !in before.developed
    requires tile in before.board.tiles
    ensures forall c :: GoldFn(after)(c) == GoldFn(before)(c)
    ensures forall c :: c != tile ==> ResourceFn(after, res)(c) == ResourceFn(before, res)(c)
    ensures ResourceFn(after, res)(tile) == ResourceFn(before, res)(tile)
            + if EffectiveResource(before.board.tiles[tile]) == res then 2 else 0
  {
    hide IncomeOfTile, KindsOn, EffectiveResource;
  }

  ghost predicate SameSupply(before: Land, after: Land, p: PlayerId) {
    Supplied(before, p) == Supplied(after, p)
  }

  lemma SupplyReads(before: Land, after: Land, p: PlayerId)
    requires before.board == after.board && before.capitals == after.capitals && before.ownership == after.ownership
    requires GateTiles(before.pieces, p) == GateTiles(after.pieces, p)
    ensures SameSupply(before, after, p)
  {
  }

  lemma DevelopIsSupplied(s: State, p: PlayerId, tile: Coord)
    requires ValidateDevelop(s, p, tile).None?
    ensures tile in Supplied(LandOf(s), p) && tile in s.board.tiles && tile !in s.developed
  {
    hide Connected;
  }

  /** What a new structure other than a gate is worth to its owner each round. */
  function Worth(tile: Tile, kind: Kind): Stock {
    if kind == City then Stock(0, 0, 0, tile.economicValue)
    else if kind == Farm && tile.resource.Some? then Bonus(tile.resource.value, 1)
    else Stock(0, 0, 0, 0)
  }

  lemma {:induction false} KindsAfterPlacing(order: seq<PieceId>, at: map<PieceId, Piece>, mortgaged: seq<PieceId>,
                                             id: PieceId, piece: Piece, t: Coord)
    requires id !in at && id !in order && (forall x <- order :: x in at) && id !in mortgaged && !IsUnit(piece.kind)
    ensures KindsOn(order + [id], at[id := piece], mortgaged, t) ==
            KindsOn(order, at, mortgaged, t) + if piece.tile == t then [piece.kind] else []
  {
    KindsIgnore(order, at, mortgaged, id, piece, t);
    assert (order + [id])[..|order|] == order;
  }

  lemma {:induction false} KindsIgnore(order: seq<PieceId>, at: map<PieceId, Piece>, mortgaged: seq<PieceId>,
                                       id: PieceId, piece: Piece, t: Coord)
    requires id !in order
    ensures KindsOn(order, at[id := piece], mortgaged, t) == KindsOn(order, at, mortgaged, t)
  {
    if order != [] {
      KindsIgnore(order[..|order| - 1], at, mortgaged, id, piece, t);
    }
  }

  lemma {:induction false} NoKindsOn(order: seq<PieceId>, at: map<PieceId, Piece>, mortgaged: seq<PieceId>, t: Coord)
    requires forall id <- at.Keys :: at[id].tile == t ==> IsUnit(at[id].kind)
    ensures KindsOn(order, at, mortgaged, t) == []
  {
    if order != [] {
      NoKindsOn(order[..|order| - 1], at, mortgaged, t);
    }
  }

  lemma FirstStructure(tile: Tile, kind: Kind)
    requires IsBuildable(kind)
    ensures var none, one := IncomeOfTile(tile, []), IncomeOfTile(tile, [kind]);
            && one.gold == none.gold + Worth(tile, kind).gold
            && one.resource == none.resource == tile.resource
            && one.amount == none.amount + if kind == Farm && tile.resource.Some? then 1 else 0
  {
    assert [kind][..0] == [];
  }

  lemma BuildIsSupplied(s: State, p: PlayerId, tile: Coord, kind: Kind)
    requires Inv(s) && ValidateBuild(s, p, tile, kind).None?
    ensures tile in Supplied(LandOf(s), p) && tile in s.board.tiles && s.mortgaged == []
    ensures forall id <- s.pieces.at.Keys :: s.pieces.at[id].tile == tile ==> IsUnit(s.pieces.at[id].kind)
  {
    hide Connected, StructureOnTile, CountOfKind, BoardOk, RosterOk, CapitalsOk, StocksOk, LoyaltyOk, LimitsOk;
    ValidFromOk(s.pieces, s.ownership, s.nextPieceId);
    NoStructureThere(s.pieces, tile);
  }

  lemma TileWorth(before: Land, after: Land, tile: Coord, kind: Kind, c: Coord, res: Resource)
    requires before.board == after.board && before.developed == after.developed && IsBuildable(kind)
    requires tile in before.board.tiles
    requires KindsAt(before, tile) == [] && KindsAt(after, tile) == [kind]
    requires c != tile ==> KindsAt(before, c) == KindsAt(after, c)
    ensures GoldFn(after)(c) == GoldFn(before)(c) + if c == tile then Worth(before.board.tiles[tile], kind).gold else 0
    ensures ResourceFn(after, res)(c) ==
            ResourceFn(before, res)(c) + if c == tile && kind == Farm && before.board.tiles[tile].resource == Some(res) then 1 else 0
  {
    hide IncomeOfTile, KindsAt;
    FirstStructure(before.board.tiles[tile], kind);
    AmountOnlyWithResource(before.board.tiles[tile]);
  }

  lemma AmountOnlyWithResource(tile: Tile)
    ensures IncomeOfTile(tile, []).amount == if tile.resource.Some? then 2 else 0
  {
  }

  lemma KindsAfterBuild(s: State, p: PlayerId, tile: Coord, kind: Kind, c: Coord)
    requires Inv(s) && p in s.stocks && ValidateBuild(s, p, tile, kind).None? && ExecuteBuild(s, p, tile, kind).Done?
    ensures var before, after := LandOf(s), LandOf(ExecuteBuild(s, p, tile, kind).state);
            && KindsAt(before, tile) == [] && KindsAt(after, tile) == [kind]
            && (c != tile ==> KindsAt(before, c) == KindsAt(after, c))
  {
    hide Inv, StructureOnTile, CountOfKind, Supplied, Cost, Affords, KindsOn;
    BuildIsSupplied(s, p, tile, kind);
    PiecesKnown(s);
    var id, piece := Generated(s.nextPieceId + 1), Piece(kind, p, tile);
    KindsAfterPlacing(s.pieces.order, s.pieces.at, [], id, piece, tile);
    KindsAfterPlacing(s.pieces.order, s.pieces.at, [], id, piece, c);
    NoKindsOn(s.pieces.order, s.pieces.at, [], tile);
  }

  lemma GatesAfterBuild(s: State, p: PlayerId, tile: Coord, kind: Kind)
    requires ExecuteBuild(s, p, tile, kind).Done? && kind != Gate && Generated(s.nextPieceId + 1) !in s.pieces.at
    ensures GateTiles(ExecuteBuild(s, p, tile, kind).state.pieces, p) == GateTiles(s.pieces, p)
  {
    hide Cost, Affords;
    var after := ExecuteBuild(s, p, tile, kind).state.pieces;
    forall t ensures t in GateTiles(after, p) <==> t in GateTiles(s.pieces, p) {
      if t in GateTiles(s.pieces, p) {
        var id :| id in s.pieces.at && s.pieces.at[id].kind == Gate && s.pieces.at[id].owner == p && s.pieces.at[id].tile == t;
        assert id in after.at && after.at[id] == s.pieces.at[id];
      }
    }
  }

  lemma YieldsAfterBuild(s: State, p: PlayerId, tile: Coord, kind: Kind, res: Resource)
    requires Inv(s) && p in s.stocks && ValidateBuild(s, p, tile, kind).None? && ExecuteBuild(s, p, tile, kind).Done?
    requires tile in s.board.tiles
    ensures var before, after := LandOf(s), LandOf(ExecuteBuild(s, p, tile, kind).state);
            && (forall c :: c != tile ==> GoldFn(after)(c) == GoldFn(before)(c))
            && GoldFn(after)(tile) == GoldFn(before)(tile) + Worth(s.board.tiles[tile], kind).gold
            && (forall c :: c != tile ==> ResourceFn(after, res)(c) == ResourceFn(before, res)(c))
            && ResourceFn(after, res)(tile) == ResourceFn(before, res)(tile)
               + if kind == Farm && s.board.tiles[tile].resource == Some(res) then 1 else 0
  {
    hide Inv, IncomeOfTile, KindsAt, StructureOnTile, CountOfKind, Supplied, Cost, Affords, SetPiece, GoldAt, YieldAt,
         DevelopmentAt, Worth;
    var before, after := LandOf(s), LandOf(ExecuteBuild(s, p, tile, kind).state);
    forall c
      ensures GoldFn(after)(c) == GoldFn(before)(c) + if c == tile then Worth(s.board.tiles[tile], kind).gold else 0
      ensures ResourceFn(after, res)(c) == ResourceFn(before, res)(c)
              + if c == tile && kind == Farm && s.board.tiles[tile].resource == Some(res) then 1 else 0
    {
      KindsAfterBuild(s, p, tile, kind, c);
      TileWorth(before, after, tile, kind, c, res);
    }
  }

  /** A farm brings one more of the tile's resource each round, a city as much more gold as the tile is worth, a castle
      nothing. */
  lemma StructurePays(s: State, p: PlayerId, tile: Coord, kind: Kind)
    requires Inv(s) && p in s.stocks && ValidateBuild(s, p, tile, kind).None? && kind != Gate
    ensures ExecuteBuild(s, p, tile, kind).Done? && tile in s.board.tiles
    ensures Income(LandOf(ExecuteBuild(s, p, tile, kind).state), p) ==
            Plus(Income(LandOf(s), p), Worth(s.board.tiles[tile], kind))
  {
    hide Inv, Sum, Supplied, IncomeOfTile, KindsAt, Within, StructureOnTile, CountOfKind, Cost, Affords, SetPiece, GateTiles, GoldAt, YieldAt, DevelopmentAt;
    BuildKeepsInv(s, p, tile, kind);
    OnBoard(s);
    PiecesKnown(s);
    BuildIsSupplied(s, p, tile, kind);
    GatesAfterBuild(s, p, tile, kind);
    var before, after := LandOf(s), LandOf(ExecuteBuild(s, p, tile, kind).state);
    SuppliedListed(before, p, tile);
    assert SameSupply(before, after, p) by { SupplyReads(before, after, p); }
    var tiles := Within(before.board.order, Supplied(before, p));
    YieldsAfterBuild(s, p, tile, kind, Resource.Wood);
    YieldsAfterBuild(s, p, tile, kind, Resource.Food);
    YieldsAfterBuild(s, p, tile, kind, Resource.Iron);
    SumDiffersAt(GoldFn(before), GoldFn(after), tiles, tile);
    SumDiffersAt(ResourceFn(before, Resource.Wood), ResourceFn(after, Resource.Wood), tiles, tile);
    SumDiffersAt(ResourceFn(before, Resource.Food), ResourceFn(after, Resource.Food), tiles, tile);
    SumDiffersAt(ResourceFn(before, Resource.Iron), ResourceFn(after, Resource.Iron), tiles, tile);
  }

  lemma GateYieldsNothing(tile: Tile)
    ensures IncomeOfTile(tile, [Gate]) == IncomeOfTile(tile, [])
  {
    assert [Gate][..0] == [];
  }

  lemma GatesGrow(s: State, p: PlayerId, tile: Coord, kind: Kind)
    requires ExecuteBuild(s, p, tile, kind).Done? && Generated(s.nextPieceId + 1) !in s.pieces.at
    ensures GateTiles(s.pieces, p) <= GateTiles(ExecuteBuild(s, p, tile, kind).state.pieces, p)
  {
    hide Cost, Affords;
    var after := ExecuteBuild(s, p, tile, kind).state.pieces;
    forall t | t in GateTiles(s.pieces, p) ensures t in GateTiles(after, p) {
      var id :| id in s.pieces.at && s.pieces.at[id].kind == Gate && s.pieces.at[id].owner == p && s.pieces.at[id].tile == t;
      assert id in after.at && after.at[id] == s.pieces.at[id];
    }
  }

  lemma GateKeepsYields(s: State, p: PlayerId, tile: Coord)
    requires Inv(s) && p in s.stocks && ValidateBuild(s, p, tile, Gate).None? && ExecuteBuild(s, p, tile, Gate).Done?
    ensures YieldsNoLess(LandOf(s), LandOf(ExecuteBuild(s, p, tile, Gate).state))
  {
    hide Inv, ValidateBuild, GoldFn, ResourceFn, Cost, Affords, SetPiece;
    var before, after := LandOf(s), LandOf(ExecuteBuild(s, p, tile, Gate).state);
    forall c ensures GoldFn(before)(c) <= GoldFn(after)(c) {
      GateKeepsTile(s, p, tile, c, Resource.Wood);
    }
    forall c, res ensures ResourceFn(before, res)(c) <= ResourceFn(after, res)(c) {
      GateKeepsTile(s, p, tile, c, res);
    }
  }

  lemma GateKeepsTile(s: State, p: PlayerId, tile: Coord, c: Coord, res: Resource)
    requires Inv(s) && p in s.stocks && ValidateBuild(s, p, tile, Gate).None? && ExecuteBuild(s, p, tile, Gate).Done?
    ensures var before, after := LandOf(s), LandOf(ExecuteBuild(s, p, tile, Gate).state);
            GoldFn(after)(c) == GoldFn(before)(c) && ResourceFn(after, res)(c) == ResourceFn(before, res)(c)
  {
    hide Inv, ValidateBuild, IncomeOfTile, KindsAt, Cost, Affords, SetPiece;
    KindsAfterBuild(s, p, tile, Gate, c);
    if c in s.board.tiles {
      GateYieldsNothing(s.board.tiles[c]);
    }
  }

  /** A gate yields nothing itself and may connect further tiles: none of its owner's four incomes falls. */
  lemma GatePays(s: State, p: PlayerId, tile: Coord)
    requires Inv(s) && p in s.stocks && ValidateBuild(s, p, tile, Gate).None?
    ensures ExecuteBuild(s, p, tile, Gate).Done?
    ensures NoLess(Income(LandOf(s), p), Income(LandOf(ExecuteBuild(s, p, tile, Gate).state), p))
  {
    hide Inv, ValidateBuild, Income, NoLess, YieldsNoLess, Cost, Affords, SetPiece, GateTiles;
    BuildKeepsInv(s, p, tile, Gate);
    PiecesKnown(s);
    FertileBoard(s);
    GatesGrow(s, p, tile, Gate);
    GateKeepsYields(s, p, tile);
    IncomeIsMonotone(LandOf(s), LandOf(ExecuteBuild(s, p, tile, Gate).state), p);
  }

  lemma FertileBoard(s: State)
    requires Inv(s)
    ensures Fertile(s.board)
  {
    hide RosterOk, LandOk, PiecesOk, CapitalsOk, StocksOk, LoyaltyOk, TrackersOk, LimitsOk;
  }

  // ---- Previews in play ------------------------------------------------------------------------

  /** In every reachable state, for every player still in: the tile previews add up to what the round end will pay. */
  lemma PreviewsHoldInPlay(s: State, p: PlayerId)
    requires Inv(s) && p in ActiveIds(s.roster)
    ensures var land, out := LandOf(s), RosterIds(s.roster) - ActiveIds(s.roster);
            && Sum(PreviewGold(land, out, p), land.board.order) == Income(land, p).gold
            && Sum(PreviewYield(land, out, p, Resource.Wood), land.board.order)
               + Sum(DevelopmentBonus(land, p, Resource.Wood), land.board.order) == Income(land, p).wood
            && Sum(PreviewYield(land, out, p, Resource.Food), land.board.order)
               + Sum(DevelopmentBonus(land, p, Resource.Food), land.board.order) == Income(land, p).food
            && Sum(PreviewYield(land, out, p, Resource.Iron), land.board.order)
               + Sum(DevelopmentBonus(land, p, Resource.Iron), land.board.order) == Income(land, p).iron
  {
    hide BoardOk, RosterOk, LandOk, PiecesOk, CapitalsOk, StocksOk, LoyaltyOk, LimitsOk, Sum, Income;
    OnBoard(s);
    PreviewsAddUpToPayout(LandOf(s), RosterIds(s.roster) - ActiveIds(s.roster), p);
  }
}
