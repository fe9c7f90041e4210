/**
 * What the validators of Kingdoms decide, told from pieces, borders, supply lines and stocks: for each action the list of
 * demands it must meet, in order, each with the error a player is told for the first one missed.
 */
module KingdomsVerdicts {
  import opened Collections
  import opened Hex
  import opened Board
  import opened KingdomsMap
  import opened Rounds
  import opened Connectivity
  import opened KingdomsState
  import opened KingdomsEconomy
  import opened KingdomsRules
  import opened KingdomsInvariant
  import opened KingdomsConquest
  import opened KingdomsBattle

  /** A line of supply runs to the tile from the player's own capital, over its tiles and through its gates. */
  ghost predicate OnSupplyLine(s: State, p: PlayerId, tile: Coord) {
    var own := set t | t in s.ownership && s.ownership[t] == p;
    var gates := set id | id in Army(s.pieces, p, Gate) :: s.pieces.at[id].tile;
    && p in s.capitals && s.capitals[p] in own
    && exists line :: LineBetween(s.board, own, gates, line, s.capitals[p], tile)
  }

  lemma SuppliedIsOnLine(s: State, p: PlayerId, tile: Coord)
    ensures tile in Supplied(LandOf(s), p) <==> OnSupplyLine(s, p, tile)
  {
    hide Connected, LineBetween;
    var own := set t | t in s.ownership && s.ownership[t] == p;
    var gates := set id | id in Army(s.pieces, p, Gate) :: s.pieces.at[id].tile;
    assert own == OwnedTiles(s.ownership, p) && gates == GateTiles(s.pieces, p);
    if p in s.capitals {
      ConnectedIffSupplyLine(s.board, s.capitals[p], own, gates, tile);
    }
  }

  ghost predicate StructureStands(ps: Pieces, tile: Coord) {
    exists id <- ps.at.Keys :: ps.at[id].tile == tile && !IsUnit(ps.at[id].kind)
  }

  // ---- Recruiting and moving ------------------------------------------------------------------

  /** Enough in stock for one more unit.  A Noble costs 8 · 1.7^(n-1) gold with n Nobles already there. */
  predicate PaysForUnit(stock: Stock, kind: Kind, owned: nat) {
    match kind
    case Spearman => stock.gold >= 10 && stock.food >= 1
    case Cannoneer => stock.gold >= 20 && stock.iron >= 2
    case Noble =>
      var e := if owned == 0 then 0 else owned - 1;
      stock.iron >= 1 && stock.food >= 1 && 8 * Power(17, e) <= stock.gold * Power(10, e)
    case _ => false
  }

  lemma NoblePrice(gold: int, count: nat)
    ensures var e := if count == 0 then 0 else count - 1;
            gold >= NobleGold(count) <==> 8 * Power(17, e) <= gold * Power(10, e)
  {
    var e, price := if count == 0 then 0 else count - 1, NobleGold(count);
    PowerPositive(10, e);
    PowerPositive(17, e);
    hide Power, NobleGold;
    var d := Power(10, e);
    if gold >= price {
      AtLeastTimes(price, gold, d);
    } else {
      AtLeastTimes(gold, price - 1, d);
      assert price == 0 ==> gold * d < 0 by {
        if price == 0 {
          AtLeastTimes(gold, -1, d);
        }
      }
    }
  }

  lemma AtLeastTimes(a: int, b: int, d: nat)
    requires a <= b
    ensures a * d <= b * d
  {
  }

  lemma PriceIsCovered(stock: Stock, kind: Kind, owned: nat)
    requires IsUnit(kind) && NonNegative(stock)
    ensures Affords(stock, RecruitCost(kind, owned)) <==> PaysForUnit(stock, kind, owned)
  {
    if kind == Noble {
      NoblePrice(stock.gold, owned);
    }
  }

  /** A unit is recruited on an own supplied tile with the capital base or a city, up to 20 spearmen, 8 cannoneers and 10
      nobles, for its price, and with food in stock. */
  lemma RecruitVerdict(s: State, p: PlayerId, tile: Coord, kind: Kind)
    requires Inv(s) && p in s.stocks
    ensures ValidateRecruit(s, p, tile, kind) ==
            Demand(kind == Spearman || kind == Cannoneer || kind == Noble, InvalidKind,
              Demand(OwnerOf(s, tile) == Some(p), NotOwned, Demand(OnSupplyLine(s, p, tile), Disconnected,
                Demand(Standing(s.pieces, tile, CapitalBase) + Standing(s.pieces, tile, City) != {}, NoStructure,
                  Demand(|Army(s.pieces, p, kind)| < (if kind == Spearman then 20 else if kind == Cannoneer then 8 else 10), UnitLimit,
                    Demand(PaysForUnit(s.stocks[p], kind, |Army(s.pieces, p, kind)|), InsufficientResources,
                      Demand(s.stocks[p].food > 0, InsufficientFoodUpkeep, None)))))))
  {
    hide Inv, Supplied, OnSupplyLine, StructureOnTile, CountOfKind, RecruitCost, PaysForUnit, Army, Standing;
    PiecesValid(s);
    SuppliedIsOnLine(s, p, tile);
    CountIsArmy(s.pieces, p, kind);
    PostStands(s, tile);
    StockIsSolvent(s, p);
    if IsUnit(kind) {
      PriceIsCovered(s.stocks[p], kind, CountOfKind(s.pieces, p, kind));
    }
  }

  lemma StockIsSolvent(s: State, p: PlayerId)
    requires Inv(s) && p in s.stocks
    ensures NonNegative(s.stocks[p])
  {
    hide BoardOk, RosterOk, LandOk, PiecesOk, CapitalsOk, LoyaltyOk, TrackersOk, LimitsOk;
  }

  lemma PostStands(s: State, tile: Coord)
    requires Inv(s)
    ensures StructureOnTile(s.pieces, tile, RecruitPosts).Some? <==>
            Standing(s.pieces, tile, CapitalBase) + Standing(s.pieces, tile, City) != {}
  {
    hide Inv, StructureOnTile;
    PiecesValid(s);
    StructureQueryIsExact(s.pieces, tile, RecruitPosts);
    if Standing(s.pieces, tile, CapitalBase) + Standing(s.pieces, tile, City) != {} {
      var id :| id in Standing(s.pieces, tile, CapitalBase) + Standing(s.pieces, tile, City);
      assert Matches(s.pieces.at[id], tile, None, RecruitPosts);
    }
    var found := StructureOnTile(s.pieces, tile, RecruitPosts);
    if found.Some? {
      assert found.value in Standing(s.pieces, tile, CapitalBase) + Standing(s.pieces, tile, City);
    }
  }

  /** An own unit that has not moved in the turn moves to any other own supplied tile. */
  lemma MoveVerdict(s: State, p: PlayerId, id: PieceId, target: Coord)
    requires Inv(s)
    ensures id !in s.pieces.at ==> ValidateMove(s, p, id, target) == Some(NotYourPiece)
    ensures id in s.pieces.at ==>
              var piece := s.pieces.at[id];
              ValidateMove(s, p, id, target) ==
              Demand(piece.owner == p, NotYourPiece,
                Demand(piece.kind == Spearman || piece.kind == Cannoneer || piece.kind == Noble, NotAUnit,
                  Demand(id !in s.moved, AlreadyMoved, Demand(piece.tile != target, SameTile,
                    Demand(OwnerOf(s, target) == Some(p), NotOwned, Demand(OnSupplyLine(s, p, target), Disconnected, None))))))
  {
    hide Inv, Supplied, OnSupplyLine;
    SuppliedIsOnLine(s, p, target);
  }

  // ---- Attacking --------------------------------------------------------------------------------

  /** Somebody who can fight is among those sent. */
  ghost predicate FighterTakesPart(s: State, from: Coord, unitIds: Option<seq<PieceId>>) {
    exists id :: TakesPart(s, from, unitIds, id) && s.pieces.at[id].kind != Noble
  }

  /** Every unit selected is an own unit on the tile. */
  ghost predicate SelectionFits(s: State, from: Coord, unitIds: Option<seq<PieceId>>) {
    unitIds.Some? ==> forall id <- unitIds.value :: TakesPart(s, from, unitIds, id)
  }

  /** An attack starts from an own supplied tile with a unit on it, goes to an adjacent tile on the board that is not own,
      and is the first in the turn; a selection names only own units on the tile, at least one; and against an enemy
      somebody other than a Noble takes part. */
  lemma AttackVerdict(s: State, p: PlayerId, from: Coord, to: Coord, unitIds: Option<seq<PieceId>>)
    requires Inv(s)
    ensures ValidateAttack(s, p, from, to, unitIds) ==
            Demand(OwnerOf(s, from) == Some(p), NotOwned, Demand(OnSupplyLine(s, p, from), Disconnected,
              Demand(OwnerOf(s, to) != Some(p), OwnTile,
                Demand(from in s.board.tiles && to in s.board.tiles && Distance(from, to) == 1, NotAdjacent,
                  Demand(UnitsStanding(s, from) > 0, NoUnits, Demand(s.attackedFrom == [], AlreadyAttacked,
                    Demand(unitIds != Some([]), NoUnitsSelected, Demand(SelectionFits(s, from, unitIds), InvalidUnit,
                      Demand(OwnerOf(s, to).Some? ==> FighterTakesPart(s, from, unitIds), NoCombatUnits, None)))))))))
  {
    hide Inv, Supplied, OnSupplyLine, UnitsOnTile, TakesPart, SelectionFits, FighterTakesPart, IsAdjacent, UnitsStanding,
         Distance, InKinds, EligibleKinds;
    SuppliedIsOnLine(s, p, from);
    AdjacentIsNext(s, from, to);
    if Owns(s, p, from) {
      UnitsThere(s, p, from);
      SelectionChecked(s, p, from, to, unitIds);
      if unitIds.Some? && unitIds.value != [] && SelectionFits(s, from, unitIds) {
        var ids, mine := unitIds.value, UnitsOnTile(s.pieces, from, Some(p), Units);
        assert !exists id <- ids :: id !in mine;
      }
    }
  }

  lemma AdjacentIsNext(s: State, from: Coord, to: Coord)
    requires Inv(s)
    ensures IsAdjacent(s.board, from, to) <==> from in s.board.tiles && to in s.board.tiles && Distance(from, to) == 1
  {
    hide Inv, Distance, IsNeighbour;
    OnBoard(s);
    NeighbourCharacterisations(from, to);
  }

  lemma UnitsThere(s: State, p: PlayerId, from: Coord)
    requires Inv(s) && Owns(s, p, from)
    ensures UnitsOnTile(s.pieces, from, Some(p), Units) == [] <==> UnitsStanding(s, from) == 0
    ensures forall id :: id in UnitsOnTile(s.pieces, from, Some(p), Units) <==> TakesPart(s, from, None, id)
  {
    hide Inv, Standing, KindsAmong;
    OwnUnitsOnly(s, from, p);
    PiecesValid(s);
    DefendersByKind(s, from);
    DefendersPresent(s.pieces, from);
    AllUnitsListed(s.pieces, from);
  }

  /** The checks on the units, for an attack from an own tile that holds some. */
  lemma SelectionChecked(s: State, p: PlayerId, from: Coord, to: Coord, unitIds: Option<seq<PieceId>>)
    requires Inv(s) && Owns(s, p, from)
    ensures var mine := UnitsOnTile(s.pieces, from, Some(p), Units);
            && (unitIds.Some? ==> ((exists id <- unitIds.value :: id !in mine) <==> !SelectionFits(s, from, unitIds)))
            && (unitIds.Some? && SelectionFits(s, from, unitIds) && unitIds.value != [] ==>
                  && (forall id <- unitIds.value :: id in s.pieces.at)
                  && ((exists id <- unitIds.value :: InKinds(s.pieces.at[id].kind, EligibleKinds(s, to))) <==>
                      (OwnerOf(s, to).Some? ==> FighterTakesPart(s, from, unitIds))))
            && (unitIds.None? ==> SelectionFits(s, from, unitIds))
            && (unitIds.None? && mine != [] ==>
                  (UnitsOnTile(s.pieces, from, Some(p), EligibleKinds(s, to)) != [] <==>
                   (OwnerOf(s, to).Some? ==> FighterTakesPart(s, from, unitIds))))
  {
    hide Inv, UnitsOnTile, UnitsStanding;
    UnitsThere(s, p, from);
    FightersThere(s, p, from);
    if unitIds.Some? && unitIds.value != [] {
      assert unitIds.value[0] in unitIds.value;
    }
  }

  lemma FightersThere(s: State, p: PlayerId, from: Coord)
    requires Inv(s) && Owns(s, p, from)
    ensures UnitsOnTile(s.pieces, from, Some(p), CombatUnits) != [] <==> FighterTakesPart(s, from, None)
  {
    hide BoardOk, RosterOk, LandOk, CapitalsOk, StocksOk, LoyaltyOk, TrackersOk, LimitsOk, NoDup, SameSite;
    var found := UnitsOnTile(s.pieces, from, Some(p), CombatUnits);
    if found != [] {
      assert found[0] in found;
      assert TakesPart(s, from, None, found[0]);
    }
    if FighterTakesPart(s, from, None) {
      var id :| TakesPart(s, from, None, id) && s.pieces.at[id].kind != Noble;
      assert id in found;
    }
  }

  // ---- Building, demolishing, developing -----------------------------------------------------------

  predicate PaysForStructure(stock: Stock, kind: Kind) {
    match kind
    case Farm => stock.wood >= 2
    case City => stock.wood >= 3 && stock.iron >= 2
    case Castle => stock.wood >= 4 && stock.iron >= 3
    case Gate => stock.wood >= 2 && stock.iron >= 1
    case _ => false
  }

  /** A farm, city, castle or gate goes on an own supplied tile without a structure, up to five farms, three cities, three
      castles and any number of gates, for its price. */
  lemma BuildVerdict(s: State, p: PlayerId, tile: Coord, kind: Kind)
    requires Inv(s) && p in s.stocks
    ensures ValidateBuild(s, p, tile, kind) ==
            Demand(kind == Farm || kind == City || kind == Castle || kind == Gate, InvalidKind,
              Demand(OwnerOf(s, tile) == Some(p), NotOwned, Demand(OnSupplyLine(s, p, tile), Disconnected,
                Demand(!StructureStands(s.pieces, tile), TileOccupied,
                  Demand(kind == Gate || |Army(s.pieces, p, kind)| < (if kind == Farm then 5 else 3), StructureLimit,
                    Demand(PaysForStructure(s.stocks[p], kind), InsufficientResources, None))))))
  {
    hide Inv, Supplied, OnSupplyLine, StructureOnTile, CountOfKind, Army, StructureStands;
    PiecesValid(s);
    SuppliedIsOnLine(s, p, tile);
    CountIsArmy(s.pieces, p, kind);
    StructureFound(s, tile);
    StockIsSolvent(s, p);
  }

  lemma StructureFound(s: State, tile: Coord)
    requires Inv(s)
    ensures StructureOnTile(s.pieces, tile, Structures).Some? <==> StructureStands(s.pieces, tile)
  {
    hide Inv, StructureOnTile;
    PiecesValid(s);
    StructureQueryIsExact(s.pieces, tile, Structures);
    if StructureStands(s.pieces, tile) {
      var id :| id in s.pieces.at.Keys && s.pieces.at[id].tile == tile && !IsUnit(s.pieces.at[id].kind);
      assert Matches(s.pieces.at[id], tile, None, Structures);
    }
  }

  /** Any structure on an own tile may be demolished but a capital base. */
  lemma DemolishVerdict(s: State, p: PlayerId, tile: Coord)
    requires Inv(s)
    ensures ValidateDemolish(s, p, tile) ==
            Demand(OwnerOf(s, tile) == Some(p), NotOwned, Demand(StructureStands(s.pieces, tile), NoStructure,
              Demand(Standing(s.pieces, tile, CapitalBase) == {}, CannotDemolish, None)))
  {
    hide Inv, StructureOnTile, StructureStands;
    StructureFound(s, tile);
    OnlyStructure(s, tile);
    StructureNeedsOwner(s, tile);
    var found := StructureOnTile(s.pieces, tile, Structures);
    if found.Some? && s.pieces.at[found.value].kind == CapitalBase {
      assert found.value in Standing(s.pieces, tile, CapitalBase);
    }
  }

  /** An own supplied tile may be developed once, for eight gold. */
  lemma DevelopVerdict(s: State, p: PlayerId, tile: Coord)
    requires Inv(s) && p in s.stocks
    ensures ValidateDevelop(s, p, tile) ==
            Demand(OwnerOf(s, tile) == Some(p), NotOwned, Demand(OnSupplyLine(s, p, tile), Disconnected,
              Demand(tile !in s.developed, AlreadyDeveloped, Demand(s.stocks[p].gold >= 8, InsufficientResources, None))))
  {
    hide BoardOk, RosterOk, PiecesOk, CapitalsOk, StocksOk, LoyaltyOk, TrackersOk, LimitsOk, Supplied, OnSupplyLine;
    SuppliedIsOnLine(s, p, tile);
  }

  /** Only the holder of the turn may act; it may always end its turn. */
  lemma TurnVerdict(s: State, c: Command)
    requires Inv(s)
    ensures Validate(s, c) == Some(NoPlayer) <==> c.player.None? || c.player.value.text == ""
    ensures Validate(s, c) == Some(NotYourTurn) <==>
              c.player.Some? && c.player.value.text != "" && c.player.value != s.rounds.turn.activePlayer
    ensures c.player == Some(s.rounds.turn.activePlayer) && c.action.FinishTurn? ==> Validate(s, c).None?
  {
    hide Inv, ValidateRecruit, ValidateMove, ValidateAttack, ValidateBuild, ValidateDemolish, ValidateDevelop, IsEliminated;
    GuardPassed(s, c.player);
    if c.player == Some(TurnHolder(s)) {
      NoTurnErrors(s, c);
    }
  }

  lemma NoTurnErrors(s: State, c: Command)
    requires Guard(s, c.player).None?
    ensures Validate(s, c) != Some(NoPlayer) && Validate(s, c) != Some(NotYourTurn)
  {
    hide Supplied, StructureOnTile, UnitsOnTile, CountOfKind, RecruitCost, IsEliminated;
  }
}
