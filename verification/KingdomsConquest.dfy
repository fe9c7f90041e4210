/** An accepted attack succeeds and keeps the invariant: battle, occupation, capture and elimination. */
module KingdomsConquest {
  import opened Collections
  import opened Hex
  import opened Board
  import opened KingdomsMap
  import opened Rounds
  import opened KingdomsState
  import opened KingdomsRules
  import opened KingdomsInvariant
  import Combat

  // ---- The battle ---------------------------------------------------------------------

  /** The attackers are the player's own units on the attacking tile, at least one of them. */
  lemma AttackersAreOwnUnits(s: State, p: PlayerId, from: Coord, to: Coord, unitIds: Option<seq<PieceId>>)
    requires ValidateAttack(s, p, from, to, unitIds).None?
    ensures var ids := AttackForce(s, p, from, unitIds);
            && ids != [] && AllPresent(s.pieces, ids)
            && forall id <- ids :: Matches(s.pieces.at[id], from, Some(p), Units)
    ensures to in s.board.tiles || !s.board.Valid()
    ensures !Owns(s, p, to) && s.attackedFrom == []
  {
    hide Supplied, Select;
  }

  lemma ForceIds(ps: Pieces, ids: seq<PieceId>)
    requires AllPresent(ps, ids)
    ensures Combat.Ids(Force(ps, ids)) == ids && Combat.Armed(Force(ps, ids))
  {
  }

  lemma DefenceIsPositive(s: State, t: Coord)
    ensures Combat.PositiveBonuses(TileDefense(s, t), StructureDefense(s, t))
  {
    hide StructureOnTile;
  }

  lemma DefendersPresent(ps: Pieces, to: Coord)
    ensures AllPresent(ps, UnitsOnTile(ps, to, None, Units))
    ensures forall id <- UnitsOnTile(ps, to, None, Units) :: Matches(ps.at[id], to, None, Units)
  {
  }

  lemma BagMembers<T(!new)>(a: seq<T>, b: seq<T>)
    requires multiset(a) <= multiset(b)
    ensures forall x <- a :: x in b
  {
    forall x | x in a ensures x in b {
      assert x in multiset(a) && multiset(a)[x] <= multiset(b)[x];
    }
  }

  /** Whatever the dice, only units that took part die; and if an attacker is left, no defender is. */
  lemma BattleKillsUnits(s: State, ids: seq<PieceId>, to: Coord)
    requires AllPresent(s.pieces, ids)
    ensures var r := Battle(s, ids, to);
            && (forall id <- r.attackerLosses :: id in ids)
            && (forall id <- r.defenderLosses :: id in UnitsOnTile(s.pieces, to, None, Units))
            && ((exists id <- ids :: id !in r.attackerLosses) ==>
                  r.attackerWins && r.defenderLosses == UnitsOnTile(s.pieces, to, None, Units))
  {
    hide Force, TileDefense, StructureDefense, UnitsOnTile, Combat.ResolveAttack;
    var defenders := UnitsOnTile(s.pieces, to, None, Units);
    DefendersPresent(s.pieces, to);
    ForceIds(s.pieces, ids);
    ForceIds(s.pieces, defenders);
    DefenceIsPositive(s, to);
    var a, d := Force(s.pieces, ids), Force(s.pieces, defenders);
    Combat.BattleOutcome(a, d, TileDefense(s, to), StructureDefense(s, to), Some(s.rng));
    var r := Battle(s, ids, to);
    if r.attackerWins {
      if d != [] {
        BagMembers(r.attackerLosses, ids);
      }
    } else {
      BagMembers(r.defenderLosses, defenders);
    }
    if survivor :| survivor in ids && survivor !in r.attackerLosses {
      Combat.SurvivorMeansDefendersDied(a, d, TileDefense(s, to), StructureDefense(s, to), Some(s.rng), survivor);
    }
  }

  /** The state after the battle keeps the invariant, and structures stay where they were. */
  lemma BattleKeepsInv(s: State, from: Coord, ids: seq<PieceId>, to: Coord)
    requires Inv(s) && AllPresent(s.pieces, ids) && s.attackedFrom == []
    requires forall id <- ids :: IsUnit(s.pieces.at[id].kind)
    ensures Inv(Fought(s, from, ids, to))
    ensures forall id <- s.pieces.at.Keys :: !IsUnit(s.pieces.at[id].kind) ==>
              id in Fought(s, from, ids, to).pieces.at
    ensures (exists id <- ids :: id !in Battle(s, ids, to).attackerLosses) ==>
              forall id <- Fought(s, from, ids, to).pieces.at.Keys ::
                IsUnit(s.pieces.at[id].kind) ==> s.pieces.at[id].tile != to
  {
    hide Battle, UnitsOnTile, BoardOk, RosterOk, LandOk, PiecesOk, CapitalsOk, StocksOk, LoyaltyOk, LimitsOk,
         RngAfterBattle, ValidPieces, OrderWithout;
    BattleKillsUnits(s, ids, to);
    ValidFromOk(s.pieces, s.ownership, s.nextPieceId);
    DeadAreUnits(s, ids, to);
    RemovalKeepsInv(s, Dead(s, ids, to));
    if exists id <- ids :: id !in Battle(s, ids, to).attackerLosses {
      AllUnitsListed(s.pieces, to);
    }
  }

  lemma AllUnitsListed(ps: Pieces, to: Coord)
    requires ValidPieces(ps)
    ensures forall id <- ps.at.Keys :: IsUnit(ps.at[id].kind) && ps.at[id].tile == to ==>
              id in UnitsOnTile(ps, to, None, Units)
  {
  }

  function Dead(s: State, ids: seq<PieceId>, to: Coord): set<PieceId>
    requires AllPresent(s.pieces, ids)
  {
    Elements(Battle(s, ids, to).attackerLosses) + Elements(Battle(s, ids, to).defenderLosses)
  }

  lemma DeadAreUnits(s: State, ids: seq<PieceId>, to: Coord)
    requires AllPresent(s.pieces, ids)
    requires forall id <- ids :: IsUnit(s.pieces.at[id].kind)
    ensures forall id <- Dead(s, ids, to) :: id in s.pieces.at && IsUnit(s.pieces.at[id].kind)
  {
    hide Battle, UnitsOnTile;
    BattleKillsUnits(s, ids, to);
    DefendersPresent(s.pieces, to);
  }

  function Fought(s: State, from: Coord, ids: seq<PieceId>, to: Coord): State
    requires AllPresent(s.pieces, ids)
  {
    AfterBattle(s, from, Dead(s, ids, to), RngAfterBattle(s, ids, to))
  }

  // ---- Occupation -----------------------------------------------------------------------

  /** Nothing but the structure found on the tile stands there. */
  ghost predicate Cleared(ps: Pieces, to: Coord, structure: Option<PieceId>) {
    && (forall id <- ps.at.Keys :: ps.at[id].tile == to ==> structure == Some(id))
    && (structure.Some? ==> structure.value in ps.at && ps.at[structure.value].tile == to
                            && !IsUnit(ps.at[structure.value].kind))
  }

  lemma LoyaltyLevels(s: State, to: Coord)
    requires LoyaltyOk(s.loyalty, s.ownership, s.board)
    ensures 0 < LoyaltyOf(s, to) <= 100 && LoyaltyOf(s, to) % 5 == 0
  {
  }

  lemma ErosionKeepsInv(s: State, p: PlayerId, to: Coord)
    requires Inv(s) && to in s.board.tiles && !Owns(s, p, to) && LoyaltyOf(s, to) > LOYALTY_DAMAGE
    ensures Inv(s.(loyalty := s.loyalty[to := Loyalty(LoyaltyOf(s, to) - LOYALTY_DAMAGE, p)]))
  {
    hide BoardOk, RosterOk, LandOk, PiecesOk, CapitalsOk, StocksOk, TrackersOk, LimitsOk, LoyaltyOf;
    LoyaltyLevels(s, to);
  }

  lemma CaptureKeepsLoyalty(loyalty: map<Coord, Loyalty>, ownership: map<Coord, PlayerId>, board: GameMap<Tile>,
                            after: map<Coord, PlayerId>, to: Coord)
    requires LoyaltyOk(loyalty, ownership, board)
    requires forall t <- after.Keys :: t == to || (t in ownership && after[t] == ownership[t])
    ensures LoyaltyOk(loyalty - {to}, after, board)
  {
  }

  // Any other tile.

  /** Handing the tile and whatever structure is left on it to the attacker. */
  function HandOver(ps: Pieces, structure: Option<PieceId>, p: PlayerId): Pieces {
    if structure.Some? && structure.value in ps.at
    then SetPiece(ps, structure.value, ps.at[structure.value].(owner := p)) else ps
  }

  lemma HandOverKeepsPieces(ps: Pieces, ownership: map<Coord, PlayerId>, issued: nat, structure: Option<PieceId>,
                            p: PlayerId, to: Coord)
    requires PiecesOk(ps, ownership, issued) && Cleared(ps, to, structure)
    ensures PiecesOk(HandOver(ps, structure, p), ownership[to := p], issued)
  {
    hide IsUnit;
    if structure.Some? {
      SetPieceKeepsValid(ps, structure.value, ps.at[structure.value].(owner := p));
    }
    hide ValidPieces;
    var after := HandOver(ps, structure, p);
    forall a <- after.at.Keys, b <- after.at.Keys | SameSite(after, a, b) ensures a == b {
      assert SameSite(ps, a, b);
    }
  }

  lemma HandOverKeepsLimits(ps: Pieces, structure: Option<PieceId>, p: PlayerId, to: Coord)
    requires LimitsOk(ps) && Cleared(ps, to, structure)
    ensures LimitsOk(HandOver(ps, structure, p))
  {
    hide IsUnit, LimitsOk, SetPiece;
    if structure.Some? {
      LimitsAfterReplacement(ps, structure.value, ps.at[structure.value].(owner := p));
    }
  }

  /** On a tile that is nobody's capital no capital base stands. */
  lemma NoBaseElsewhere(active: set<PlayerId>, capitals: map<PlayerId, Coord>, ownership: map<Coord, PlayerId>,
                        ps: Pieces, id: PieceId, board: GameMap<Tile>, issued: nat)
    requires LandOk(board, ownership, active) && PiecesOk(ps, ownership, issued)
    requires CapitalsOk(active, capitals, ownership, ps)
    requires id in ps.at
    requires var to := ps.at[id].tile;
             to in ownership ==> !(ownership[to] in capitals && capitals[ownership[to]] == to)
    ensures ps.at[id].kind != CapitalBase
  {
    hide IsUnit, ValidPieces, SameSite;
    var owner := ps.at[id].owner;
    assert HeldBy(ownership, owner, ps.at[id].tile);
    assert HasCapital(capitals, ownership, ps, owner);
  }

  lemma HandOverKeepsCapitals(active: set<PlayerId>, capitals: map<PlayerId, Coord>, ownership: map<Coord, PlayerId>,
                              ps: Pieces, structure: Option<PieceId>, p: PlayerId, to: Coord)
    requires CapitalsOk(active, capitals, ownership, ps) && Cleared(ps, to, structure)
    requires structure.Some? ==> ps.at[structure.value].kind != CapitalBase
    ensures CapitalsOk(active, capitals, ownership[to := p], HandOver(ps, structure, p))
  {
    hide IsUnit;
    var after := HandOver(ps, structure, p);
    forall q | q in active ensures HasCapital(capitals, ownership[to := p], after, q) {
      assert HasCapital(capitals, ownership, ps, q);
      assert structure != Some(CapitalId(q));
    }
  }

  lemma TakeTileShape(s: State, p: PlayerId, to: Coord, structure: Option<PieceId>)
    requires Cleared(s.pieces, to, structure) && PiecesOk(s.pieces, s.ownership, s.nextPieceId)
    ensures TakeTile(s, p, to, structure) ==
            s.(loyalty := s.loyalty - {to}, ownership := s.ownership[to := p],
               pieces := HandOver(s.pieces, structure, p))
  {
  }

  lemma TakeTileKeepsInv(s: State, p: PlayerId, to: Coord, structure: Option<PieceId>)
    requires Inv(s) && p == TurnHolder(s) && to in s.board.tiles && !TakesCapital(s, to)
    requires Cleared(s.pieces, to, structure)
    ensures Inv(TakeTile(s, p, to, structure))
  {
    hide BoardOk, RosterOk, LandOk, PiecesOk, CapitalsOk, StocksOk, LoyaltyOk, TrackersOk, LimitsOk, HandOver, TakeTile,
         IsUnit;
    TakeTileShape(s, p, to, structure);
    if structure.Some? {
      NoBaseElsewhere(ActiveIds(s.roster), s.capitals, s.ownership, s.pieces, structure.value, s.board, s.nextPieceId);
    }
    HolderIsActive(s);
    LandAfterCapture(s.board, s.ownership, ActiveIds(s.roster), p, to);
    HandOverKeepsPieces(s.pieces, s.ownership, s.nextPieceId, structure, p, to);
    HandOverKeepsCapitals(ActiveIds(s.roster), s.capitals, s.ownership, s.pieces, structure, p, to);
    CaptureKeepsLoyalty(s.loyalty, s.ownership, s.board, s.ownership[to := p], to);
    HandOverKeepsLimits(s.pieces, structure, p, to);
  }

  lemma HolderIsActive(s: State)
    requires RosterOk(s.roster, TurnHolder(s))
    ensures TurnHolder(s) in ActiveIds(s.roster)
  {
  }

  lemma LandAfterCapture(board: GameMap<Tile>, ownership: map<Coord, PlayerId>, active: set<PlayerId>,
                         p: PlayerId, to: Coord)
    requires LandOk(board, ownership, active) && p in active && to in board.tiles
    ensures LandOk(board, ownership[to := p], active)
  {
  }

  // A capital.

  lemma EliminationKeepsRoster(roster: seq<Player>, holder: PlayerId, loser: PlayerId)
    requires RosterOk(roster, holder) && holder != loser
    ensures RosterOk(EliminateFrom(roster, loser), holder)
  {
    hide Roster;
    EliminateMarksOne(roster, loser);
    EliminationShrinksActive(roster, loser);
  }

  lemma EliminationKeepsPieces(ps: Pieces, ownership: map<Coord, PlayerId>, issued: nat, p: PlayerId, to: Coord,
                               loser: PlayerId)
    requires PiecesOk(ps, ownership, issued) && HeldBy(ownership, loser, to) && p != loser
    ensures PiecesOk(Without(ps, PiecesOwnedBy(ps, loser)), Neutralised(ownership, p, to, loser), issued)
  {
    hide IsUnit, SameSite, SameSpot;
    RemovalKeepsPieces(ps, ownership, issued, PiecesOwnedBy(ps, loser));
    hide ValidPieces;
  }

  lemma EliminationKeepsCapitals(active: set<PlayerId>, capitals: map<PlayerId, Coord>, ownership: map<Coord, PlayerId>,
                                 ps: Pieces, p: PlayerId, to: Coord, loser: PlayerId)
    requires CapitalsOk(active, capitals, ownership, ps) && HeldBy(ownership, loser, to) && p != loser
    ensures CapitalsOk(active - {loser}, capitals, Neutralised(ownership, p, to, loser),
                       Without(ps, PiecesOwnedBy(ps, loser)))
  {
    forall q | q in active - {loser}
      ensures HasCapital(capitals, Neutralised(ownership, p, to, loser), Without(ps, PiecesOwnedBy(ps, loser)), q)
    {
      assert HasCapital(capitals, ownership, ps, q);
    }
  }

  lemma EliminationKeepsLand(board: GameMap<Tile>, ownership: map<Coord, PlayerId>, active: set<PlayerId>,
                             p: PlayerId, to: Coord, loser: PlayerId)
    requires LandOk(board, ownership, active) && p in active && p != loser && to in board.tiles
    ensures LandOk(board, Neutralised(ownership, p, to, loser), active - {loser})
  {
  }

  lemma TakeCapitalKeepsInv(s: State, p: PlayerId, to: Coord, loser: PlayerId)
    requires Inv(s) && p == TurnHolder(s) && p != loser && to in s.board.tiles && HeldBy(s.ownership, loser, to)
    ensures Inv(TakeCapital(s, p, to, loser))
  {
    hide BoardOk, RosterOk, LandOk, PiecesOk, CapitalsOk, StocksOk, LoyaltyOk, TrackersOk, LimitsOk, EliminateFrom, Without;
    EliminationKeepsRoster(s.roster, p, loser);
    RosterShrinks(s.roster, p, loser);
    HolderIsActive(s);
    EliminationKeepsLand(s.board, s.ownership, ActiveIds(s.roster), p, to, loser);
    EliminationKeepsPieces(s.pieces, s.ownership, s.nextPieceId, p, to, loser);
    EliminationKeepsCapitals(ActiveIds(s.roster), s.capitals, s.ownership, s.pieces, p, to, loser);
    CaptureKeepsLoyalty(s.loyalty, s.ownership, s.board, Neutralised(s.ownership, p, to, loser), to);
    LimitsAfterRemoval(s.pieces, PiecesOwnedBy(s.pieces, loser));
  }

  lemma RosterShrinks(roster: seq<Player>, holder: PlayerId, loser: PlayerId)
    requires RosterOk(roster, holder)
    ensures RosterIds(EliminateFrom(roster, loser)) == RosterIds(roster)
    ensures ActiveIds(EliminateFrom(roster, loser)) == ActiveIds(roster) - {loser}
  {
    EliminationShrinksActive(roster, loser);
  }

  lemma OccupationKeepsInv(s: State, p: PlayerId, to: Coord, structure: Option<PieceId>)
    requires Inv(s) && p == TurnHolder(s) && to in s.board.tiles && !Owns(s, p, to)
    requires Cleared(s.pieces, to, structure)
    ensures Inv(Occupy(s, p, to, structure))
  {
    hide Inv, TakeCapital, TakeTile;
    if LoyaltyOf(s, to) > LOYALTY_DAMAGE {
      ErosionKeepsInv(s, p, to);
    } else if TakesCapital(s, to) {
      TakeCapitalKeepsInv(s, p, to, s.ownership[to]);
    } else {
      TakeTileKeepsInv(s, p, to, structure);
    }
  }

  // ---- The whole attack -----------------------------------------------------------------

  /** With every unit on the tile dead, what is left there is the structure seen before the battle. */
  lemma BattleClears(s: State, from: Coord, ids: seq<PieceId>, to: Coord)
    requires Inv(s) && AllPresent(s.pieces, ids) && s.attackedFrom == []
    requires forall id <- ids :: IsUnit(s.pieces.at[id].kind)
    requires exists id <- ids :: id !in Battle(s, ids, to).attackerLosses
    ensures Cleared(Fought(s, from, ids, to).pieces, to, StructureOnTile(s.pieces, to, Structures))
  {
    hide Inv, Battle, StructureOnTile, RngAfterBattle, OrderWithout, IsUnit, Dead;
    BattleKeepsInv(s, from, ids, to);
    OnlyStructure(s, to);
  }

  lemma OnlyStructure(s: State, to: Coord)
    requires Inv(s)
    ensures forall id <- s.pieces.at.Keys :: s.pieces.at[id].tile == to && !IsUnit(s.pieces.at[id].kind) ==>
              StructureOnTile(s.pieces, to, Structures) == Some(id)
  {
    hide BoardOk, RosterOk, LandOk, CapitalsOk, StocksOk, LoyaltyOk, TrackersOk, LimitsOk, StructureOnTile, IsUnit,
         ValidPieces, HeldBy;
    StructureQueryIsExact(s.pieces, to, Structures);
    var found := StructureOnTile(s.pieces, to, Structures);
    forall id <- s.pieces.at.Keys | s.pieces.at[id].tile == to && !IsUnit(s.pieces.at[id].kind)
      ensures found == Some(id)
    {
      assert Matches(s.pieces.at[id], to, None, Structures);
      assert SameSite(s.pieces, id, found.value);
    }
  }

  lemma OwnersAreInRoster(s: State, to: Coord)
    requires Inv(s) && to in s.ownership
    ensures s.ownership[to] in RosterIds(s.roster) && s.ownership[to] in ActiveIds(s.roster)
  {
    hide BoardOk, RosterOk, PiecesOk, CapitalsOk, StocksOk, LoyaltyOk, TrackersOk, LimitsOk;
    ActiveAreInRoster(s.roster);
  }

  lemma OnBoard(s: State)
    requires Inv(s)
    ensures s.board.Valid()
  {
    hide RosterOk, LandOk, PiecesOk, CapitalsOk, StocksOk, LoyaltyOk, TrackersOk, LimitsOk;
  }

  lemma AttackKeepsInv(s: State, p: PlayerId, from: Coord, to: Coord, unitIds: Option<seq<PieceId>>)
    requires Inv(s) && p == TurnHolder(s) && ValidateAttack(s, p, from, to, unitIds).None?
    ensures ExecuteAttack(s, p, from, to, unitIds).Done? && Inv(ExecuteAttack(s, p, from, to, unitIds).state)
  {
    hide Inv, ValidateAttack, AttackForce, Battle, RngAfterBattle, Occupy, StructureOnTile, OccupationEvents, Without,
         IsUnit, GameMap.Valid;
    OnBoard(s);
    AttackersAreOwnUnits(s, p, from, to, unitIds);
    var ids := AttackForce(s, p, from, unitIds);
    BattleKeepsInv(s, from, ids, to);
    if to in s.ownership {
      OwnersAreInRoster(s, to);
    }
    if NobleSurvives(s, ids, Battle(s, ids, to).attackerLosses) {
      BattleClears(s, from, ids, to);
      OccupationKeepsInv(Fought(s, from, ids, to), p, to, StructureOnTile(s.pieces, to, Structures));
    }
  }

  // ---- What the report says ---------------------------------------------------------------

  lemma LossesOfDistinct(s: State, ids: seq<PieceId>, to: Coord)
    requires ValidPieces(s.pieces) && AllPresent(s.pieces, ids)
    ensures NoDup(Battle(s, ids, to).defenderLosses)
    ensures NoDup(ids) ==> NoDup(Battle(s, ids, to).attackerLosses)
    ensures !Battle(s, ids, to).attackerWins ==> Battle(s, ids, to).attackerLosses == ids
  {
    hide Force, TileDefense, StructureDefense, UnitsOnTile, Combat.ResolveAttack, NoDup, Combat.Strength2,
         Combat.DefenderStrength2, Combat.Losses;
    var defenders := UnitsOnTile(s.pieces, to, None, Units);
    DefendersPresent(s.pieces, to);
    DefendersAreDistinct(s.pieces, to);
    ForceIds(s.pieces, ids);
    ForceIds(s.pieces, defenders);
    DefenceIsPositive(s, to);
    Combat.BattleOutcome(Force(s.pieces, ids), Force(s.pieces, defenders), TileDefense(s, to), StructureDefense(s, to),
                         Some(s.rng));
    var r := Battle(s, ids, to);
    NothingIsDistinct<PieceId>();
    if r.attackerWins {
      if defenders != [] && NoDup(ids) {
        SubBagIsDistinct(r.attackerLosses, ids);
      }
    } else {
      SubBagIsDistinct(r.defenderLosses, defenders);
    }
  }

  lemma NothingIsDistinct<T(!new)>()
    ensures NoDup<T>([])
  {
  }

  lemma DefendersAreDistinct(ps: Pieces, to: Coord)
    requires ValidPieces(ps)
    ensures NoDup(UnitsOnTile(ps, to, None, Units))
  {
    SelectIsDistinct(ps.order, ps.at, to, None, Units);
  }

  lemma WholeForceIsDistinct(s: State, p: PlayerId, from: Coord)
    requires ValidPieces(s.pieces)
    ensures NoDup(AttackForce(s, p, from, None))
  {
    SelectIsDistinct(s.pieces.order, s.pieces.at, from, Some(p), Units);
  }

  /** The casualties a battle report counts are the pieces that were removed exactly when the attacker's losses name no
      unit twice.  They do not when the selection has no repeated id, as when there is no selection; for an attack that
      is lost, only then. */
  lemma ReportCountsTheDead(s: State, p: PlayerId, from: Coord, to: Coord, unitIds: Option<seq<PieceId>>)
    requires Inv(s) && ValidateAttack(s, p, from, to, unitIds).None?
    ensures AllPresent(s.pieces, AttackForce(s, p, from, unitIds))
    ensures var ids := AttackForce(s, p, from, unitIds);
            var r := Battle(s, ids, to);
            && (|Dead(s, ids, to)| == |r.attackerLosses| + |r.defenderLosses| <==> NoDup(r.attackerLosses))
            && (NoDup(ids) ==> NoDup(r.attackerLosses))
            && (!r.attackerWins ==> (NoDup(r.attackerLosses) <==> NoDup(ids)))
            && (unitIds.None? ==> NoDup(ids))
  {
    hide Inv, ValidateAttack, AttackForce, Battle, UnitsOnTile, NoDup, ValidPieces, GameMap.Valid;
    OnBoard(s);
    PiecesValid(s);
    AttackersAreOwnUnits(s, p, from, to, unitIds);
    OwnsFrom(s, p, from, to, unitIds);
    var ids := AttackForce(s, p, from, unitIds);
    var r := Battle(s, ids, to);
    BattleKillsUnits(s, ids, to);
    DefendersPresent(s.pieces, to);
    LossesOfDistinct(s, ids, to);
    if unitIds.None? {
      WholeForceIsDistinct(s, p, from);
    }
    ElementsCount(r.attackerLosses);
    ElementsCount(r.defenderLosses);
    assert Elements(r.attackerLosses) !! Elements(r.defenderLosses);
  }

  lemma OwnsFrom(s: State, p: PlayerId, from: Coord, to: Coord, unitIds: Option<seq<PieceId>>)
    requires ValidateAttack(s, p, from, to, unitIds).None?
    ensures from != to
  {
    hide Supplied, Select, IsAdjacent;
  }

  lemma PiecesValid(s: State)
    requires Inv(s)
    ensures ValidPieces(s.pieces)
  {
    hide BoardOk, RosterOk, LandOk, CapitalsOk, StocksOk, LoyaltyOk, TrackersOk, LimitsOk, NoDup;
  }
}
