/** Who wins an attack and who is left, told from the piece table and the terrain alone. */
module KingdomsBattle {
  import opened Collections
  import opened Hex
  import opened Board
  import opened KingdomsMap
  import opened Rounds
  import opened KingdomsState
  import opened KingdomsRules
  import opened KingdomsInvariant
  import opened KingdomsConquest
  import Combat
  import Random

  // ---- Counting pieces --------------------------------------------------------------------

  /** How often a kind occurs in a list of pieces, repeated ids counted each time. */
  function KindsAmong(ps: Pieces, ids: seq<PieceId>, k: Kind): nat {
    if ids == [] then 0
    else
      var last := ids[|ids| - 1];
      KindsAmong(ps, ids[..|ids| - 1], k) + if last in ps.at && ps.at[last].kind == k then 1 else 0
  }

  /** The listed pieces of a kind. */
  function Listed(ps: Pieces, ids: seq<PieceId>, k: Kind): set<PieceId> {
    set id | id in ids && id in ps.at && ps.at[id].kind == k
  }

  lemma {:induction false} KindsOfDistinct(ps: Pieces, ids: seq<PieceId>, k: Kind)
    requires NoDup(ids)
    ensures KindsAmong(ps, ids, k) == |Listed(ps, ids, k)|
  {
    hide Listed;
    if ids == [] {
      NothingListed(ps, k);
    } else {
      var init, last := ids[..|ids| - 1], ids[|ids| - 1];
      assert ids == init + [last] && last !in init;
      KindsOfDistinct(ps, init, k);
      OneMoreListed(ps, init, last, k);
    }
  }

  lemma NothingListed(ps: Pieces, k: Kind)
    ensures Listed(ps, [], k) == {}
  {
  }

  lemma OneMoreListed(ps: Pieces, init: seq<PieceId>, last: PieceId, k: Kind)
    requires last !in init
    ensures |Listed(ps, init + [last], k)| == |Listed(ps, init, k)| + if last in ps.at && ps.at[last].kind == k then 1 else 0
  {
    var after := Listed(ps, init, k) + if last in ps.at && ps.at[last].kind == k then {last} else {};
    forall id ensures id in Listed(ps, init + [last], k) <==> id in after {
      assert id in init + [last] <==> id in init || id == last;
    }
    assert Listed(ps, init + [last], k) == after;
  }

  /** The units found on a tile are all that stand there, each once. */
  lemma UnitsCounted(ps: Pieces, tile: Coord, k: Kind)
    requires ValidPieces(ps) && IsUnit(k)
    ensures KindsAmong(ps, UnitsOnTile(ps, tile, None, Units), k) == |Standing(ps, tile, k)|
  {
    var ids := UnitsOnTile(ps, tile, None, Units);
    DefendersPresent(ps, tile);
    DefendersAreDistinct(ps, tile);
    KindsOfDistinct(ps, ids, k);
    assert Listed(ps, ids, k) == Standing(ps, tile, k);
  }

  // ---- Strength by kinds ------------------------------------------------------------------

  /** The square of a force's strength: three for a spearman, eight for a cannoneer, one for a noble, added up, times
      the root of their number. */
  function Might2(spearmen: nat, cannoneers: nat, nobles: nat): real {
    var attack := (3 * spearmen + 8 * cannoneers + nobles) as real;
    attack * attack * (spearmen + cannoneers + nobles) as real
  }

  lemma {:induction false} AttackAddsUp(ps: Pieces, ids: seq<PieceId>)
    requires AllPresent(ps, ids) && forall id <- ids :: IsUnit(ps.at[id].kind)
    ensures var s, c, n := KindsAmong(ps, ids, Spearman), KindsAmong(ps, ids, Cannoneer), KindsAmong(ps, ids, Noble);
            |ids| == s + c + n && Combat.TotalAttack(Force(ps, ids)) == (3 * s + 8 * c + n) as real
  {
    if ids != [] {
      var init := ids[..|ids| - 1];
      AttackAddsUp(ps, init);
      assert Force(ps, ids)[..|ids| - 1] == Force(ps, init);
    }
  }

  lemma MightOfForce(ps: Pieces, ids: seq<PieceId>)
    requires AllPresent(ps, ids) && forall id <- ids :: IsUnit(ps.at[id].kind)
    ensures Combat.Strength2(Force(ps, ids)) ==
            Might2(KindsAmong(ps, ids, Spearman), KindsAmong(ps, ids, Cannoneer), KindsAmong(ps, ids, Noble))
  {
    hide KindsAmong, Force;
    AttackAddsUp(ps, ids);
    hide Combat.TotalAttack;
  }

  /** How much better off a defender is on a tile: by the terrain, and twice as much with a capital base or a castle. */
  function Shelter(s: State, tile: Coord): real
    requires tile in s.board.tiles
  {
    var ground := match s.board.tiles[tile].terrain
      case Plains => 1.0
      case Hills => 1.3
      case Forest => 1.5
      case Mountain => 2.0;
    if Standing(s.pieces, tile, CapitalBase) + Standing(s.pieces, tile, Castle) != {} then ground * 2.0 else ground
  }

  lemma ShelterIsTheBonus(s: State, tile: Coord)
    requires Inv(s) && tile in s.board.tiles
    ensures Combat.DefenseBonus(TileDefense(s, tile), StructureDefense(s, tile)) == Shelter(s, tile)
  {
    hide Inv, StructureOnTile;
    OnlyStructure(s, tile);
    PiecesValid(s);
    var found := StructureOnTile(s.pieces, tile, Structures);
    if found.Some? {
      var x := DefenseMultiplier(s.pieces.at[found.value].kind);
      Combat.AnotherStructure<PieceId>([], TileDefense(s, tile), [], x);
      assert [] + [x] == [x];
      var k := s.pieces.at[found.value].kind;
      assert k == CapitalBase || k == Castle ==> found.value in Standing(s.pieces, tile, k);
    } else {
      StructureQueryIsExact(s.pieces, tile, Structures);
      Combat.AnotherStructure<PieceId>([], TileDefense(s, tile), [], 1.0);
    }
  }

  // ---- The forces -------------------------------------------------------------------------

  /** How many of a kind attack: as many as were selected, or all on the tile without a selection. */
  function Sent(s: State, from: Coord, unitIds: Option<seq<PieceId>>, k: Kind): nat {
    if unitIds.Some? then KindsAmong(s.pieces, unitIds.value, k) else |Standing(s.pieces, from, k)|
  }

  /** A piece takes part in an attack: it was selected, or stands there and there was no selection. */
  predicate TakesPart(s: State, from: Coord, unitIds: Option<seq<PieceId>>, id: PieceId) {
    && id in s.pieces.at && s.pieces.at[id].tile == from && IsUnit(s.pieces.at[id].kind)
    && (unitIds.Some? ==> id in unitIds.value)
  }

  lemma OwnUnitsOnly(s: State, from: Coord, p: PlayerId)
    requires Inv(s) && Owns(s, p, from)
    ensures UnitsOnTile(s.pieces, from, Some(p), Units) == UnitsOnTile(s.pieces, from, None, Units)
  {
    hide BoardOk, RosterOk, LandOk, CapitalsOk, StocksOk, LoyaltyOk, TrackersOk, LimitsOk, ValidPieces, SameSite, Select;
    SelectIgnoresOwner(s.pieces.order, s.pieces.at, from, p);
  }

  lemma {:induction false} SelectIgnoresOwner(order: seq<PieceId>, at: map<PieceId, Piece>, from: Coord, p: PlayerId)
    requires forall id <- at.Keys :: at[id].tile == from ==> at[id].owner == p
    ensures Select(order, at, from, Some(p), Units) == Select(order, at, from, None, Units)
  {
    if order != [] {
      SelectIgnoresOwner(order[1..], at, from, p);
    }
  }

  /** Exactly the selected units fight, or all own units on the tile without a selection. */
  lemma ForceIsSelection(s: State, p: PlayerId, from: Coord, to: Coord, unitIds: Option<seq<PieceId>>)
    requires Inv(s) && ValidateAttack(s, p, from, to, unitIds).None?
    ensures var ids := AttackForce(s, p, from, unitIds);
            && AllPresent(s.pieces, ids) && (forall id :: id in ids <==> TakesPart(s, from, unitIds, id))
            && forall k :: IsUnit(k) ==> KindsAmong(s.pieces, ids, k) == Sent(s, from, unitIds, k)
  {
    hide Inv, KindsAmong, Standing, IsUnit;
    AttackersAreOwnUnits(s, p, from, to, unitIds);
    PiecesValid(s);
    StartsFromOwn(s, p, from, to, unitIds);
    var ids := AttackForce(s, p, from, unitIds);
    if unitIds.None? {
      OwnUnitsOnly(s, from, p);
      forall k | IsUnit(k) ensures KindsAmong(s.pieces, ids, k) == Sent(s, from, unitIds, k) {
        UnitsCounted(s.pieces, from, k);
      }
      AllUnitsListed(s.pieces, from);
    }
  }

  lemma StartsFromOwn(s: State, p: PlayerId, from: Coord, to: Coord, unitIds: Option<seq<PieceId>>)
    requires ValidateAttack(s, p, from, to, unitIds).None?
    ensures Owns(s, p, from) && from != to && unitIds != Some([])
  {
    OwnsFrom(s, p, from, to, unitIds);
    hide Supplied, Select, IsAdjacent;
  }

  // ---- The battle --------------------------------------------------------------------------

  /** The squared strengths of the two sides. */
  function AttackMight2(s: State, from: Coord, unitIds: Option<seq<PieceId>>): real {
    Might2(Sent(s, from, unitIds, Spearman), Sent(s, from, unitIds, Cannoneer), Sent(s, from, unitIds, Noble))
  }

  function DefenceMight2(s: State, to: Coord): real
    requires to in s.board.tiles
  {
    Might2(|Standing(s.pieces, to, Spearman)|, |Standing(s.pieces, to, Cannoneer)|, |Standing(s.pieces, to, Noble)|)
    * (Shelter(s, to) * Shelter(s, to))
  }

  function UnitsSent(s: State, from: Coord, unitIds: Option<seq<PieceId>>): nat {
    Sent(s, from, unitIds, Spearman) + Sent(s, from, unitIds, Cannoneer) + Sent(s, from, unitIds, Noble)
  }

  function UnitsStanding(s: State, tile: Coord): nat {
    |Standing(s.pieces, tile, Spearman)| + |Standing(s.pieces, tile, Cannoneer)| + |Standing(s.pieces, tile, Noble)|
  }

  /** k is the largest count whose square, scaled by the stronger side, stays within the share of the force, squared and
      scaled by the weaker side. */
  ghost predicate IsToll(k: nat, share: real, weak2: real, strong2: real) {
    && (k as real) * (k as real) * strong2 <= share * share * weak2
    && share * share * weak2 < ((k + 1) as real) * ((k + 1) as real) * strong2
  }

  /** Who wins, what the strengths are and how many fall, by the pieces on the two tiles. */
  lemma BattleByKinds(s: State, p: PlayerId, from: Coord, to: Coord, unitIds: Option<seq<PieceId>>)
    requires Inv(s) && ValidateAttack(s, p, from, to, unitIds).None?
    ensures to in s.board.tiles && AllPresent(s.pieces, AttackForce(s, p, from, unitIds))
    ensures var r := Battle(s, AttackForce(s, p, from, unitIds), to);
            var a, d := AttackMight2(s, from, unitIds), DefenceMight2(s, to);
            && r.attackerStrength2 == a
            && (r.attackerWins <==> UnitsStanding(s, to) == 0 || a > d)
            && (UnitsStanding(s, to) == 0 ==> r.attackerLosses == [] == r.defenderLosses && r.defenderStrength2 == 0.0)
            && (UnitsStanding(s, to) > 0 ==> r.defenderStrength2 == d)
            && (UnitsStanding(s, to) > 0 && a > d ==>
                  IsToll(|r.attackerLosses|, UnitsSent(s, from, unitIds) as real * 0.5, d, a))
            && (UnitsStanding(s, to) > 0 && a <= d ==>
                  IsToll(|r.defenderLosses|, UnitsStanding(s, to) as real * 0.4, a, d))
  {
    hide Inv, ValidateAttack, AttackForce, UnitsOnTile, Force, KindsAmong, Standing, Shelter, TileDefense, StructureDefense,
         GameMap.Valid, IsUnit, Might2, IsToll, Sent, Combat.ResolveAttack, Combat.Strength2, Combat.DefenseBonus, TakesPart;
    OnBoard(s);
    AttackersAreOwnUnits(s, p, from, to, unitIds);
    var ids, defenders := AttackForce(s, p, from, unitIds), UnitsOnTile(s.pieces, to, None, Units);
    DefendersPresent(s.pieces, to);
    AttackersByKind(s, p, from, to, unitIds);
    DefendersByKind(s, to);
    ShelterIsTheBonus(s, to);
    ForceIds(s.pieces, ids);
    ForceIds(s.pieces, defenders);
    DefenceIsPositive(s, to);
    TollOfBattle(Force(s.pieces, ids), Force(s.pieces, defenders), TileDefense(s, to), StructureDefense(s, to), Some(s.rng));
  }

  lemma AttackersByKind(s: State, p: PlayerId, from: Coord, to: Coord, unitIds: Option<seq<PieceId>>)
    requires Inv(s) && ValidateAttack(s, p, from, to, unitIds).None?
    ensures var ids := AttackForce(s, p, from, unitIds);
            && AllPresent(s.pieces, ids) && |ids| == UnitsSent(s, from, unitIds)
            && Combat.Strength2(Force(s.pieces, ids)) == AttackMight2(s, from, unitIds)
  {
    hide Inv, ValidateAttack, AttackForce, Force, KindsAmong, Sent, IsUnit, Might2, TakesPart, Combat.Strength2;
    ForceIsSelection(s, p, from, to, unitIds);
    AttackersAreOwnUnits(s, p, from, to, unitIds);
    var ids := AttackForce(s, p, from, unitIds);
    UnitKinds();
    MightOfForce(s.pieces, ids);
    AttackAddsUp(s.pieces, ids);
  }

  lemma DefendersByKind(s: State, to: Coord)
    requires Inv(s)
    ensures var ids := UnitsOnTile(s.pieces, to, None, Units);
            && AllPresent(s.pieces, ids) && |ids| == UnitsStanding(s, to)
            && Combat.Strength2(Force(s.pieces, ids)) ==
               Might2(|Standing(s.pieces, to, Spearman)|, |Standing(s.pieces, to, Cannoneer)|, |Standing(s.pieces, to, Noble)|)
  {
    hide Inv, UnitsOnTile, Force, KindsAmong, Standing, IsUnit, Might2, Combat.Strength2;
    PiecesValid(s);
    DefendersPresent(s.pieces, to);
    var ids := UnitsOnTile(s.pieces, to, None, Units);
    UnitKinds();
    UnitsCounted(s.pieces, to, Spearman);
    UnitsCounted(s.pieces, to, Cannoneer);
    UnitsCounted(s.pieces, to, Noble);
    MightOfForce(s.pieces, ids);
    AttackAddsUp(s.pieces, ids);
  }

  lemma UnitKinds()
    ensures forall k :: IsUnit(k) <==> k == Spearman || k == Cannoneer || k == Noble
  {
  }

  /** The same for any two forces. */
  lemma TollOfBattle(attackers: seq<Combat.Combatant<PieceId>>, defenders: seq<Combat.Combatant<PieceId>>, terrain: real,
                     structures: seq<real>, rng: Option<bv32>)
    requires attackers != [] && Combat.Armed(attackers) && Combat.Armed(defenders)
    requires Combat.PositiveBonuses(terrain, structures)
    ensures var r := Combat.ResolveAttack(attackers, defenders, terrain, structures, rng);
            var bonus := Combat.DefenseBonus(terrain, structures);
            var a, d := Combat.Strength2(attackers), Combat.Strength2(defenders) * (bonus * bonus);
            && r.attackerStrength2 == a && r.defenderStrength2 == (if defenders == [] then 0.0 else d)
            && (r.attackerWins <==> defenders == [] || a > d)
            && (defenders == [] ==> r.attackerLosses == [] == r.defenderLosses)
            && (defenders != [] && a > d ==> IsToll(|r.attackerLosses|, |attackers| as real * 0.5, d, a))
            && (defenders != [] && a <= d ==> IsToll(|r.defenderLosses|, |defenders| as real * 0.4, a, d))
  {
    hide Combat.Strength2, Combat.DefenseBonus, Combat.Casualties, Combat.Pick, Combat.PositiveBonuses, Combat.Armed;
    Combat.BattleOutcome(attackers, defenders, terrain, structures, rng);
    Combat.StrengthsAreNonNegative(attackers, terrain, structures);
    Combat.StrengthsAreNonNegative(defenders, terrain, structures);
    var a, d := Combat.Strength2(attackers), Combat.DefenderStrength2(defenders, terrain, structures);
    if defenders != [] {
      if a > d {
        TollIsSharp(|attackers|, 0.5, d, a);
      } else {
        TollIsSharp(|defenders|, 0.4, a, d);
      }
    }
  }

  lemma TollIsSharp(n: nat, share: real, weak2: real, strong2: real)
    requires n > 0 && 0.0 < share < 1.0 && weak2 >= 0.0
    requires Combat.Casualties(n, n, share, weak2, strong2) < n
    ensures IsToll(Combat.Casualties(n, n, share, weak2, strong2), n as real * share, weak2, strong2)
  {
    var c := Combat.Casualties(n, n, share, weak2, strong2);
    hide Combat.Casualties;
    assert Combat.Affordable(c, n, share, weak2, strong2);
    assert !Combat.Affordable(c + 1, n, share, weak2, strong2);
  }

  // ---- What an attack leaves on the table ------------------------------------------------------

  lemma AttackLeaves(s: State, p: PlayerId, from: Coord, to: Coord, unitIds: Option<seq<PieceId>>)
    requires Inv(s) && p == TurnHolder(s) && ValidateAttack(s, p, from, to, unitIds).None?
    ensures ExecuteAttack(s, p, from, to, unitIds).Done?
    ensures var ids := AttackForce(s, p, from, unitIds);
            && AllPresent(s.pieces, ids)
            && var fought := Fought(s, from, ids, to);
               && ExecuteAttack(s, p, from, to, unitIds).state ==
                  (if NobleSurvives(s, ids, Battle(s, ids, to).attackerLosses)
                   then Occupy(fought, p, to, StructureOnTile(s.pieces, to, Structures)) else fought)
               && ExecuteAttack(s, p, from, to, unitIds).events != []
               && ExecuteAttack(s, p, from, to, unitIds).events[1..] ==
                  (if NobleSurvives(s, ids, Battle(s, ids, to).attackerLosses) then OccupationEvents(s, p, to) else [])
  {
    hide Inv, ValidateAttack, AttackForce, Battle, RngAfterBattle, Occupy, StructureOnTile, OccupationEvents, Without,
         GameMap.Valid;
    AttackKeepsInv(s, p, from, to, unitIds);
    AttackersAreOwnUnits(s, p, from, to, unitIds);
  }

  /** Of the pieces that are not the enemy's, the battle decides which are left. */
  lemma OccupationKeepsPieces(s: State, p: PlayerId, to: Coord, structure: Option<PieceId>, id: PieceId)
    requires id in s.pieces.at ==> !TakesCapital(s, to) || s.pieces.at[id].owner != s.ownership[to]
    ensures id in Occupy(s, p, to, structure).pieces.at <==> id in s.pieces.at
  {
    hide EliminateFrom, OrderWithout, LoyaltyOf, Neutralised;
  }

  lemma OccupationAddsNothing(s: State, p: PlayerId, to: Coord, structure: Option<PieceId>)
    ensures Occupy(s, p, to, structure).pieces.at.Keys <= s.pieces.at.Keys
  {
    hide EliminateFrom, OrderWithout;
  }

  /** A Noble takes part and is still there afterwards. */
  ghost predicate NobleHolds(s: State, after: State, from: Coord, unitIds: Option<seq<PieceId>>) {
    exists id :: TakesPart(s, from, unitIds, id) && s.pieces.at[id].kind == Noble && id in after.pieces.at
  }

  /** A piece that takes part is left after the attack exactly if it is not among the attacker's losses. */
  lemma SurvivorsAreLeft(s: State, p: PlayerId, from: Coord, to: Coord, unitIds: Option<seq<PieceId>>, id: PieceId)
    requires Inv(s) && p == TurnHolder(s) && ValidateAttack(s, p, from, to, unitIds).None?
    requires TakesPart(s, from, unitIds, id) && AllPresent(s.pieces, AttackForce(s, p, from, unitIds))
    ensures ExecuteAttack(s, p, from, to, unitIds).Done?
    ensures id in ExecuteAttack(s, p, from, to, unitIds).state.pieces.at <==>
            id !in Battle(s, AttackForce(s, p, from, unitIds), to).attackerLosses
  {
    hide Inv, ValidateAttack, AttackForce, Battle, RngAfterBattle, Occupy, StructureOnTile, OrderWithout, UnitsOnTile,
         ExecuteAttack;
    AttackLeaves(s, p, from, to, unitIds);
    ForceIsSelection(s, p, from, to, unitIds);
    AttackersAreOwnUnits(s, p, from, to, unitIds);
    StartsFromOwn(s, p, from, to, unitIds);
    var ids := AttackForce(s, p, from, unitIds);
    BattleKillsUnits(s, ids, to);
    DefendersPresent(s.pieces, to);
    OccupationKeepsPieces(Fought(s, from, ids, to), p, to, StructureOnTile(s.pieces, to, Structures), id);
  }

  lemma NobleHoldsIffSurvives(s: State, p: PlayerId, from: Coord, to: Coord, unitIds: Option<seq<PieceId>>)
    requires Inv(s) && p == TurnHolder(s) && ValidateAttack(s, p, from, to, unitIds).None?
    ensures ExecuteAttack(s, p, from, to, unitIds).Done? && AllPresent(s.pieces, AttackForce(s, p, from, unitIds))
    ensures NobleHolds(s, ExecuteAttack(s, p, from, to, unitIds).state, from, unitIds) <==>
            NobleSurvives(s, AttackForce(s, p, from, unitIds), Battle(s, AttackForce(s, p, from, unitIds), to).attackerLosses)
  {
    hide Inv, ValidateAttack, AttackForce, Battle, ExecuteAttack, TakesPart;
    AttackLeaves(s, p, from, to, unitIds);
    ForceIsSelection(s, p, from, to, unitIds);
    var ids := AttackForce(s, p, from, unitIds);
    forall id | TakesPart(s, from, unitIds, id)
      ensures id in ExecuteAttack(s, p, from, to, unitIds).state.pieces.at <==> id !in Battle(s, ids, to).attackerLosses
    {
      SurvivorsAreLeft(s, p, from, to, unitIds, id);
    }
  }

  /** The battle on the table: the report names the players, the tiles, the winner, the strengths and the toll, and the
      generator has moved on by one step for each casualty that was drawn. */
  lemma BattleOnTheTable(s: State, p: PlayerId, from: Coord, to: Coord, unitIds: Option<seq<PieceId>>)
    requires Inv(s) && p == TurnHolder(s) && ValidateAttack(s, p, from, to, unitIds).None?
    ensures to in s.board.tiles && ExecuteAttack(s, p, from, to, unitIds).Done?
    ensures var o := ExecuteAttack(s, p, from, to, unitIds);
            var a, d, defended := AttackMight2(s, from, unitIds), DefenceMight2(s, to), UnitsStanding(s, to) > 0;
            var wins := !defended || a > d;
            && o.events != [] && o.events[0].BattleResolved?
            && var e := o.events[0];
               && e.player == p && e.from == from && e.to == to && e.defender == OwnerOf(s, to) && e.attackerWins == wins
               && e.attackerStrength2 == a && e.defenderStrength2 == (if defended then d else 0.0)
               && (!defended ==> e.attackerCasualties == 0 == e.defenderCasualties)
               && (defended && wins ==> IsToll(e.attackerCasualties, UnitsSent(s, from, unitIds) as real * 0.5, d, a)
                                        && e.defenderCasualties == UnitsStanding(s, to))
               && (defended && !wins ==> e.attackerCasualties == UnitsSent(s, from, unitIds)
                                         && IsToll(e.defenderCasualties, UnitsStanding(s, to) as real * 0.4, a, d))
               && o.state.rng == Random.After(s.rng, if wins then e.attackerCasualties else e.defenderCasualties)
  {
    hide Inv, ValidateAttack, AttackForce, Battle, RngAfterBattle, Occupy, StructureOnTile, OccupationEvents, Without,
         GameMap.Valid, AttackMight2, DefenceMight2, UnitsStanding, UnitsSent, IsToll, NobleSurvives, Random.After;
    AttackKeepsInv(s, p, from, to, unitIds);
    BattleByKinds(s, p, from, to, unitIds);
    LosersCounted(s, p, from, to, unitIds);
    AttackersAreOwnUnits(s, p, from, to, unitIds);
    GeneratorMovesOn(s, AttackForce(s, p, from, unitIds), to);
    OccupyKeepsGenerator(Fought(s, from, AttackForce(s, p, from, unitIds), to), p, to, StructureOnTile(s.pieces, to, Structures));
  }

  lemma OccupyKeepsGenerator(s: State, p: PlayerId, to: Coord, structure: Option<PieceId>)
    ensures Occupy(s, p, to, structure).rng == s.rng
  {
    hide EliminateFrom, Without, SetPiece, Neutralised, PiecesOwnedBy, LoyaltyOf;
  }

  /** One draw for each casualty of the winning side. */
  lemma GeneratorMovesOn(s: State, ids: seq<PieceId>, to: Coord)
    requires AllPresent(s.pieces, ids) && ids != []
    ensures var r := Battle(s, ids, to);
            RngAfterBattle(s, ids, to) == Random.After(s.rng, if r.attackerWins then |r.attackerLosses| else |r.defenderLosses|)
  {
    hide UnitsOnTile, Force, Combat.Strength2, Combat.DefenderStrength2, TileDefense, StructureDefense, Combat.Losses,
         Combat.Pick, Combat.PositiveBonuses, Combat.Armed;
    var defenders := UnitsOnTile(s.pieces, to, None, Units);
    DefendersPresent(s.pieces, to);
    ForceIds(s.pieces, ids);
    ForceIds(s.pieces, defenders);
    DefenceIsPositive(s, to);
    Combat.BattleOutcome(Force(s.pieces, ids), Force(s.pieces, defenders), TileDefense(s, to), StructureDefense(s, to),
                         Some(s.rng));
  }

  lemma LosersCounted(s: State, p: PlayerId, from: Coord, to: Coord, unitIds: Option<seq<PieceId>>)
    requires Inv(s) && ValidateAttack(s, p, from, to, unitIds).None?
    ensures AllPresent(s.pieces, AttackForce(s, p, from, unitIds))
    ensures var ids := AttackForce(s, p, from, unitIds);
            var r := Battle(s, ids, to);
            && (!r.attackerWins ==> |r.attackerLosses| == UnitsSent(s, from, unitIds))
            && (r.attackerWins ==> |r.defenderLosses| == UnitsStanding(s, to))
  {
    hide Inv, ValidateAttack, AttackForce, UnitsOnTile, Force, UnitsStanding, UnitsSent, Combat.Strength2,
         Combat.DefenderStrength2, TileDefense, StructureDefense, Combat.Losses, Combat.Pick, Might2;
    AttackersByKind(s, p, from, to, unitIds);
    DefendersByKind(s, to);
    var ids, defenders := AttackForce(s, p, from, unitIds), UnitsOnTile(s.pieces, to, None, Units);
    DefendersPresent(s.pieces, to);
    ForceIds(s.pieces, ids);
    ForceIds(s.pieces, defenders);
  }

  /** Who is left: every unit that stood on the tile is gone if the attack was won, every unit sent if it was lost, and no
      other piece is, except all of an enemy whose capital has fallen. */
  lemma WhoIsLeft(s: State, p: PlayerId, from: Coord, to: Coord, unitIds: Option<seq<PieceId>>, id: PieceId)
    requires Inv(s) && p == TurnHolder(s) && ValidateAttack(s, p, from, to, unitIds).None? && id in s.pieces.at
    ensures ExecuteAttack(s, p, from, to, unitIds).Done? && to in s.board.tiles
    ensures var left := id in ExecuteAttack(s, p, from, to, unitIds).state.pieces.at;
            var piece, wins := s.pieces.at[id], UnitsStanding(s, to) == 0 || AttackMight2(s, from, unitIds) > DefenceMight2(s, to);
            && (wins && IsUnit(piece.kind) && piece.tile == to ==> !left)
            && (!wins && TakesPart(s, from, unitIds, id) ==> !left)
            && (!left ==> || (IsUnit(piece.kind) && piece.tile == to) || TakesPart(s, from, unitIds, id)
                          || piece.owner in ActiveIds(s.roster) - ActiveIds(ExecuteAttack(s, p, from, to, unitIds).state.roster))
  {
    hide Inv, ValidateAttack, AttackForce, RngAfterBattle, Occupy, StructureOnTile, OrderWithout, UnitsOnTile, ExecuteAttack,
         Battle, AttackMight2, DefenceMight2, UnitsStanding, GameMap.Valid, NobleSurvives, IsUnit, TakesPart, ActiveIds,
         IsToll, RosterIds;
    AttackLeaves(s, p, from, to, unitIds);
    ForceIsSelection(s, p, from, to, unitIds);
    AttackersAreOwnUnits(s, p, from, to, unitIds);
    BattleByKinds(s, p, from, to, unitIds);
    PiecesValid(s);
    AllUnitsListed(s.pieces, to);
    DefendersPresent(s.pieces, to);
    var ids := AttackForce(s, p, from, unitIds);
    BattleKillsUnits(s, ids, to);
    LossesAreWhole(s, ids, to);
    OccupationAddsNothing(Fought(s, from, ids, to), p, to, StructureOnTile(s.pieces, to, Structures));
    if id in Fought(s, from, ids, to).pieces.at {
      OnlyTheLosersPieces(s, Fought(s, from, ids, to), p, to, StructureOnTile(s.pieces, to, Structures), id);
    }
  }

  lemma LossesAreWhole(s: State, ids: seq<PieceId>, to: Coord)
    requires AllPresent(s.pieces, ids)
    ensures var r := Battle(s, ids, to);
            && (r.attackerWins ==> r.defenderLosses == UnitsOnTile(s.pieces, to, None, Units))
            && (!r.attackerWins ==> r.attackerLosses == ids)
  {
    hide UnitsOnTile, Force, Combat.Strength2, Combat.DefenderStrength2, TileDefense, StructureDefense, Combat.Losses,
         Combat.Pick;
    DefendersPresent(s.pieces, to);
    ForceIds(s.pieces, ids);
    ForceIds(s.pieces, UnitsOnTile(s.pieces, to, None, Units));
  }

  lemma OnlyTheLosersPieces(s: State, fought: State, p: PlayerId, to: Coord, structure: Option<PieceId>, id: PieceId)
    requires Inv(s) && p == TurnHolder(s) && id in s.pieces.at && id in fought.pieces.at && fought.pieces.at[id] == s.pieces.at[id]
    requires fought.roster == s.roster && fought.ownership == s.ownership && fought.capitals == s.capitals && !Owns(s, p, to)
    ensures id !in Occupy(fought, p, to, structure).pieces.at ==>
              s.pieces.at[id].owner in ActiveIds(s.roster) - ActiveIds(Occupy(fought, p, to, structure).roster)
  {
    hide Inv, EliminateFrom, OrderWithout, ActiveIds, RosterIds, TakeTile;
    if !TakesCapital(fought, to) || s.pieces.at[id].owner != s.ownership[to] {
      OccupationKeepsPieces(fought, p, to, structure, id);
    } else {
      OwnersAreInRoster(s, to);
      RosterFits(s);
      RosterShrinks(s.roster, p, s.ownership[to]);
    }
  }

  lemma RosterFits(s: State)
    requires Inv(s)
    ensures RosterOk(s.roster, TurnHolder(s))
  {
    hide RosterOk, BoardOk, LandOk, PiecesOk, CapitalsOk, StocksOk, LoyaltyOk, TrackersOk, LimitsOk;
  }

  // ---- What an attack takes --------------------------------------------------------------------

  /** The tile's loyalty before, the untouched hundred if none is stored. */
  function LoyaltyNow(s: State, t: Coord): int {
    if t in s.loyalty then s.loyalty[t].value else 100
  }

  /** Loyalty or owner of a tile differ. */
  predicate Shaken(s: State, after: State, t: Coord) {
    LoyaltyNow(after, t) != LoyaltyNow(s, t) || OwnerOf(after, t) != OwnerOf(s, t)
  }

  /** The tile attacked is shaken exactly when a Noble that took part is still on the table.  Then its loyalty falls by 45,
      or, where no more than that is left, it goes to the attacker with full loyalty.  Without a Noble, and on every other
      tile unless a capital has fallen, land and loyalty stay as they were. */
  lemma OccupationOnTheTable(s: State, p: PlayerId, from: Coord, to: Coord, unitIds: Option<seq<PieceId>>)
    requires Inv(s) && p == TurnHolder(s) && ValidateAttack(s, p, from, to, unitIds).None?
    ensures ExecuteAttack(s, p, from, to, unitIds).Done? && ExecuteAttack(s, p, from, to, unitIds).events != []
    ensures var o := ExecuteAttack(s, p, from, to, unitIds);
            var after, rest := o.state, o.events[1..];
            var level, falls := LoyaltyNow(s, to), Standing(s.pieces, to, CapitalBase) != {};
            && (Shaken(s, after, to) <==> NobleHolds(s, after, from, unitIds))
            && if !NobleHolds(s, after, from, unitIds) then
                 after.loyalty == s.loyalty && after.ownership == s.ownership && after.roster == s.roster && rest == []
               else if level > 45 then
                 && after.loyalty == s.loyalty[to := Loyalty(level - 45, p)] && after.ownership == s.ownership
                 && after.roster == s.roster && rest == [LoyaltyReduced(p, to, level - 45)]
               else
                 && LoyaltyNow(after, to) == 100 && OwnerOf(after, to) == Some(p) && rest != []
                 && rest[0] == TileCaptured(p, to, OwnerOf(s, to))
                 && (forall t :: t != to ==> LoyaltyNow(after, t) == LoyaltyNow(s, t))
                 && if falls then
                      && OwnerOf(s, to).Some? && rest[1..] == [Elimination(OwnerOf(s, to).value, p)]
                      && ActiveIds(after.roster) == ActiveIds(s.roster) - {OwnerOf(s, to).value}
                      && forall t :: t != to ==> OwnerOf(after, t) == if OwnerOf(s, t) == OwnerOf(s, to) then None else OwnerOf(s, t)
                    else
                      rest[1..] == [] && after.roster == s.roster && forall t :: t != to ==> OwnerOf(after, t) == OwnerOf(s, t)
  {
    hide Inv, ValidateAttack, AttackForce, Battle, RngAfterBattle, StructureOnTile, Without, GameMap.Valid,
         NobleHolds, NobleSurvives, EliminateFrom, ActiveIds, RosterIds, Standing, SetPiece, PiecesOwnedBy, Occupy, Dead,
         ExecuteAttack;
    AttackLeaves(s, p, from, to, unitIds);
    AttackersAreOwnUnits(s, p, from, to, unitIds);
    NobleHoldsIffSurvives(s, p, from, to, unitIds);
    StoredLoyalty(s, to);
    BaseMarksCapital(s, to);
    if to in s.ownership {
      OwnersAreInRoster(s, to);
      RosterFits(s);
      RosterShrinks(s.roster, p, s.ownership[to]);
    }
    OccupyOnLand(Fought(s, from, AttackForce(s, p, from, unitIds), to), p, to, StructureOnTile(s.pieces, to, Structures));
  }

  lemma OccupyOnLand(s: State, p: PlayerId, to: Coord, structure: Option<PieceId>)
    requires !Owns(s, p, to)
    ensures var after, level := Occupy(s, p, to, structure), LoyaltyOf(s, to);
            if level > 45 then
              after.loyalty == s.loyalty[to := Loyalty(level - 45, p)] && after.ownership == s.ownership && after.roster == s.roster
            else
              && after.loyalty == s.loyalty - {to} && OwnerOf(after, to) == Some(p)
              && if TakesCapital(s, to) then
                   && after.roster == EliminateFrom(s.roster, s.ownership[to])
                   && forall t :: t != to ==> OwnerOf(after, t) == if OwnerOf(s, t) == OwnerOf(s, to) then None else OwnerOf(s, t)
                 else
                   after.roster == s.roster && forall t :: t != to ==> OwnerOf(after, t) == OwnerOf(s, t)
  {
    hide EliminateFrom, Without, SetPiece, PiecesOwnedBy, LoyaltyOf;
  }

  lemma StoredLoyalty(s: State, to: Coord)
    requires Inv(s)
    ensures LoyaltyOf(s, to) == LoyaltyNow(s, to) && 0 < LoyaltyNow(s, to) <= 100
    ensures to in s.loyalty ==> LoyaltyNow(s, to) < 100
  {
    hide BoardOk, RosterOk, LandOk, PiecesOk, CapitalsOk, StocksOk, TrackersOk, LimitsOk;
  }

  /** A tile is somebody's capital exactly when a capital base stands on it. */
  lemma BaseMarksCapital(s: State, to: Coord)
    requires Inv(s)
    ensures TakesCapital(s, to) <==> Standing(s.pieces, to, CapitalBase) != {}
  {
    hide BoardOk, RosterOk, StocksOk, TrackersOk, LimitsOk, LoyaltyOk, ValidPieces, SameSite;
    if TakesCapital(s, to) {
      var q := s.ownership[to];
      assert HasCapital(s.capitals, s.ownership, s.pieces, q);
      assert CapitalId(q) in Standing(s.pieces, to, CapitalBase);
    }
    if Standing(s.pieces, to, CapitalBase) != {} {
      var id :| id in Standing(s.pieces, to, CapitalBase);
      var q := s.pieces.at[id].owner;
      assert HeldBy(s.ownership, q, to);
      assert HasCapital(s.capitals, s.ownership, s.pieces, q);
    }
  }

  /** Whatever is left stands as it was, except that a structure on a captured tile goes to the captor; of a player whose
      capital falls nothing is left.  Nothing but land, pieces, roster, loyalty and generator is touched, and the attack is
      on record. */
  lemma PiecesAfterAttack(s: State, p: PlayerId, from: Coord, to: Coord, unitIds: Option<seq<PieceId>>)
    requires Inv(s) && p == TurnHolder(s) && ValidateAttack(s, p, from, to, unitIds).None?
    ensures ExecuteAttack(s, p, from, to, unitIds).Done?
    ensures var after := ExecuteAttack(s, p, from, to, unitIds).state;
            var taken := OwnerOf(after, to) != OwnerOf(s, to);
            var falls := taken && Standing(s.pieces, to, CapitalBase) != {};
            && after.pieces.at.Keys <= s.pieces.at.Keys
            && (forall id <- after.pieces.at.Keys ::
                  after.pieces.at[id] == if taken && s.pieces.at[id].tile == to then s.pieces.at[id].(owner := p) else s.pieces.at[id])
            && (falls ==> forall id <- after.pieces.at.Keys :: Some(s.pieces.at[id].owner) != OwnerOf(s, to))
            && after == s.(pieces := after.pieces, ownership := after.ownership, roster := after.roster, loyalty := after.loyalty,
                           rng := after.rng, attackedFrom := [from])
  {
    hide Inv, ValidateAttack, AttackForce, Battle, RngAfterBattle, StructureOnTile, OrderWithout, GameMap.Valid,
         NobleSurvives, Standing, Occupy, ExecuteAttack;
    AttackLeaves(s, p, from, to, unitIds);
    AttackersAreOwnUnits(s, p, from, to, unitIds);
    BaseMarksCapital(s, to);
    var ids := AttackForce(s, p, from, unitIds);
    var found := StructureOnTile(s.pieces, to, Structures);
    if NobleSurvives(s, ids, Battle(s, ids, to).attackerLosses) {
      SurvivorLeft(s, ids, Battle(s, ids, to).attackerLosses);
      BattleClears(s, from, ids, to);
      PiecesAfterOccupation(Fought(s, from, ids, to), p, to, found);
      StructureNeedsOwner(s, to);
    }
  }

  lemma SurvivorLeft(s: State, ids: seq<PieceId>, losses: seq<PieceId>)
    requires NobleSurvives(s, ids, losses)
    ensures exists id <- ids :: id !in losses
  {
  }

  lemma StructureNeedsOwner(s: State, to: Coord)
    requires Inv(s)
    ensures forall id <- s.pieces.at.Keys :: s.pieces.at[id].tile == to ==> OwnerOf(s, to) == Some(s.pieces.at[id].owner)
  {
    hide BoardOk, RosterOk, LandOk, CapitalsOk, StocksOk, LoyaltyOk, TrackersOk, LimitsOk, ValidPieces, SameSite;
  }

  lemma PiecesAfterOccupation(s: State, p: PlayerId, to: Coord, structure: Option<PieceId>)
    requires Cleared(s.pieces, to, structure) && !Owns(s, p, to)
    ensures var after := Occupy(s, p, to, structure);
            var taken := OwnerOf(after, to) != OwnerOf(s, to);
            && after.pieces.at.Keys <= s.pieces.at.Keys
            && (forall id <- after.pieces.at.Keys ::
                  after.pieces.at[id] == if taken && to in s.ownership && !TakesCapital(s, to) && s.pieces.at[id].tile == to
                                         then s.pieces.at[id].(owner := p) else s.pieces.at[id])
            && (taken && TakesCapital(s, to) ==> forall id <- after.pieces.at.Keys :: s.pieces.at[id].owner != s.ownership[to])
            && (taken <==> LoyaltyOf(s, to) <= 45)
            && after == s.(pieces := after.pieces, ownership := after.ownership, roster := after.roster, loyalty := after.loyalty)
  {
    hide EliminateFrom, Without, SetPiece, TakeTile, TakeCapital, LoyaltyOf, Cleared;
    if LoyaltyOf(s, to) <= LOYALTY_DAMAGE {
      if TakesCapital(s, to) {
        PiecesAfterCapital(s, p, to, s.ownership[to]);
      } else {
        PiecesAfterTile(s, p, to, structure);
      }
    }
  }

  lemma PiecesAfterCapital(s: State, p: PlayerId, to: Coord, loser: PlayerId)
    requires p != loser && to in s.ownership
    ensures var after := TakeCapital(s, p, to, loser);
            && after.pieces.at.Keys <= s.pieces.at.Keys && OwnerOf(after, to) == Some(p)
            && (forall id <- after.pieces.at.Keys :: after.pieces.at[id] == s.pieces.at[id] && s.pieces.at[id].owner != loser)
            && after == s.(pieces := after.pieces, ownership := after.ownership, roster := after.roster, loyalty := after.loyalty)
  {
    hide EliminateFrom, OrderWithout;
  }

  lemma PiecesAfterTile(s: State, p: PlayerId, to: Coord, structure: Option<PieceId>)
    requires Cleared(s.pieces, to, structure)
    ensures var after := TakeTile(s, p, to, structure);
            && after.pieces.at.Keys <= s.pieces.at.Keys && OwnerOf(after, to) == Some(p)
            && (forall id <- after.pieces.at.Keys ::
                  after.pieces.at[id] == if to in s.ownership && s.pieces.at[id].tile == to
                                         then s.pieces.at[id].(owner := p) else s.pieces.at[id])
            && after == s.(pieces := after.pieces, ownership := after.ownership, loyalty := after.loyalty)
  {
  }
}
