/**
 * The seven Kingdoms actions: their validators, and their executors as functions from
 * state to state and events.  The classes in KingdomsTable carry the same executors out
 * step by step.
 */
module KingdomsRules {
  import opened Collections
  import opened Hex
  import opened Board
  import opened KingdomsMap
  import opened Rounds
  import opened KingdomsState
  import opened KingdomsEconomy
  import Combat

  datatype Action =
    | RecruitUnit(tile: Coord, kind: Kind)
    | MoveUnit(piece: PieceId, target: Coord)
    | AttackTile(from: Coord, to: Coord, unitIds: Option<seq<PieceId>>)
    | BuildStructure(tile: Coord, kind: Kind)
    | DemolishStructure(tile: Coord)
    | DevelopTile(tile: Coord)
    | FinishTurn

  datatype Command = Command(player: Option<PlayerId>, action: Action)

  datatype Error =
    | NoPlayer | NotYourTurn | PlayerEliminated | InvalidKind | NotOwned | Disconnected | NoStructure
    | UnitLimit | InsufficientResources | InsufficientFoodUpkeep | NotYourPiece | NotAUnit | AlreadyMoved
    | SameTile | OwnTile | NotAdjacent | NoUnits | AlreadyAttacked | NoUnitsSelected | InvalidUnit
    | NoCombatUnits | TileOccupied | StructureLimit | CannotDemolish | NotYours | AlreadyDeveloped | TileNotFound

  datatype Event =
    | UnitRecruited(player: PlayerId, id: PieceId, kind: Kind, tile: Coord)
    | UnitMoved(player: PlayerId, id: PieceId, from: Coord, to: Coord)
    | BattleResolved(player: PlayerId, from: Coord, to: Coord, defender: Option<PlayerId>, attackerWins: bool,
                     attackerStrength2: real, defenderStrength2: real, attackerCasualties: nat, defenderCasualties: nat)
    | TileCaptured(player: PlayerId, tile: Coord, previousOwner: Option<PlayerId>)
    | Elimination(loser: PlayerId, conqueror: PlayerId)
    | LoyaltyReduced(player: PlayerId, tile: Coord, loyalty: int)
    | StructureBuilt(player: PlayerId, id: PieceId, kind: Kind, tile: Coord)
    | StructureDemolished(player: PlayerId, kind: Kind, tile: Coord, refund: Stock)
    | TileDeveloped(player: PlayerId, tile: Coord, goldSpent: int, resource: Resource)
    | TurnEnded(player: PlayerId, next: PlayerId, newRound: bool, round: nat)
    | IncomeCollected(player: PlayerId, income: Stock)
    | FoodConsumed(player: PlayerId, eaten: int, cost: nat)
    | FoodPurchased(player: PlayerId, amount: int, goldSpent: int)
    | CityMortgaged(player: PlayerId, id: PieceId)
    | TerritoryDisconnected(player: PlayerId, tiles: set<Coord>)
    | RoundEnded(round: nat)

  /** What an executor leaves behind, or that it threw. */
  datatype Outcome = Done(state: State, events: seq<Event>) | Threw

  // ---- Validators ---------------------------------------------------------------

  /** A missing player, which an empty id also counts as, somebody else's turn, or an eliminated player. */
  function Guard(s: State, player: Option<PlayerId>): Option<Error> {
    if player.None? || player.value.text == "" then Some(NoPlayer)
    else if TurnHolder(s) != player.value then Some(NotYourTurn)
    else if IsEliminated(s.roster, player.value) then Some(PlayerEliminated)
    else None
  }

  predicate Owns(s: State, p: PlayerId, t: Coord) {
    t in s.ownership && s.ownership[t] == p
  }

  /** A player without an inventory counts as having nothing. */
  function StockOf(s: State, p: PlayerId): Stock {
    if p in s.stocks then s.stocks[p] else Stock(0, 0, 0, 0)
  }

  ghost function ValidateRecruit(s: State, p: PlayerId, tile: Coord, kind: Kind): Option<Error> {
    var count := CountOfKind(s.pieces, p, kind);
    if !IsUnit(kind) then Some(InvalidKind)
    else if !Owns(s, p, tile) then Some(NotOwned)
    else if tile !in Supplied(LandOf(s), p) then Some(Disconnected)
    else if StructureOnTile(s.pieces, tile, RecruitPosts).None? then Some(NoStructure)
    else if Limit(kind).Some? && count >= Limit(kind).value then Some(UnitLimit)
    else if !Affords(StockOf(s, p), RecruitCost(kind, count)) then Some(InsufficientResources)
    else if Upkeep(kind) > 0 && StockOf(s, p).food <= 0 then Some(InsufficientFoodUpkeep)
    else None
  }

  ghost function ValidateMove(s: State, p: PlayerId, id: PieceId, target: Coord): Option<Error> {
    if id !in s.pieces.at || s.pieces.at[id].owner != p then Some(NotYourPiece)
    else if !IsUnit(s.pieces.at[id].kind) then Some(NotAUnit)
    else if id in s.moved then Some(AlreadyMoved)
    else if s.pieces.at[id].tile == target then Some(SameTile)
    else if !Owns(s, p, target) then Some(NotOwned)
    else if target !in Supplied(LandOf(s), p) then Some(Disconnected)
    else None
  }

  predicate IsAdjacent(board: GameMap<Tile>, a: Coord, b: Coord) {
    a in board.tiles && b in NeighboursOf(board, a)
  }

  /** Against unowned land any unit will do; against an enemy at least one must be able to fight. */
  function EligibleKinds(s: State, to: Coord): KindSet {
    if to !in s.ownership then Units else CombatUnits
  }

  ghost function ValidateAttack(s: State, p: PlayerId, from: Coord, to: Coord,
                                unitIds: Option<seq<PieceId>>): Option<Error> {
    var mine := UnitsOnTile(s.pieces, from, Some(p), Units);
    if !Owns(s, p, from) then Some(NotOwned)
    else if from !in Supplied(LandOf(s), p) then Some(Disconnected)
    else if Owns(s, p, to) then Some(OwnTile)
    else if !IsAdjacent(s.board, from, to) then Some(NotAdjacent)
    else if mine == [] then Some(NoUnits)
    else if s.attackedFrom != [] then Some(AlreadyAttacked)
    else match unitIds
      case Some(ids) =>
        if ids == [] then Some(NoUnitsSelected)
        else if exists id <- ids :: id !in mine then Some(InvalidUnit)
        else if !exists id <- ids :: InKinds(s.pieces.at[id].kind, EligibleKinds(s, to)) then Some(NoCombatUnits)
        else None
      case None =>
        if UnitsOnTile(s.pieces, from, Some(p), EligibleKinds(s, to)) == [] then Some(NoCombatUnits) else None
  }

  ghost function ValidateBuild(s: State, p: PlayerId, tile: Coord, kind: Kind): Option<Error> {
    if !IsBuildable(kind) then Some(InvalidKind)
    else if !Owns(s, p, tile) then Some(NotOwned)
    else if tile !in Supplied(LandOf(s), p) then Some(Disconnected)
    else if StructureOnTile(s.pieces, tile, Structures).Some? then Some(TileOccupied)
    else if Limit(kind).Some? && CountOfKind(s.pieces, p, kind) >= Limit(kind).value then Some(StructureLimit)
    else if !Affords(StockOf(s, p), Cost(kind)) then Some(InsufficientResources)
    else None
  }

  function ValidateDemolish(s: State, p: PlayerId, tile: Coord): Option<Error> {
    var found := StructureOnTile(s.pieces, tile, Structures);
    if !Owns(s, p, tile) then Some(NotOwned)
    else if found.None? then Some(NoStructure)
    else if s.pieces.at[found.value].kind == CapitalBase then Some(CannotDemolish)
    else if s.pieces.at[found.value].owner != p then Some(NotYours)
    else None
  }

  const DEVELOP_COST := 8

  /** Every terrain unlocks something, so the barren-tile check of the source never rejects. */
  ghost function ValidateDevelop(s: State, p: PlayerId, tile: Coord): Option<Error> {
    if !Owns(s, p, tile) then Some(NotOwned)
    else if tile !in Supplied(LandOf(s), p) then Some(Disconnected)
    else if tile in s.developed then Some(AlreadyDeveloped)
    else if tile !in s.board.tiles then Some(TileNotFound)
    else if StockOf(s, p).gold < DEVELOP_COST then Some(InsufficientResources)
    else None
  }

  ghost function Validate(s: State, c: Command): Option<Error> {
    var guard := Guard(s, c.player);
    if guard.Some? then guard
    else
      var p := c.player.value;
      match c.action
      case RecruitUnit(tile, kind) => ValidateRecruit(s, p, tile, kind)
      case MoveUnit(id, target) => ValidateMove(s, p, id, target)
      case AttackTile(from, to, unitIds) => ValidateAttack(s, p, from, to, unitIds)
      case BuildStructure(tile, kind) => ValidateBuild(s, p, tile, kind)
      case DemolishStructure(tile) => ValidateDemolish(s, p, tile)
      case DevelopTile(tile) => ValidateDevelop(s, p, tile)
      case FinishTurn => None
  }

  // ---- Simple executors -----------------------------------------------------------

  function Pay(s: State, p: PlayerId, cost: Stock): State
    requires p in s.stocks
  {
    s.(stocks := s.stocks[p := Minus(s.stocks[p], cost)])
  }

  predicate CanPay(s: State, p: PlayerId, cost: Stock) {
    p in s.stocks && Affords(s.stocks[p], cost)
  }

  /** Takes the next generated id and puts the piece under it. */
  function PlaceNew(s: State, piece: Piece): State {
    var n := s.nextPieceId + 1;
    s.(nextPieceId := n, pieces := SetPiece(s.pieces, Generated(n), piece))
  }

  function ExecuteRecruit(s: State, p: PlayerId, tile: Coord, kind: Kind): Outcome {
    var cost := RecruitCost(kind, CountOfKind(s.pieces, p, kind));
    if !CanPay(s, p, cost) then Threw
    else Done(PlaceNew(Pay(s, p, cost), Piece(kind, p, tile)),
              [UnitRecruited(p, Generated(s.nextPieceId + 1), kind, tile)])
  }

  function ExecuteMove(s: State, p: PlayerId, id: PieceId, target: Coord): Outcome {
    if id !in s.pieces.at then Threw
    else
      var piece := s.pieces.at[id];
      Done(s.(pieces := SetPiece(s.pieces, id, piece.(tile := target)), moved := s.moved + [id]),
           [UnitMoved(p, id, piece.tile, target)])
  }

  function ExecuteBuild(s: State, p: PlayerId, tile: Coord, kind: Kind): Outcome {
    if !CanPay(s, p, Cost(kind)) then Threw
    else Done(PlaceNew(Pay(s, p, Cost(kind)), Piece(kind, p, tile)),
              [StructureBuilt(p, Generated(s.nextPieceId + 1), kind, tile)])
  }

  /** Half of each cost, rounded down. */
  function Refund(kind: Kind): Stock {
    var c := Cost(kind);
    Stock(c.wood / 2, c.food / 2, c.iron / 2, c.gold / 2)
  }

  function ExecuteDemolish(s: State, p: PlayerId, tile: Coord): Outcome {
    var found := StructureOnTile(s.pieces, tile, Structures);
    if found.None? || p !in s.stocks then Threw
    else
      var kind := s.pieces.at[found.value].kind;
      Done(s.(pieces := Without(s.pieces, {found.value}),
              stocks := s.stocks[p := Plus(s.stocks[p], Refund(kind))]),
           [StructureDemolished(p, kind, tile, Refund(kind))])
  }

  function ExecuteDevelop(s: State, p: PlayerId, tile: Coord): Outcome {
    var cost := Stock(0, 0, 0, DEVELOP_COST);
    if !CanPay(s, p, cost) || tile !in s.board.tiles then Threw
    else Done(Pay(s, p, cost).(developed := s.developed + [tile]),
              [TileDeveloped(p, tile, DEVELOP_COST, EffectiveResource(s.board.tiles[tile]))])
  }

  // ---- Attack -----------------------------------------------------------------------

  const LOYALTY_DAMAGE := 45
  const MAX_LOYALTY := 100

  function AttackForce(s: State, p: PlayerId, from: Coord, unitIds: Option<seq<PieceId>>): seq<PieceId> {
    if unitIds.Some? && unitIds.value != [] then unitIds.value
    else UnitsOnTile(s.pieces, from, Some(p), Units)
  }

  predicate AllPresent(ps: Pieces, ids: seq<PieceId>) {
    forall id <- ids :: id in ps.at
  }

  function Force(ps: Pieces, ids: seq<PieceId>): (f: seq<Combat.Combatant<PieceId>>)
    requires AllPresent(ps, ids)
    ensures |f| == |ids| && forall i :: 0 <= i < |f| ==> f[i].id == ids[i] && f[i].attack > 0.0
  {
    seq(|ids|, i requires 0 <= i < |ids| => Combat.Combatant(ids[i], Attack(ps.at[ids[i]].kind) as real))
  }

  function TileDefense(s: State, t: Coord): real {
    if t in s.board.tiles then TerrainDefense(s.board.tiles[t].terrain) else 1.0
  }

  function StructureDefense(s: State, t: Coord): seq<real> {
    var found := StructureOnTile(s.pieces, t, Structures);
    if found.None? then [] else [DefenseMultiplier(s.pieces.at[found.value].kind)]
  }

  function Battle(s: State, ids: seq<PieceId>, to: Coord): Combat.Result<PieceId>
    requires AllPresent(s.pieces, ids)
  {
    Combat.ResolveAttack(Force(s.pieces, ids), Force(s.pieces, UnitsOnTile(s.pieces, to, None, Units)),
                         TileDefense(s, to), StructureDefense(s, to), Some(s.rng))
  }

  function RngAfterBattle(s: State, ids: seq<PieceId>, to: Coord): bv32
    requires AllPresent(s.pieces, ids)
  {
    Combat.StateAfterAttack(Force(s.pieces, ids), Force(s.pieces, UnitsOnTile(s.pieces, to, None, Units)),
                            TileDefense(s, to), StructureDefense(s, to), s.rng)
  }

  /** A Noble of the attacking force that is not among its losses. */
  predicate NobleSurvives(s: State, ids: seq<PieceId>, losses: seq<PieceId>) {
    exists id <- ids :: id in s.pieces.at && s.pieces.at[id].kind == Noble && id !in losses
  }

  function LoyaltyOf(s: State, t: Coord): int {
    if t in s.loyalty then s.loyalty[t].value else MAX_LOYALTY
  }

  function OwnerOf(s: State, t: Coord): Option<PlayerId> {
    if t in s.ownership then Some(s.ownership[t]) else None
  }

  /** The dead are removed, the generator has moved on and the attack is on record. */
  function AfterBattle(s: State, from: Coord, dead: set<PieceId>, rng: bv32): State {
    s.(pieces := Without(s.pieces, dead), rng := rng, attackedFrom := s.attackedFrom + [from])
  }

  predicate TakesCapital(s: State, to: Coord) {
    to in s.ownership && s.ownership[to] in s.capitals && s.capitals[s.ownership[to]] == to
  }

  function PiecesOwnedBy(ps: Pieces, p: PlayerId): set<PieceId> {
    set id | id in ps.at && ps.at[id].owner == p
  }

  /** The tile claimed for p, then everything of the loser's unowned. */
  function Neutralised(ownership: map<Coord, PlayerId>, p: PlayerId, to: Coord, loser: PlayerId): map<Coord, PlayerId> {
    var claimed := ownership[to := p];
    map t | t in claimed && claimed[t] != loser :: claimed[t]
  }

  /** Capital taken: its owner is out, with every piece gone and every remaining tile unowned. */
  function TakeCapital(s: State, p: PlayerId, to: Coord, loser: PlayerId): State {
    s.(loyalty := s.loyalty - {to},
       ownership := Neutralised(s.ownership, p, to, loser),
       pieces := Without(s.pieces, PiecesOwnedBy(s.pieces, loser)),
       roster := EliminateFrom(s.roster, loser))
  }

  /** Any other tile taken: it changes hands together with the structure on it, if an enemy held it. */
  function TakeTile(s: State, p: PlayerId, to: Coord, structure: Option<PieceId>): State {
    var s1 := s.(loyalty := s.loyalty - {to}, ownership := s.ownership[to := p]);
    if to in s.ownership && structure.Some? && structure.value in s.pieces.at
    then s1.(pieces := SetPiece(s.pieces, structure.value, s.pieces.at[structure.value].(owner := p)))
    else s1
  }

  /** The occupation step of a surviving Noble, on the state after the battle. */
  function Occupy(s: State, p: PlayerId, to: Coord, structure: Option<PieceId>): State {
    var next := LoyaltyOf(s, to) - LOYALTY_DAMAGE;
    if next > 0 then s.(loyalty := s.loyalty[to := Loyalty(next, p)])
    else if TakesCapital(s, to) then TakeCapital(s, p, to, s.ownership[to])
    else TakeTile(s, p, to, structure)
  }

  function OccupationEvents(s: State, p: PlayerId, to: Coord): seq<Event> {
    var next := LoyaltyOf(s, to) - LOYALTY_DAMAGE;
    if next > 0 then [LoyaltyReduced(p, to, next)]
    else [TileCaptured(p, to, OwnerOf(s, to))]
         + if TakesCapital(s, to) then [Elimination(s.ownership[to], p)] else []
  }

  function ExecuteAttack(s: State, p: PlayerId, from: Coord, to: Coord, unitIds: Option<seq<PieceId>>): Outcome {
    var ids := AttackForce(s, p, from, unitIds);
    if !AllPresent(s.pieces, ids) then Threw
    else
      var r := Battle(s, ids, to);
      var fought := AfterBattle(s, from, Elements(r.attackerLosses) + Elements(r.defenderLosses),
                                RngAfterBattle(s, ids, to));
      var report := BattleResolved(p, from, to, OwnerOf(s, to), r.attackerWins, r.attackerStrength2,
                                   r.defenderStrength2, |r.attackerLosses|, |r.defenderLosses|);
      if !NobleSurvives(s, ids, r.attackerLosses) then Done(fought, [report])
      else if LoyaltyOf(s, to) <= LOYALTY_DAMAGE && TakesCapital(s, to) && s.ownership[to] !in RosterIds(s.roster)
      then Threw
      else Done(Occupy(fought, p, to, StructureOnTile(s.pieces, to, Structures)),
                [report] + OccupationEvents(s, p, to))
  }

  // ---- End of turn ---------------------------------------------------------------------

  const LOYALTY_RECOVERY := 10

  /** Every contested tile recovers; full loyalty is not stored. */
  function Recovered(loyalty: map<Coord, Loyalty>): map<Coord, Loyalty> {
    map t | t in loyalty && loyalty[t].value + LOYALTY_RECOVERY < MAX_LOYALTY ::
      loyalty[t].(value := loyalty[t].value + LOYALTY_RECOVERY)
  }

  function ActiveInSeatOrder(roster: seq<Player>): (r: seq<PlayerId>) {
    IdsOf(ActiveOnly(roster))
  }

  function FoodEvents(p: PlayerId, held: Stock, cost: nat): seq<Event> {
    var bought := Purchased(held.gold, cost - held.food);
    [FoodConsumed(p, Min(held.food, cost), cost)] + if bought > 0 then [FoodPurchased(p, bought, 3 * bought)] else []
  }

  ghost function CycleEvents(s: State, p: PlayerId): seq<Event> {
    if p !in s.stocks then []
    else
      var income, cost := Income(LandOf(s), p), FoodCost(LandOf(s), p);
      var held := Collect(s.stocks[p], income);
      var city := OldestCity(s.pieces.order, s.pieces.at, p, s.mortgaged);
      [IncomeCollected(p, income)] + (if cost > 0 then FoodEvents(p, held, cost) else [])
      + (if Cycle(s.stocks[p], income, cost).gold < 0 && city.Some? then [CityMortgaged(p, city.value)] else [])
  }

  ghost function RoundEvents(s: State, ps: seq<PlayerId>): seq<Event> {
    if ps == [] then []
    else
      var init := ps[..|ps| - 1];
      RoundEvents(s, init) + CycleEvents(ProcessPlayers(s, init), ps[|ps| - 1])
  }

  ghost function Disconnections(s: State, ps: seq<PlayerId>): seq<Event> {
    if ps == [] then []
    else
      var p := ps[|ps| - 1];
      var cutOff := OwnedTiles(s.ownership, p) - Supplied(LandOf(s), p);
      Disconnections(s, ps[..|ps| - 1]) + if cutOff != {} then [TerritoryDisconnected(p, cutOff)] else []
  }

  /** The round-end economy of all active players, in seat order. */
  ghost function RoundEnd(s: State): (State, seq<Event>) {
    var ps := ActiveInSeatOrder(s.roster);
    var after := ProcessPlayers(s, ps);
    (after, RoundEvents(s, ps) + Disconnections(after, ps) + [RoundEnded(s.rounds.round)])
  }

  const COMMAND_PHASE := "command"

  ghost function ExecuteFinishTurn(s: State, p: PlayerId): Outcome {
    match EndTurn(s.rounds, s.roster, COMMAND_PHASE)
    case None => Threw
    case Some((rounds, newRound)) =>
      var turned := s.(moved := [], attackedFrom := [], rounds := rounds);
      var ended := TurnEnded(p, rounds.turn.activePlayer, newRound, rounds.round);
      if !newRound then Done(turned, [ended])
      else
        var (settled, events) := RoundEnd(turned);
        Done(settled.(loyalty := Recovered(settled.loyalty)), [ended] + events)
  }

  ghost function Execute(s: State, c: Command): Outcome {
    if c.player.None? then Threw
    else
      var p := c.player.value;
      match c.action
      case RecruitUnit(tile, kind) => ExecuteRecruit(s, p, tile, kind)
      case MoveUnit(id, target) => ExecuteMove(s, p, id, target)
      case AttackTile(from, to, unitIds) => ExecuteAttack(s, p, from, to, unitIds)
      case BuildStructure(tile, kind) => ExecuteBuild(s, p, tile, kind)
      case DemolishStructure(tile) => ExecuteDemolish(s, p, tile)
      case DevelopTile(tile) => ExecuteDevelop(s, p, tile)
      case FinishTurn => ExecuteFinishTurn(s, p)
  }

  // ---- Victory ----------------------------------------------------------------------------

  /** winner: None is a draw. */
  datatype Victory = Victory(winner: Option<PlayerId>)

  function LastPlayerStanding(roster: seq<Player>): Option<Victory> {
    var survivors := ActiveOnly(roster);
    if |roster| < 2 then None
    else if |survivors| == 1 then Some(Victory(Some(survivors[0].id)))
    else if survivors == [] then Some(Victory(None))
    else None
  }

  // ---- Setup ----------------------------------------------------------------------------------

  /** The four pieces of one player: capital base, two spearmen, one noble. */
  function StartingPieces(ps: Pieces, p: PlayerId, home: Coord): Pieces {
    var a := SetPiece(ps, CapitalId(p), Piece(CapitalBase, p, home));
    var b := SetPiece(a, SpearmanId(p, 1), Piece(Spearman, p, home));
    var c := SetPiece(b, SpearmanId(p, 2), Piece(Spearman, p, home));
    SetPiece(c, NobleId(p), Piece(Noble, p, home))
  }

  const STARTING_STOCK := Stock(10, 8, 6, 30)

  function PlaceOne(s: State, p: PlayerId, home: Coord): State
    requires p in s.stocks
  {
    s.(pieces := StartingPieces(s.pieces, p, home), ownership := s.ownership[home := p],
       capitals := s.capitals[p := home], stocks := s.stocks[p := Plus(s.stocks[p], STARTING_STOCK)])
  }

  /** Setup after the first n players have been placed; `players` is the order the caller passed them in. */
  function Placed(s: State, players: seq<Player>, n: nat): State
    requires n <= |players| && n <= |StartingCoords(|players|)|
    requires forall p <- players :: p.id in s.stocks
    ensures Placed(s, players, n).stocks.Keys == s.stocks.Keys
  {
    if n == 0 then s
    else
      var before := Placed(s, players, n - 1);
      var p, home := players[n - 1].id, StartingCoords(|players|)[n - 1];
      PlaceOne(before, p, home)
  }

  /** The fresh state before setup: seated players, empty inventories, the first turn of round 1. */
  function Fresh(players: seq<Player>, board: GameMap<Tile>, rng: bv32): State
    requires players != []
  {
    assert WithStatus(players, Active)[0] in ActiveSortedBySeat(WithStatus(players, Active));
    State(board, WithStatus(SortBySeat(players), Active),
          RoundState(1, Turn(1, ActiveSortedBySeat(WithStatus(players, Active))[0].id, COMMAND_PHASE, map[])),
          map p | p in RosterIds(players) :: Stock(0, 0, 0, 0),
          Pieces([], map[]), map[], map[], 100, [], [], map[], [], [], rng)
  }

  function Setup(players: seq<Player>, board: GameMap<Tile>, rng: bv32): State
    requires 2 <= |players| <= 4
  {
    assert forall p <- players :: p.id in RosterIds(players);
    Placed(Fresh(players, board, rng), players, |players|)
  }
}
