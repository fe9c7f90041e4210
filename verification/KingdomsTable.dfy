/**
 * The Kingdoms actions carried out step by step on mutable game state, each proved to leave exactly the state and
 * the events that the functions of KingdomsRules describe.
 */
module KingdomsTable {
  import opened Collections
  import opened Hex
  import opened Board
  import opened KingdomsMap
  import opened Random
  import opened Rounds
  import opened Connectivity
  import opened KingdomsState
  import opened KingdomsEconomy
  import opened KingdomsRules
  import opened KingdomsInvariant
  import opened KingdomsConquest
  import opened KingdomsRun
  import Combat

  // ---- Queries over the piece table -----------------------------------------------------

  lemma {:induction false} SelectConcat(a: seq<PieceId>, b: seq<PieceId>, at: map<PieceId, Piece>, tile: Coord,
                                        owner: Option<PlayerId>, kinds: KindSet)
    ensures Select(a + b, at, tile, owner, kinds) == Select(a, at, tile, owner, kinds) + Select(b, at, tile, owner, kinds)
  {
    if a == [] {
      assert a + b == b;
    } else {
      assert (a + b)[1..] == a[1..] + b;
      SelectConcat(a[1..], b, at, tile, owner, kinds);
    }
  }

  lemma SelectLast(order: seq<PieceId>, i: nat, at: map<PieceId, Piece>, tile: Coord, owner: Option<PlayerId>,
                   kinds: KindSet)
    requires i < |order|
    ensures Select(order[..i + 1], at, tile, owner, kinds) ==
            Select(order[..i], at, tile, owner, kinds)
            + if order[i] in at && Matches(at[order[i]], tile, owner, kinds) then [order[i]] else []
  {
    hide InKinds;
    assert order[..i + 1] == order[..i] + [order[i]];
    SelectConcat(order[..i], [order[i]], at, tile, owner, kinds);
  }

  lemma NothingSelected(at: map<PieceId, Piece>, tile: Coord, owner: Option<PlayerId>, kinds: KindSet)
    ensures Select([], at, tile, owner, kinds) == []
  {
  }

  method FindUnits(ps: Pieces, tile: Coord, owner: Option<PlayerId>, kinds: KindSet) returns (ids: seq<PieceId>)
    requires ValidPieces(ps)
    ensures ids == UnitsOnTile(ps, tile, owner, kinds)
  {
    hide Select, InKinds;
    ids := [];
    NothingSelected(ps.at, tile, owner, kinds);
    for i := 0 to |ps.order|
      invariant ids == Select(ps.order[..i], ps.at, tile, owner, kinds)
    {
      var id := ps.order[i];
      SelectLast(ps.order, i, ps.at, tile, owner, kinds);
      assert id in ps.at;
      var piece := ps.at[id];
      if !InKinds(piece.kind, kinds) {
        continue;
      }
      if piece.tile != tile {
        continue;
      }
      if owner.Some? && piece.owner != owner.value {
        continue;
      }
      ids := ids + [id];
    }
    assert ps.order[..|ps.order|] == ps.order;
  }

  method FindStructure(ps: Pieces, tile: Coord, kinds: KindSet) returns (found: Option<PieceId>)
    requires ValidPieces(ps)
    ensures found == StructureOnTile(ps, tile, kinds)
  {
    for i := 0 to |ps.order|
      invariant Select(ps.order[..i], ps.at, tile, None, kinds) == []
    {
      var id := ps.order[i];
      SelectLast(ps.order, i, ps.at, tile, None, kinds);
      assert id in ps.at;
      if !InKinds(ps.at[id].kind, kinds) {
        continue;
      }
      if ps.at[id].tile != tile {
        continue;
      }
      assert ps.order == ps.order[..i + 1] + ps.order[i + 1..];
      SelectConcat(ps.order[..i + 1], ps.order[i + 1..], ps.at, tile, None, kinds);
      return Some(id);
    }
    assert ps.order[..|ps.order|] == ps.order;
    found := None;
  }

  method CountPieces(ps: Pieces, p: PlayerId, kind: Kind) returns (count: nat)
    requires ValidPieces(ps)
    ensures count == CountOfKind(ps, p, kind)
  {
    count := 0;
    for i := 0 to |ps.order|
      invariant count == |OfKind(ps.order[..i], ps.at, p, kind)|
    {
      var id := ps.order[i];
      assert ps.order[..i + 1] == ps.order[..i] + [id];
      OfKindAppend(ps.order[..i], id, ps.at, p, kind);
      assert id in ps.at;
      if ps.at[id].owner == p && ps.at[id].kind == kind {
        count := count + 1;
      }
    }
    assert ps.order[..|ps.order|] == ps.order;
  }

  method FindOldestCity(ps: Pieces, p: PlayerId, mortgaged: seq<PieceId>) returns (oldest: Option<PieceId>)
    requires ValidPieces(ps)
    ensures oldest == OldestCity(ps.order, ps.at, p, mortgaged)
  {
    oldest := None;
    for i := 0 to |ps.order|
      invariant oldest == OldestCity(ps.order[..i], ps.at, p, mortgaged)
    {
      assert ps.order[..i + 1][..i] == ps.order[..i];
      var id := ps.order[i];
      assert id in ps.at;
      if ps.at[id].owner != p || ps.at[id].kind != City {
        continue;
      }
      if id in mortgaged {
        continue;
      }
      if oldest.None? || IdOrder(id) < IdOrder(oldest.value) {
        oldest := Some(id);
      }
    }
    assert ps.order[..|ps.order|] == ps.order;
  }

  /** Deleting the listed ids one after the other. */
  method DeleteAll(ps: Pieces, ids: seq<PieceId>) returns (after: Pieces)
    ensures after == Without(ps, Elements(ids))
  {
    OrderWithoutNone(ps.order, {});
    assert Elements(ids[..0]) == {} && ps.at - {} == ps.at;
    after := ps;
    for i := 0 to |ids|
      invariant after == Without(ps, Elements(ids[..i]))
    {
      OrderWithoutTwice(ps.order, Elements(ids[..i]), {ids[i]});
      assert Elements(ids[..i + 1]) == Elements(ids[..i]) + {ids[i]};
      after := Without(after, {ids[i]});
    }
    assert ids[..|ids|] == ids;
  }

  method FindOwned(ps: Pieces, p: PlayerId) returns (ids: seq<PieceId>)
    requires ValidPieces(ps)
    ensures Elements(ids) == PiecesOwnedBy(ps, p)
  {
    ids := [];
    for i := 0 to |ps.order|
      invariant forall id :: id in ids <==> id in ps.order[..i] && id in ps.at && ps.at[id].owner == p
    {
      assert ps.order[..i + 1] == ps.order[..i] + [ps.order[i]];
      assert ps.order[i] in ps.at;
      if ps.at[ps.order[i]].owner == p {
        ids := ids + [ps.order[i]];
      }
    }
    assert ps.order[..|ps.order|] == ps.order;
  }

  /** Deleting every entry of the loser. */
  method Neutralise(claimed: map<Coord, PlayerId>, loser: PlayerId) returns (after: map<Coord, PlayerId>)
    ensures after == map t | t in claimed && claimed[t] != loser :: claimed[t]
  {
    after := claimed;
    var todo := claimed.Keys;
    while todo != {}
      invariant todo <= claimed.Keys
      invariant after == map t | t in claimed && (t in todo || claimed[t] != loser) :: claimed[t]
    {
      var t :| t in todo;
      if claimed[t] == loser {
        after := after - {t};
      }
      todo := todo - {t};
    }
  }

  /** The recovery loop of the round end. */
  method RecoverLoyalty(loyalty: map<Coord, Loyalty>) returns (after: map<Coord, Loyalty>)
    ensures after == Recovered(loyalty)
  {
    after := loyalty;
    var todo := loyalty.Keys;
    while todo != {}
      invariant todo <= loyalty.Keys
      invariant after == map t | t in loyalty && (t in todo || t in Recovered(loyalty)) ::
                           if t in todo then loyalty[t] else Recovered(loyalty)[t]
    {
      var t :| t in todo;
      var recovered := loyalty[t].value + LOYALTY_RECOVERY;
      if recovered >= MAX_LOYALTY {
        after := after - {t};
      } else {
        after := after[t := loyalty[t].(value := recovered)];
      }
      todo := todo - {t};
    }
  }

  method CollectForce(ps: Pieces, ids: seq<PieceId>) returns (force: Option<seq<Combat.Combatant<PieceId>>>)
    ensures force.Some? <==> AllPresent(ps, ids)
    ensures force.Some? ==> force.value == Force(ps, ids)
  {
    var f: seq<Combat.Combatant<PieceId>> := [];
    for i := 0 to |ids|
      invariant AllPresent(ps, ids[..i]) && f == Force(ps, ids[..i])
    {
      if ids[i] !in ps.at {
        return None;
      }
      assert ids[..i + 1] == ids[..i] + [ids[i]];
      f := f + [Combat.Combatant(ids[i], Attack(ps.at[ids[i]].kind) as real)];
      assert f == Force(ps, ids[..i + 1]);
    }
    assert ids[..|ids|] == ids;
    force := Some(f);
  }

  method NobleIsLeft(s: State, ids: seq<PieceId>, losses: seq<PieceId>) returns (found: bool)
    ensures found == NobleSurvives(s, ids, losses)
  {
    found := false;
    for i := 0 to |ids|
      invariant found == NobleSurvives(s, ids[..i], losses)
    {
      assert ids[..i + 1] == ids[..i] + [ids[i]];
      if ids[i] in s.pieces.at && s.pieces.at[ids[i]].kind == Noble && ids[i] !in losses {
        found := true;
      }
    }
    assert ids[..|ids|] == ids;
  }

  // ---- The validators, run ---------------------------------------------------------------

  method CheckRecruit(s: State, p: PlayerId, tile: Coord, kind: Kind) returns (e: Option<Error>)
    requires s.board.Valid() && ValidPieces(s.pieces)
    ensures e == ValidateRecruit(s, p, tile, kind)
  {
    hide Supplied, StructureOnTile, CountOfKind, RecruitCost;
    var count := CountPieces(s.pieces, p, kind);
    if !IsUnit(kind) {
      return Some(InvalidKind);
    }
    if !Owns(s, p, tile) {
      return Some(NotOwned);
    }
    var connected := PlayerConnectedTiles(LandOf(s), p);
    if tile !in connected {
      return Some(Disconnected);
    }
    var post := FindStructure(s.pieces, tile, RecruitPosts);
    if post.None? {
      return Some(NoStructure);
    }
    if Limit(kind).Some? && count >= Limit(kind).value {
      return Some(UnitLimit);
    }
    if !Affords(StockOf(s, p), RecruitCost(kind, count)) {
      return Some(InsufficientResources);
    }
    e := if Upkeep(kind) > 0 && StockOf(s, p).food <= 0 then Some(InsufficientFoodUpkeep) else None;
  }

  method CheckMove(s: State, p: PlayerId, id: PieceId, target: Coord) returns (e: Option<Error>)
    requires s.board.Valid() && ValidPieces(s.pieces)
    ensures e == ValidateMove(s, p, id, target)
  {
    hide Supplied;
    if id !in s.pieces.at || s.pieces.at[id].owner != p {
      return Some(NotYourPiece);
    }
    if !IsUnit(s.pieces.at[id].kind) {
      return Some(NotAUnit);
    }
    if id in s.moved {
      return Some(AlreadyMoved);
    }
    if s.pieces.at[id].tile == target {
      return Some(SameTile);
    }
    if !Owns(s, p, target) {
      return Some(NotOwned);
    }
    var connected := PlayerConnectedTiles(LandOf(s), p);
    e := if target !in connected then Some(Disconnected) else None;
  }

  method CheckAttack(s: State, p: PlayerId, from: Coord, to: Coord, unitIds: Option<seq<PieceId>>)
      returns (e: Option<Error>)
    requires s.board.Valid() && ValidPieces(s.pieces)
    ensures e == ValidateAttack(s, p, from, to, unitIds)
  {
    hide Supplied, Select, IsAdjacent;
    if !Owns(s, p, from) {
      return Some(NotOwned);
    }
    var connected := PlayerConnectedTiles(LandOf(s), p);
    if from !in connected {
      return Some(Disconnected);
    }
    if Owns(s, p, to) {
      return Some(OwnTile);
    }
    if !IsAdjacent(s.board, from, to) {
      return Some(NotAdjacent);
    }
    var mine := FindUnits(s.pieces, from, Some(p), Units);
    if mine == [] {
      return Some(NoUnits);
    }
    if s.attackedFrom != [] {
      return Some(AlreadyAttacked);
    }
    if unitIds.Some? {
      e := CheckSelection(s, unitIds.value, mine, EligibleKinds(s, to));
    } else {
      var eligible := FindUnits(s.pieces, from, Some(p), EligibleKinds(s, to));
      e := if eligible == [] then Some(NoCombatUnits) else None;
    }
  }

  /** The checks on an explicit choice of units. */
  method CheckSelection(s: State, ids: seq<PieceId>, mine: seq<PieceId>, eligible: KindSet) returns (e: Option<Error>)
    requires forall id <- mine :: id in s.pieces.at
    ensures e == if ids == [] then Some(NoUnitsSelected)
                 else if exists id <- ids :: id !in mine then Some(InvalidUnit)
                 else if !exists id <- ids :: InKinds(s.pieces.at[id].kind, eligible) then Some(NoCombatUnits)
                 else None
  {
    if ids == [] {
      return Some(NoUnitsSelected);
    }
    for i := 0 to |ids|
      invariant forall id <- ids[..i] :: id in mine
    {
      if ids[i] !in mine {
        return Some(InvalidUnit);
      }
    }
    assert ids[..|ids|] == ids;
    for i := 0 to |ids|
      invariant forall id <- ids[..i] :: !InKinds(s.pieces.at[id].kind, eligible)
    {
      if InKinds(s.pieces.at[ids[i]].kind, eligible) {
        return None;
      }
    }
    e := Some(NoCombatUnits);
  }

  method CheckBuild(s: State, p: PlayerId, tile: Coord, kind: Kind) returns (e: Option<Error>)
    requires s.board.Valid() && ValidPieces(s.pieces)
    ensures e == ValidateBuild(s, p, tile, kind)
  {
    hide Supplied, StructureOnTile, CountOfKind;
    if !IsBuildable(kind) {
      return Some(InvalidKind);
    }
    if !Owns(s, p, tile) {
      return Some(NotOwned);
    }
    var connected := PlayerConnectedTiles(LandOf(s), p);
    if tile !in connected {
      return Some(Disconnected);
    }
    var found := FindStructure(s.pieces, tile, Structures);
    if found.Some? {
      return Some(TileOccupied);
    }
    var count := CountPieces(s.pieces, p, kind);
    if Limit(kind).Some? && count >= Limit(kind).value {
      return Some(StructureLimit);
    }
    e := if !Affords(StockOf(s, p), Cost(kind)) then Some(InsufficientResources) else None;
  }

  method CheckDevelop(s: State, p: PlayerId, tile: Coord) returns (e: Option<Error>)
    requires s.board.Valid() && ValidPieces(s.pieces)
    ensures e == ValidateDevelop(s, p, tile)
  {
    hide Supplied;
    if !Owns(s, p, tile) {
      return Some(NotOwned);
    }
    var connected := PlayerConnectedTiles(LandOf(s), p);
    if tile !in connected {
      return Some(Disconnected);
    }
    if tile in s.developed {
      return Some(AlreadyDeveloped);
    }
    if tile !in s.board.tiles {
      return Some(TileNotFound);
    }
    e := if StockOf(s, p).gold < DEVELOP_COST then Some(InsufficientResources) else None;
  }

  method Check(s: State, c: Command) returns (e: Option<Error>)
    requires s.board.Valid() && ValidPieces(s.pieces)
    ensures e == Validate(s, c)
  {
    hide Guard, ValidateRecruit, ValidateMove, ValidateAttack, ValidateBuild, ValidateDevelop, ValidPieces;
    e := Guard(s, c.player);
    if e.Some? {
      return;
    }
    PlayerGiven(s, c.player);
    var p := c.player.value;
    match c.action
    case RecruitUnit(tile, kind) => e := CheckRecruit(s, p, tile, kind);
    case MoveUnit(id, target) => e := CheckMove(s, p, id, target);
    case AttackTile(from, to, unitIds) => e := CheckAttack(s, p, from, to, unitIds);
    case BuildStructure(tile, kind) => e := CheckBuild(s, p, tile, kind);
    case DemolishStructure(tile) => e := ValidateDemolish(s, p, tile);
    case DevelopTile(tile) => e := CheckDevelop(s, p, tile);
    case FinishTurn =>
  }

  lemma PlayerGiven(s: State, player: Option<PlayerId>)
    requires Guard(s, player).None?
    ensures player.Some?
  {
  }

  // ---- The table ------------------------------------------------------------------------

  /** An executor's effect: the described state and events, or nothing promised but the exception. */
  ghost predicate Yields(o: Outcome, after: State, events: Option<seq<Event>>) {
    match o
    case Threw => events == None
    case Done(s, es) => after == s && events == Some(es)
  }

  lemma SamePieces(s: State, t: State, ids: seq<PieceId>, losses: seq<PieceId>)
    requires s.pieces == t.pieces
    ensures NobleSurvives(s, ids, losses) == NobleSurvives(t, ids, losses)
  {
  }

  lemma SameOccupation(s: State, t: State, p: PlayerId, to: Coord)
    requires s.loyalty == t.loyalty && s.ownership == t.ownership && s.capitals == t.capitals
    ensures OccupationEvents(s, p, to) == OccupationEvents(t, p, to)
    ensures LoyaltyOf(s, to) == LoyaltyOf(t, to) && TakesCapital(s, to) == TakesCapital(t, to)
  {
  }

  lemma ElementsOfBoth<T(!new)>(a: seq<T>, b: seq<T>)
    ensures Elements(a + b) == Elements(b) + Elements(a)
  {
  }

  lemma NothingToEat(stock: Stock)
    ensures Eat(stock, 0) == stock
  {
  }

  class Table {
    const board: GameMap<Tile>
    const players: PlayerManager
    const rounds: RoundManager
    const rng: SeededRandom
    var stocks: map<PlayerId, Stock>
    var pieces: Pieces
    var ownership: map<Coord, PlayerId>
    var capitals: map<PlayerId, Coord>
    var nextPieceId: nat
    var moved: seq<PieceId>
    var attackedFrom: seq<Coord>
    var loyalty: map<Coord, Loyalty>
    var developed: seq<Coord>
    var mortgaged: seq<PieceId>

    function Now(): State
      reads this, players, rounds, rng
    {
      State(board, players.bySeat, rounds.State(), stocks, pieces, ownership, capitals, nextPieceId,
            moved, attackedFrom, loyalty, developed, mortgaged, rng.state)
    }

    ghost predicate Valid()
      reads this
    {
      board.Valid() && ValidPieces(pieces)
    }

    constructor (seats: seq<Player>, board: GameMap<Tile>, seed: bv32)
      requires seats != []
      ensures Now() == Fresh(seats, board, FirstWord(seed))
      ensures fresh(players) && fresh(rounds) && fresh(rng)
    {
      assert WithStatus(seats, Active)[0] in ActiveSortedBySeat(WithStatus(seats, Active));
      this.board := board;
      players := new PlayerManager(seats);
      rounds := new RoundManager(WithStatus(seats, Active), map[COMMAND_PHASE := [COMMAND_PHASE]], COMMAND_PHASE);
      rng := new SeededRandom(seed);
      stocks := map p | p in RosterIds(seats) :: Stock(0, 0, 0, 0);
      pieces, ownership, capitals, nextPieceId := Pieces([], map[]), map[], map[], 100;
      moved, attackedFrom, loyalty, developed, mortgaged := [], [], map[], [], [];
    }

    // ---- Setup ----

    /** One player's four pieces, claimed corner and starting stock. */
    method PlacePlayer(p: PlayerId, home: Coord)
      requires p in stocks
      modifies this`pieces, this`ownership, this`capitals, this`stocks
      ensures Now() == PlaceOne(old(Now()), p, home)
    {
      pieces := SetPiece(pieces, CapitalId(p), Piece(CapitalBase, p, home));
      pieces := SetPiece(pieces, SpearmanId(p, 1), Piece(Spearman, p, home));
      pieces := SetPiece(pieces, SpearmanId(p, 2), Piece(Spearman, p, home));
      pieces := SetPiece(pieces, NobleId(p), Piece(Noble, p, home));
      ownership := ownership[home := p];
      capitals := capitals[p := home];
      stocks := stocks[p := Plus(stocks[p], STARTING_STOCK)];
    }

    method SetUp(seats: seq<Player>)
      requires 2 <= |seats| <= 4 && forall p <- seats :: p.id in stocks
      modifies this`pieces, this`ownership, this`capitals, this`stocks
      ensures Now() == Placed(old(Now()), seats, |seats|)
    {
      hide PlaceOne, StartingCoords, ActiveSortedBySeat;
      var coords := StartingCoords(|seats|);
      for i := 0 to |seats|
        invariant Now() == Placed(old(Now()), seats, i)
      {
        PlacePlayer(seats[i].id, coords[i]);
      }
    }

    // ---- The simple actions ----

    method NextId() returns (id: PieceId)
      modifies this`nextPieceId
      ensures nextPieceId == old(nextPieceId) + 1 && id == Generated(nextPieceId)
    {
      nextPieceId := nextPieceId + 1;
      id := Generated(nextPieceId);
    }

    /** The resources of a cost, one after the other; it throws at the first one that is short. */
    method Spend(p: PlayerId, cost: Stock) returns (ok: bool)
      modifies this`stocks
      ensures ok <==> CanPay(old(Now()), p, cost)
      ensures ok ==> Now() == Pay(old(Now()), p, cost)
    {
      if p !in stocks || stocks[p].wood < cost.wood {
        return false;
      }
      stocks := stocks[p := stocks[p].(wood := stocks[p].wood - cost.wood)];
      if stocks[p].food < cost.food {
        return false;
      }
      stocks := stocks[p := stocks[p].(food := stocks[p].food - cost.food)];
      if stocks[p].iron < cost.iron {
        return false;
      }
      stocks := stocks[p := stocks[p].(iron := stocks[p].iron - cost.iron)];
      if stocks[p].gold < cost.gold {
        return false;
      }
      stocks := stocks[p := stocks[p].(gold := stocks[p].gold - cost.gold)];
      ok := true;
    }

    method RecruitUnit(p: PlayerId, tile: Coord, kind: Kind) returns (events: Option<seq<Event>>)
      requires Valid()
      modifies this`stocks, this`nextPieceId, this`pieces
      ensures Yields(ExecuteRecruit(old(Now()), p, tile, kind), Now(), events)
    {
      hide CountOfKind, RecruitCost, NobleGold;
      var count := CountPieces(pieces, p, kind);
      var ok := Spend(p, RecruitCost(kind, count));
      if !ok {
        return None;
      }
      var id := NextId();
      pieces := SetPiece(pieces, id, Piece(kind, p, tile));
      events := Some([UnitRecruited(p, id, kind, tile)]);
    }

    method MoveUnit(p: PlayerId, id: PieceId, target: Coord) returns (events: Option<seq<Event>>)
      modifies this`pieces, this`moved
      ensures Yields(ExecuteMove(old(Now()), p, id, target), Now(), events)
    {
      if id !in pieces.at {
        return None;
      }
      var piece := pieces.at[id];
      pieces := SetPiece(pieces, id, piece.(tile := target));
      moved := moved + [id];
      events := Some([UnitMoved(p, id, piece.tile, target)]);
    }

    method BuildStructure(p: PlayerId, tile: Coord, kind: Kind) returns (events: Option<seq<Event>>)
      modifies this`stocks, this`nextPieceId, this`pieces
      ensures Yields(ExecuteBuild(old(Now()), p, tile, kind), Now(), events)
    {
      var ok := Spend(p, Cost(kind));
      if !ok {
        return None;
      }
      var id := NextId();
      pieces := SetPiece(pieces, id, Piece(kind, p, tile));
      events := Some([StructureBuilt(p, id, kind, tile)]);
    }

    method DemolishStructure(p: PlayerId, tile: Coord) returns (events: Option<seq<Event>>)
      requires Valid()
      modifies this`pieces, this`stocks
      ensures Yields(ExecuteDemolish(old(Now()), p, tile), Now(), events)
    {
      hide StructureOnTile;
      var found := FindStructure(pieces, tile, Structures);
      if found.None? || p !in stocks {
        return None;
      }
      var kind := pieces.at[found.value].kind;
      pieces := Without(pieces, {found.value});
      stocks := stocks[p := Plus(stocks[p], Refund(kind))];
      events := Some([StructureDemolished(p, kind, tile, Refund(kind))]);
    }

    method DevelopTile(p: PlayerId, tile: Coord) returns (events: Option<seq<Event>>)
      modifies this`stocks, this`developed
      ensures Yields(ExecuteDevelop(old(Now()), p, tile), Now(), events)
    {
      var ok := Spend(p, Stock(0, 0, 0, DEVELOP_COST));
      if !ok {
        return None;
      }
      developed := developed + [tile];
      if tile !in board.tiles {
        return None;
      }
      events := Some([TileDeveloped(p, tile, DEVELOP_COST, EffectiveResource(board.tiles[tile]))]);
    }

    // ---- Attack ----

    /** Everything that happens when the capital falls. */
    method Conquer(p: PlayerId, to: Coord, loser: PlayerId) returns (ok: bool)
      requires ValidPieces(pieces) && HeldBy(ownership, loser, to)
      modifies players, this`pieces, this`ownership, this`loyalty
      ensures ok <==> loser in RosterIds(old(Now()).roster)
      ensures ok ==> Now() == TakeCapital(old(Now()), p, to, loser)
    {
      loyalty := loyalty - {to};
      ownership := ownership[to := p];
      ok := players.Eliminate(loser);
      if !ok {
        return;
      }
      var ids := FindOwned(pieces, loser);
      pieces := DeleteAll(pieces, ids);
      ownership := Neutralise(ownership, loser);
    }

    /** The occupation step; ok is false where the source throws. */
    method OccupyTile(p: PlayerId, to: Coord, structure: Option<PieceId>) returns (ok: bool, events: seq<Event>)
      requires ValidPieces(pieces)
      modifies players, this`pieces, this`ownership, this`loyalty
      ensures ok <==> !(LoyaltyOf(old(Now()), to) <= LOYALTY_DAMAGE && TakesCapital(old(Now()), to)
                        && old(Now()).ownership[to] !in RosterIds(old(Now()).roster))
      ensures ok ==> Now() == Occupy(old(Now()), p, to, structure) && events == OccupationEvents(old(Now()), p, to)
    {
      hide TakeCapital, ValidPieces, RosterIds;
      ok := true;
      var current := if to in loyalty then loyalty[to].value else MAX_LOYALTY;
      var next := current - LOYALTY_DAMAGE;
      if next > 0 {
        loyalty := loyalty[to := Loyalty(next, p)];
        return true, [LoyaltyReduced(p, to, next)];
      }
      var defender := if to in ownership then Some(ownership[to]) else None;
      events := [TileCaptured(p, to, defender)];
      if defender.Some? && defender.value in capitals && capitals[defender.value] == to {
        ok := Conquer(p, to, defender.value);
        events := events + [Elimination(defender.value, p)];
      } else {
        loyalty := loyalty - {to};
        ownership := ownership[to := p];
        if defender.Some? && structure.Some? && structure.value in pieces.at {
          pieces := SetPiece(pieces, structure.value, pieces.at[structure.value].(owner := p));
        }
      }
    }

    method AttackTile(p: PlayerId, from: Coord, to: Coord, unitIds: Option<seq<PieceId>>)
        returns (events: Option<seq<Event>>)
      requires Valid()
      modifies this`pieces, this`ownership, this`loyalty, this`attackedFrom, players, rng
      ensures Yields(ExecuteAttack(old(Now()), p, from, to, unitIds), Now(), events)
    {
      hide UnitsOnTile, StructureOnTile, ValidPieces, Combat.ResolveAttack, Combat.StateAfterAttack, Occupy,
           OccupationEvents, NobleSurvives, Force, RosterIds, Without, DefenseMultiplier, TerrainDefense;
      var ids;
      if unitIds.Some? && unitIds.value != [] {
        ids := unitIds.value;
      } else {
        ids := FindUnits(pieces, from, Some(p), Units);
      }
      var defenderIds := FindUnits(pieces, to, None, Units);
      var defender := OwnerOf(Now(), to);
      var attackers := CollectForce(pieces, ids);
      if attackers.None? {
        return None;
      }
      DefendersPresent(pieces, to);
      var defenders := CollectForce(pieces, defenderIds);
      var structure := FindStructure(pieces, to, Structures);
      ghost var start := Now();
      var result := Combat.Resolve(attackers.value, defenders.value, TileDefense(Now(), to),
                                   StructureDefense(Now(), to), rng);
      assert result == Battle(start, ids, to) && rng.state == RngAfterBattle(start, ids, to);
      var nobleLeft := NobleIsLeft(Now(), ids, result.attackerLosses);
      SamePieces(start, Now(), ids, result.attackerLosses);
      WithoutKeepsValid(pieces, Elements(result.defenderLosses + result.attackerLosses));
      pieces := DeleteAll(pieces, result.defenderLosses + result.attackerLosses);
      ElementsOfBoth(result.defenderLosses, result.attackerLosses);
      var report := BattleResolved(p, from, to, defender, result.attackerWins, result.attackerStrength2,
                                   result.defenderStrength2, |result.attackerLosses|, |result.defenderLosses|);
      attackedFrom := attackedFrom + [from];
      assert Now() == AfterBattle(start, from, Elements(result.attackerLosses) + Elements(result.defenderLosses),
                                  RngAfterBattle(start, ids, to));
      if !nobleLeft {
        return Some([report]);
      }
      SameOccupation(start, Now(), p, to);
      var ok, occupation := OccupyTile(p, to, structure);
      events := if ok then Some([report] + occupation) else None;
    }

    // ---- The end of a turn ----

    /** Spends gold on food at three a piece, as far as it goes. */
    method ExchangeForFood(p: PlayerId, needed: int) returns (purchased: int)
      requires p in stocks
      modifies this`stocks
      ensures purchased == Purchased(old(stocks[p].gold), needed)
      ensures stocks == old(stocks)[p := Exchanged(old(stocks[p]), needed)]
    {
      if needed <= 0 {
        return 0;
      }
      var affordable := stocks[p].gold / 3;
      purchased := Min(needed, affordable);
      if purchased > 0 {
        var stock := stocks[p];
        stocks := stocks[p := stock.(gold := stock.gold - 3 * purchased, food := stock.food + purchased)];
      }
    }

    /** Food for the army out of the stock, and out of the gold where the stock falls short. */
    method FeedArmy(p: PlayerId, cost: nat) returns (events: seq<Event>)
      requires p in stocks && cost > 0
      modifies this`stocks
      ensures stocks == old(stocks)[p := Eat(old(stocks[p]), cost)]
      ensures events == FoodEvents(p, old(stocks[p]), cost)
    {
      var have := stocks[p].food;
      var used := Min(have, cost);
      if used > 0 {
        stocks := stocks[p := stocks[p].(food := have - used)];
      }
      events := [FoodConsumed(p, used, cost)];
      var deficit := cost - have;
      if deficit > 0 {
        var purchased := ExchangeForFood(p, deficit);
        if purchased > 0 {
          events := events + [FoodPurchased(p, purchased, 3 * purchased)];
        }
      }
    }

    /** The whole cycle of one player: income, food, and the mortgage that is never needed. */
    method ProcessPlayerCycle(p: PlayerId, before: seq<Event>) returns (events: seq<Event>)
      requires Valid()
      modifies this`stocks, this`mortgaged
      ensures Now() == ProcessPlayer(old(Now()), p)
      ensures events == before + CycleEvents(old(Now()), p)
    {
      hide Income, FoodCost, OldestCity, ValidPieces, Eat, FoodEvents, Collect;
      events := before;
      if p !in stocks {
        return;
      }
      ghost var start := Now();
      var land := LandOf(Now());
      var income := ComputeIncome(land, p);
      stocks := stocks[p := Collect(stocks[p], income)];
      events := events + [IncomeCollected(p, income)];
      var cost := ComputeFoodCost(land, p);
      if cost > 0 {
        var feeding := FeedArmy(p, cost);
        events := events + feeding;
      } else {
        NothingToEat(stocks[p]);
      }
      assert stocks == start.stocks[p := Cycle(start.stocks[p], income, cost)];
      if stocks[p].gold < 0 {
        var city := FindOldestCity(pieces, p, mortgaged);
        if city.Some? {
          mortgaged := mortgaged + [city.value];
          events := events + [CityMortgaged(p, city.value)];
        }
      }
    }

    method ProcessRoundEnd() returns (events: seq<Event>)
      requires Valid()
      modifies this`stocks, this`mortgaged
      ensures (Now(), events) == RoundEnd(old(Now()))
    {
      hide ProcessPlayer, CycleEvents, ActiveInSeatOrder, ValidPieces, OwnedTiles, Supplied;
      var active := ActiveInSeatOrder(players.bySeat);
      events := [];
      for i := 0 to |active|
        invariant Now() == ProcessPlayers(old(Now()), active[..i]) && pieces == old(pieces)
        invariant events == RoundEvents(old(Now()), active[..i])
      {
        assert active[..i + 1][..i] == active[..i];
        events := ProcessPlayerCycle(active[i], events);
      }
      assert active[..|active|] == active;
      ghost var settled, cycled := Now(), events;
      for i := 0 to |active|
        invariant Now() == settled && events == cycled + Disconnections(settled, active[..i])
      {
        assert active[..i + 1][..i] == active[..i];
        var connected := PlayerConnectedTiles(LandOf(Now()), active[i]);
        var cutOff := OwnedTiles(ownership, active[i]) - Elements(connected);
        assert Elements(connected) == Supplied(LandOf(Now()), active[i]);
        if cutOff != {} {
          events := events + [TerritoryDisconnected(active[i], cutOff)];
        }
      }
      events := events + [RoundEnded(rounds.State().round)];
    }

    method FinishTurn(p: PlayerId) returns (events: Option<seq<Event>>)
      requires Valid()
      modifies this`moved, this`attackedFrom, this`stocks, this`mortgaged, this`loyalty, rounds
      ensures Yields(ExecuteFinishTurn(old(Now()), p), Now(), events)
    {
      hide EndTurn, RoundEnd, Recovered, ValidPieces;
      moved := [];
      attackedFrom := [];
      var turn := rounds.End(players.bySeat, COMMAND_PHASE);
      if turn.None? {
        return None;
      }
      var (next, newRound) := turn.value;
      events := Some([TurnEnded(p, next, newRound, rounds.currentRound)]);
      ghost var turned := Now();
      assert turned == old(Now()).(moved := [], attackedFrom := [], rounds := rounds.State());
      if !newRound {
        return;
      }
      var economy := ProcessRoundEnd();
      ghost var settled := Now();
      assert settled == RoundEnd(turned).0;
      loyalty := RecoverLoyalty(loyalty);
      assert Now() == settled.(loyalty := Recovered(settled.loyalty));
      events := Some(events.value + economy);
    }

    // ---- Any action ----

    /** Carries the command out as its executor does. */
    method Carry(c: Command) returns (events: Option<seq<Event>>)
      requires Valid()
      modifies this, players, rounds, rng
      ensures Yields(Execute(old(Now()), c), Now(), events)
    {
      hide ExecuteRecruit, ExecuteMove, ExecuteAttack, ExecuteBuild, ExecuteDemolish, ExecuteDevelop, ExecuteFinishTurn,
           ValidPieces;
      if c.player.None? {
        return None;
      }
      var p := c.player.value;
      match c.action
      case RecruitUnit(tile, kind) => events := RecruitUnit(p, tile, kind);
      case MoveUnit(id, target) => events := MoveUnit(p, id, target);
      case AttackTile(from, to, unitIds) => events := AttackTile(p, from, to, unitIds);
      case BuildStructure(tile, kind) => events := BuildStructure(p, tile, kind);
      case DemolishStructure(tile) => events := DemolishStructure(p, tile);
      case DevelopTile(tile) => events := DevelopTile(p, tile);
      case FinishTurn => events := FinishTurn(p);
    }

    /** Any command at all, from any reachable state: a rejected one changes nothing, an accepted one runs through
        without an exception, and the invariant is kept. */
    method Take(c: Command) returns (rejected: Option<Error>, events: seq<Event>)
      requires Inv(Now())
      modifies this, players, rounds, rng
      ensures Inv(Now())
      ensures rejected == Validate(old(Now()), c)
      ensures rejected.Some? ==> Now() == old(Now()) && events == []
      ensures rejected.None? ==> Execute(old(Now()), c) == Done(Now(), events)
    {
      hide Inv, Validate, Execute, ValidPieces;
      OnBoard(Now());
      PiecesValid(Now());
      rejected := Check(Now(), c);
      if rejected.Some? {
        return rejected, [];
      }
      AcceptedActionKeepsInv(Now(), c);
      var result := Carry(c);
      events := result.value;
    }
  }
}
