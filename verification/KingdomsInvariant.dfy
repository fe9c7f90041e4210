/**
 * The joint invariant of the Kingdoms rules: setup establishes it, and every accepted action succeeds and
 * keeps it.  Each clause names just the parts of the state it speaks about.
 */
module KingdomsInvariant {
  import opened Collections
  import opened Hex
  import opened Board
  import opened KingdomsMap
  import opened Rounds
  import opened KingdomsState
  import opened KingdomsEconomy
  import opened KingdomsRules

  // ---- The invariant ----------------------------------------------------------------

  ghost predicate BoardOk(board: GameMap<Tile>) {
    board.Valid() && forall t <- board.tiles.Keys :: board.tiles[t].economicValue >= 0
  }

  /** Distinct players with non-empty ids; the holder of the turn is still in the game. */
  ghost predicate RosterOk(roster: seq<Player>, holder: PlayerId) {
    && Roster(roster) && |roster| >= 2
    && (forall p <- roster :: p.id.text != "")
    && holder in ActiveIds(roster)
  }

  /** Owned tiles are on the map and owned by players still in the game. */
  ghost predicate LandOk(board: GameMap<Tile>, ownership: map<Coord, PlayerId>, active: set<PlayerId>) {
    forall t <- ownership.Keys :: t in board.tiles && ownership[t] in active
  }

  predicate HeldBy(ownership: map<Coord, PlayerId>, p: PlayerId, t: Coord) {
    t in ownership && ownership[t] == p
  }

  /** Every piece stands on a tile its owner owns, a tile holds at most one structure, and generated
      ids never run ahead of the counter. */
  ghost predicate PiecesOk(ps: Pieces, ownership: map<Coord, PlayerId>, issued: nat) {
    && ValidPieces(ps)
    && (forall id <- ps.at.Keys :: HeldBy(ownership, ps.at[id].owner, ps.at[id].tile))
    && (forall a, b {:trigger SameSite(ps, a, b)} :: a in ps.at && b in ps.at && SameSite(ps, a, b) ==> a == b)
    && (forall n: nat :: Generated(n) in ps.at ==> n <= issued)
  }

  predicate SameSite(ps: Pieces, a: PieceId, b: PieceId)
    requires a in ps.at && b in ps.at
  {
    !IsUnit(ps.at[a].kind) && !IsUnit(ps.at[b].kind) && SameSpot(ps, a, b)
  }

  predicate SameSpot(ps: Pieces, a: PieceId, b: PieceId)
    requires a in ps.at && b in ps.at
  {
    ps.at[a].tile == ps.at[b].tile
  }

  /** Every player still in the game owns its capital tile and has its capital base there; there are no
      other capital bases. */
  ghost predicate CapitalsOk(active: set<PlayerId>, capitals: map<PlayerId, Coord>,
                             ownership: map<Coord, PlayerId>, ps: Pieces) {
    && (forall p {:trigger HasCapital(capitals, ownership, ps, p)} :: p in active ==> HasCapital(capitals, ownership, ps, p))
    && (forall id <- ps.at.Keys :: ps.at[id].kind == CapitalBase ==> id == CapitalId(ps.at[id].owner))
  }

  ghost predicate HasCapital(capitals: map<PlayerId, Coord>, ownership: map<Coord, PlayerId>, ps: Pieces, p: PlayerId) {
    && p in capitals && HeldBy(ownership, p, capitals[p])
    && CapitalId(p) in ps.at && ps.at[CapitalId(p)] == Piece(CapitalBase, p, capitals[p])
  }

  /** Everybody has an inventory and nothing in it is negative. */
  ghost predicate StocksOk(stocks: map<PlayerId, Stock>, ids: set<PlayerId>) {
    stocks.Keys == ids && forall p <- stocks.Keys :: NonNegative(stocks[p])
  }

  /** Stored loyalty is a multiple of 5 strictly between 0 and 100, left by somebody other than the owner. */
  ghost predicate LoyaltyOk(loyalty: map<Coord, Loyalty>, ownership: map<Coord, PlayerId>, board: GameMap<Tile>) {
    forall t <- loyalty.Keys :: t in board.tiles && Contested(loyalty[t], ownership, t)
  }

  predicate Contested(l: Loyalty, ownership: map<Coord, PlayerId>, t: Coord) {
    0 < l.value < 100 && l.value % 5 == 0 && !HeldBy(ownership, l.lastAttacker, t)
  }

  /** One attack a turn at most, no tile developed twice, and no city ever mortgaged. */
  ghost predicate TrackersOk(attackedFrom: seq<Coord>, mortgaged: seq<PieceId>, developed: seq<Coord>,
                             board: GameMap<Tile>) {
    && |attackedFrom| <= 1 && mortgaged == []
    && NoDup(developed) && forall t <- developed :: t in board.tiles
  }

  ghost predicate LimitsOk(ps: Pieces) {
    forall p: PlayerId, k: Kind :: IsUnit(k) ==> CountOfKind(ps, p, k) <= Limit(k).value
  }

  ghost predicate Inv(s: State) {
    && BoardOk(s.board) && RosterOk(s.roster, TurnHolder(s))
    && LandOk(s.board, s.ownership, ActiveIds(s.roster))
    && PiecesOk(s.pieces, s.ownership, s.nextPieceId)
    && CapitalsOk(ActiveIds(s.roster), s.capitals, s.ownership, s.pieces)
    && StocksOk(s.stocks, RosterIds(s.roster))
    && LoyaltyOk(s.loyalty, s.ownership, s.board)
    && TrackersOk(s.attackedFrom, s.mortgaged, s.developed, s.board)
    && LimitsOk(s.pieces)
  }

  // ---- What the invariant says ----------------------------------------------------------

  /** Eliminated players own no tile and no piece; unowned tiles are empty; a tile holds at most one structure,
      which belongs to the tile's owner; each capital tile holds exactly one capital base, its owner's. */
  lemma InvariantReadings(s: State, p: PlayerId, t: Coord)
    requires Inv(s)
    ensures IsEliminated(s.roster, p) ==> OwnedTiles(s.ownership, p) == {} && PiecesOwnedBy(s.pieces, p) == {}
    ensures t !in s.ownership ==> forall id <- s.pieces.at.Keys :: s.pieces.at[id].tile != t
    ensures forall id <- s.pieces.at.Keys :: Owns(s, s.pieces.at[id].owner, s.pieces.at[id].tile)
    ensures forall a <- s.pieces.at.Keys, b <- s.pieces.at.Keys :: a != b && SameSpot(s.pieces, a, b) ==>
              IsUnit(s.pieces.at[a].kind) || IsUnit(s.pieces.at[b].kind)
    ensures p in ActiveIds(s.roster) ==>
              && p in s.capitals && Owns(s, p, s.capitals[p])
              && (set id | id in s.pieces.at && s.pieces.at[id].kind == CapitalBase
                           && s.pieces.at[id].tile == s.capitals[p]) == {CapitalId(p)}
  {
    hide LimitsOk, StocksOk, LoyaltyOk, TrackersOk, BoardOk, IsEliminated, IsUnit, Roster;
    ReadRoster(s, p);
    if p in ActiveIds(s.roster) {
      assert HasCapital(s.capitals, s.ownership, s.pieces, p);
    }
    forall a <- s.pieces.at.Keys, b <- s.pieces.at.Keys | a != b && SameSpot(s.pieces, a, b)
      ensures IsUnit(s.pieces.at[a].kind) || IsUnit(s.pieces.at[b].kind)
    {
      assert !SameSite(s.pieces, a, b);
    }
  }

  lemma ReadRoster(s: State, p: PlayerId)
    requires RosterOk(s.roster, TurnHolder(s))
    ensures IsEliminated(s.roster, p) <==> p in RosterIds(s.roster) && p !in ActiveIds(s.roster)
  {
    EliminatedIsNotActive(s.roster, p);
  }

  // ---- Counting pieces --------------------------------------------------------------------

  lemma {:induction false} OfKindReadsOwnerAndKind(order: seq<PieceId>, at: map<PieceId, Piece>,
                                                   at': map<PieceId, Piece>, p: PlayerId, k: Kind)
    requires forall id <- order :: (id in at && at[id].owner == p && at[id].kind == k) <==>
                                   (id in at' && at'[id].owner == p && at'[id].kind == k)
    ensures OfKind(order, at, p, k) == OfKind(order, at', p, k)
  {
    if order != [] {
      OfKindReadsOwnerAndKind(order[1..], at, at', p, k);
    }
  }

  lemma {:induction false} OfKindAppend(order: seq<PieceId>, id: PieceId, at: map<PieceId, Piece>, p: PlayerId, k: Kind)
    ensures OfKind(order + [id], at, p, k) ==
            OfKind(order, at, p, k) + if id in at && at[id].owner == p && at[id].kind == k then [id] else []
  {
    if order == [] {
      assert [] + [id] == [id];
    } else {
      assert (order + [id])[1..] == order[1..] + [id];
      OfKindAppend(order[1..], id, at, p, k);
    }
  }

  lemma {:induction false} OfKindShrinks(order: seq<PieceId>, at: map<PieceId, Piece>, gone: set<PieceId>,
                                         p: PlayerId, k: Kind)
    ensures |OfKind(OrderWithout(order, gone), at - gone, p, k)| <= |OfKind(order, at, p, k)|
  {
    if order != [] {
      OfKindShrinks(order[1..], at, gone, p, k);
      var rest := OrderWithout(order[1..], gone);
      assert ([order[0]] + rest)[1..] == rest;
    }
  }

  lemma LimitsAfterRemoval(ps: Pieces, gone: set<PieceId>)
    requires LimitsOk(ps)
    ensures LimitsOk(Without(ps, gone))
  {
    forall p: PlayerId, k: Kind | IsUnit(k) ensures CountOfKind(Without(ps, gone), p, k) <= Limit(k).value {
      OfKindShrinks(ps.order, ps.at, gone, p, k);
      assert CountOfKind(ps, p, k) <= Limit(k).value;
    }
  }

  /** Replacing a piece by one with the same owner and kind, or a structure by a structure, changes no unit count. */
  lemma LimitsAfterReplacement(ps: Pieces, id: PieceId, piece: Piece)
    requires LimitsOk(ps) && id in ps.at
    requires (ps.at[id].owner == piece.owner && ps.at[id].kind == piece.kind)
             || (!IsUnit(ps.at[id].kind) && !IsUnit(piece.kind))
    ensures LimitsOk(SetPiece(ps, id, piece))
  {
    forall p: PlayerId, k: Kind | IsUnit(k) ensures CountOfKind(SetPiece(ps, id, piece), p, k) <= Limit(k).value {
      OfKindReadsOwnerAndKind(ps.order, ps.at, ps.at[id := piece], p, k);
      assert CountOfKind(ps, p, k) <= Limit(k).value;
    }
  }

  lemma CountAfterPlacing(ps: Pieces, id: PieceId, piece: Piece, p: PlayerId, k: Kind)
    requires ValidPieces(ps) && id !in ps.at
    ensures CountOfKind(SetPiece(ps, id, piece), p, k) ==
            CountOfKind(ps, p, k) + if piece.owner == p && piece.kind == k then 1 else 0
  {
    var at' := ps.at[id := piece];
    OfKindReadsOwnerAndKind(ps.order, ps.at, at', p, k);
    OfKindAppend(ps.order, id, at', p, k);
  }

  lemma LimitsAfterPlacing(ps: Pieces, id: PieceId, piece: Piece)
    requires LimitsOk(ps) && ValidPieces(ps) && id !in ps.at
    requires IsUnit(piece.kind) ==> CountOfKind(ps, piece.owner, piece.kind) < Limit(piece.kind).value
    ensures LimitsOk(SetPiece(ps, id, piece))
  {
    hide CountOfKind, SetPiece;
    forall p: PlayerId, k: Kind | IsUnit(k) ensures CountOfKind(SetPiece(ps, id, piece), p, k) <= Limit(k).value {
      CountAfterPlacing(ps, id, piece, p, k);
      assert CountOfKind(ps, p, k) <= Limit(k).value;
    }
  }

  // ---- Pieces come, change and go ---------------------------------------------------------------

  lemma NoStructureThere(ps: Pieces, tile: Coord)
    requires ValidPieces(ps) && StructureOnTile(ps, tile, Structures).None?
    ensures forall id <- ps.at.Keys :: ps.at[id].tile == tile ==> IsUnit(ps.at[id].kind)
  {
    hide StructureOnTile, ValidPieces;
    StructureQueryIsExact(ps, tile, Structures);
    forall id <- ps.at.Keys | ps.at[id].tile == tile ensures IsUnit(ps.at[id].kind) {
      assert !Matches(ps.at[id], tile, None, Structures);
    }
  }

  /** A piece under an unused id, on a tile its owner holds, where it may stand. */
  lemma AddingKeepsPieces(ps: Pieces, ownership: map<Coord, PlayerId>, issued: nat, id: PieceId, piece: Piece,
                          issued': nat)
    requires PiecesOk(ps, ownership, issued) && HeldBy(ownership, piece.owner, piece.tile)
    requires IsUnit(piece.kind) || StructureOnTile(ps, piece.tile, Structures).None?
    requires id !in ps.at && issued <= issued' && (id.Generated? ==> id.n <= issued')
    ensures PiecesOk(SetPiece(ps, id, piece), ownership, issued')
  {
    hide IsUnit, StructureOnTile, HeldBy;
    SetPieceKeepsValid(ps, id, piece);
    if !IsUnit(piece.kind) {
      NoStructureThere(ps, piece.tile);
    }
    hide ValidPieces;
    var after := SetPiece(ps, id, piece);
    forall a <- after.at.Keys, b <- after.at.Keys | SameSite(after, a, b) ensures a == b {
      if a != id && b != id {
        assert SameSite(ps, a, b);
      }
    }
  }

  lemma NextIdIsFresh(ps: Pieces, ownership: map<Coord, PlayerId>, issued: nat)
    requires PiecesOk(ps, ownership, issued)
    ensures Generated(issued + 1) !in ps.at
  {
  }

  lemma PlacingKeepsCapitals(active: set<PlayerId>, capitals: map<PlayerId, Coord>, ownership: map<Coord, PlayerId>,
                             ps: Pieces, id: PieceId, piece: Piece)
    requires CapitalsOk(active, capitals, ownership, ps) && piece.kind != CapitalBase
    requires id in ps.at ==> ps.at[id].kind != CapitalBase
    ensures CapitalsOk(active, capitals, ownership, SetPiece(ps, id, piece))
  {
    hide HeldBy;
    var after := SetPiece(ps, id, piece);
    forall p | p in active ensures HasCapital(capitals, ownership, after, p) {
      assert HasCapital(capitals, ownership, ps, p);
    }
  }

  lemma RemovalKeepsPieces(ps: Pieces, ownership: map<Coord, PlayerId>, issued: nat, gone: set<PieceId>)
    requires PiecesOk(ps, ownership, issued)
    ensures PiecesOk(Without(ps, gone), ownership, issued)
  {
    hide IsUnit, HeldBy;
    WithoutKeepsValid(ps, gone);
    hide ValidPieces;
    var after := Without(ps, gone);
    forall a <- after.at.Keys, b <- after.at.Keys | SameSite(after, a, b) ensures a == b {
      assert SameSite(ps, a, b);
    }
  }

  lemma RemovalKeepsCapitals(active: set<PlayerId>, capitals: map<PlayerId, Coord>, ownership: map<Coord, PlayerId>,
                             ps: Pieces, gone: set<PieceId>)
    requires CapitalsOk(active, capitals, ownership, ps)
    requires forall id <- gone :: id in ps.at ==> ps.at[id].kind != CapitalBase
    ensures CapitalsOk(active, capitals, ownership, Without(ps, gone))
  {
    hide HeldBy;
    forall p | p in active ensures HasCapital(capitals, ownership, Without(ps, gone), p) {
      assert HasCapital(capitals, ownership, ps, p);
    }
  }

  lemma ReplacingKeepsPieces(ps: Pieces, ownership: map<Coord, PlayerId>, issued: nat, id: PieceId, piece: Piece)
    requires PiecesOk(ps, ownership, issued) && id in ps.at && HeldBy(ownership, piece.owner, piece.tile)
    requires IsUnit(piece.kind)
    ensures PiecesOk(SetPiece(ps, id, piece), ownership, issued)
  {
    hide IsUnit, HeldBy;
    SetPieceKeepsValid(ps, id, piece);
    hide ValidPieces;
    var after := SetPiece(ps, id, piece);
    forall a <- after.at.Keys, b <- after.at.Keys | SameSite(after, a, b) ensures a == b {
      assert a != id && b != id;
      assert SameSite(ps, a, b);
    }
  }

  // ---- Recruit, build, move, demolish, develop ----------------------------------------------------

  /** Placing a fresh piece on an own tile keeps the invariant, for a unit under its limit or a structure
      on a tile without one. */
  lemma PlacingKeepsInv(s: State, piece: Piece)
    requires Inv(s) && Owns(s, piece.owner, piece.tile) && piece.kind != CapitalBase
    requires if IsUnit(piece.kind) then CountOfKind(s.pieces, piece.owner, piece.kind) < Limit(piece.kind).value
             else StructureOnTile(s.pieces, piece.tile, Structures).None?
    ensures Generated(s.nextPieceId + 1) !in s.pieces.at
    ensures Inv(PlaceNew(s, piece))
  {
    hide BoardOk, RosterOk, LandOk, PiecesOk, CapitalsOk, StocksOk, LoyaltyOk, TrackersOk, LimitsOk,
         IsUnit, CountOfKind, StructureOnTile, SetPiece, ValidPieces;
    ValidFromOk(s.pieces, s.ownership, s.nextPieceId);
    NextIdIsFresh(s.pieces, s.ownership, s.nextPieceId);
    AddingKeepsPieces(s.pieces, s.ownership, s.nextPieceId, Generated(s.nextPieceId + 1), piece, s.nextPieceId + 1);
    PlacingKeepsCapitals(ActiveIds(s.roster), s.capitals, s.ownership, s.pieces, Generated(s.nextPieceId + 1), piece);
    LimitsAfterPlacing(s.pieces, Generated(s.nextPieceId + 1), piece);
  }

  lemma ValidFromOk(ps: Pieces, ownership: map<Coord, PlayerId>, issued: nat)
    requires PiecesOk(ps, ownership, issued)
    ensures ValidPieces(ps)
  {
  }

  lemma PayingKeepsInv(s: State, p: PlayerId, cost: Stock)
    requires Inv(s) && CanPay(s, p, cost)
    ensures Inv(Pay(s, p, cost))
  {
    hide BoardOk, RosterOk, LandOk, PiecesOk, CapitalsOk, LoyaltyOk, TrackersOk, LimitsOk;
  }

  lemma CreditKeepsInv(s: State, p: PlayerId, stock: Stock)
    requires Inv(s) && p in s.stocks && NonNegative(stock)
    ensures Inv(s.(stocks := s.stocks[p := Plus(s.stocks[p], stock)]))
  {
    hide BoardOk, RosterOk, LandOk, PiecesOk, CapitalsOk, LoyaltyOk, TrackersOk, LimitsOk;
  }

  /** What a passed guard means. */
  lemma GuardPassed(s: State, player: Option<PlayerId>)
    requires Inv(s)
    ensures Guard(s, player).None? <==> player == Some(TurnHolder(s))
    ensures TurnHolder(s) in s.stocks && TurnHolder(s) in ActiveIds(s.roster)
  {
    hide BoardOk, LimitsOk, PiecesOk, LandOk, CapitalsOk, LoyaltyOk, TrackersOk, Roster, IsEliminated;
    ReadRoster(s, TurnHolder(s));
    ActiveAreInRoster(s.roster);
    var x :| x in s.roster && x.id == TurnHolder(s);
  }

  lemma RecruitKeepsInv(s: State, p: PlayerId, tile: Coord, kind: Kind)
    requires Inv(s) && p in s.stocks && ValidateRecruit(s, p, tile, kind).None?
    ensures ExecuteRecruit(s, p, tile, kind).Done? && Inv(ExecuteRecruit(s, p, tile, kind).state)
  {
    hide Inv, CountOfKind, RecruitCost, Supplied, StructureOnTile;
    var cost := RecruitCost(kind, CountOfKind(s.pieces, p, kind));
    PayingKeepsInv(s, p, cost);
    PlacingKeepsInv(Pay(s, p, cost), Piece(kind, p, tile));
  }

  lemma BuildKeepsInv(s: State, p: PlayerId, tile: Coord, kind: Kind)
    requires Inv(s) && p in s.stocks && ValidateBuild(s, p, tile, kind).None?
    ensures ExecuteBuild(s, p, tile, kind).Done? && Inv(ExecuteBuild(s, p, tile, kind).state)
  {
    hide Inv, CountOfKind, Supplied, StructureOnTile;
    PayingKeepsInv(s, p, Cost(kind));
    PlacingKeepsInv(Pay(s, p, Cost(kind)), Piece(kind, p, tile));
  }

  lemma DevelopKeepsInv(s: State, p: PlayerId, tile: Coord)
    requires Inv(s) && p in s.stocks && ValidateDevelop(s, p, tile).None?
    ensures ExecuteDevelop(s, p, tile).Done? && Inv(ExecuteDevelop(s, p, tile).state)
  {
    hide BoardOk, RosterOk, LandOk, PiecesOk, CapitalsOk, LoyaltyOk, LimitsOk, Supplied, EffectiveResource;
    var cost := Stock(0, 0, 0, DEVELOP_COST);
    assert NonNegative(s.stocks[p]);
    PayingKeepsInv(s, p, cost);
    NoDupConcat(s.developed, [tile]);
  }

  lemma MoveKeepsInv(s: State, p: PlayerId, id: PieceId, target: Coord)
    requires Inv(s) && ValidateMove(s, p, id, target).None?
    ensures ExecuteMove(s, p, id, target).Done? && Inv(ExecuteMove(s, p, id, target).state)
  {
    hide BoardOk, RosterOk, LandOk, PiecesOk, CapitalsOk, StocksOk, LoyaltyOk, TrackersOk, LimitsOk,
         Supplied, SetPiece;
    var piece := s.pieces.at[id].(tile := target);
    ReplacingKeepsPieces(s.pieces, s.ownership, s.nextPieceId, id, piece);
    PlacingKeepsCapitals(ActiveIds(s.roster), s.capitals, s.ownership, s.pieces, id, piece);
    LimitsAfterReplacement(s.pieces, id, piece);
  }

  /** Removing pieces that are no capital bases keeps the invariant. */
  lemma RemovalKeepsInv(s: State, gone: set<PieceId>)
    requires Inv(s)
    requires forall id <- gone :: id in s.pieces.at ==> s.pieces.at[id].kind != CapitalBase
    ensures Inv(s.(pieces := Without(s.pieces, gone)))
  {
    hide BoardOk, RosterOk, LandOk, PiecesOk, CapitalsOk, StocksOk, LoyaltyOk, TrackersOk, LimitsOk, Without;
    RemovalKeepsPieces(s.pieces, s.ownership, s.nextPieceId, gone);
    RemovalKeepsCapitals(ActiveIds(s.roster), s.capitals, s.ownership, s.pieces, gone);
    LimitsAfterRemoval(s.pieces, gone);
  }

  lemma DemolishKeepsInv(s: State, p: PlayerId, tile: Coord)
    requires Inv(s) && p in s.stocks && ValidateDemolish(s, p, tile).None?
    ensures ExecuteDemolish(s, p, tile).Done? && Inv(ExecuteDemolish(s, p, tile).state)
  {
    hide Inv, StructureOnTile, Without;
    var found := StructureOnTile(s.pieces, tile, Structures);
    var kind := s.pieces.at[found.value].kind;
    RemovalKeepsInv(s, {found.value});
    CreditKeepsInv(s.(pieces := Without(s.pieces, {found.value})), p, Refund(kind));
  }
}
