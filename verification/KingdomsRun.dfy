/** Whole Kingdoms runs: the end of a turn, setup, and what holds in every reachable state. */
module KingdomsRun {
  import opened Collections
  import opened Hex
  import opened Board
  import opened KingdomsMap
  import opened Rounds
  import opened KingdomsState
  import opened KingdomsEconomy
  import opened KingdomsRules
  import opened KingdomsInvariant
  import opened KingdomsConquest

  // ---- End of turn ----------------------------------------------------------------------

  lemma SeatOrderListsActive(roster: seq<Player>)
    ensures (set p | p in ActiveInSeatOrder(roster)) == ActiveIds(roster)
  {
    var listed := ActiveInSeatOrder(roster);
    forall p ensures p in listed <==> p in ActiveIds(roster) {
      if p in ActiveIds(roster) {
        var x :| x in roster && x.status == Active && x.id == p;
        assert x in ActiveOnly(roster);
        var i :| 0 <= i < |ActiveOnly(roster)| && ActiveOnly(roster)[i] == x;
        assert listed[i] == p;
      }
      if p in listed {
        var i :| 0 <= i < |listed| && listed[i] == p;
        assert ActiveOnly(roster)[i] in roster;
      }
    }
  }

  lemma {:induction false} ActiveOnlyIsDistinct(roster: seq<Player>)
    requires forall i, j :: 0 <= i < j < |roster| ==> roster[i].id != roster[j].id
    ensures forall i, j :: 0 <= i < j < |ActiveOnly(roster)| ==> ActiveOnly(roster)[i].id != ActiveOnly(roster)[j].id
  {
    if roster != [] {
      ActiveOnlyIsDistinct(roster[1..]);
      var rest := ActiveOnly(roster[1..]);
      forall j | 0 <= j < |rest| ensures rest[j].id != roster[0].id {
        assert rest[j] in roster[1..];
      }
    }
  }

  lemma SeatOrderIsDistinct(roster: seq<Player>)
    requires Roster(roster)
    ensures NoDup(ActiveInSeatOrder(roster))
  {
    ActiveOnlyIsDistinct(roster);
  }

  lemma TurnMovesOn(roster: seq<Player>, rounds: RoundState)
    requires RosterOk(roster, rounds.turn.activePlayer)
    ensures EndTurn(rounds, roster, COMMAND_PHASE).Some?
    ensures RosterOk(roster, EndTurn(rounds, roster, COMMAND_PHASE).value.0.turn.activePlayer)
  {
    hide Roster, ClockwiseNext, SeatOf;
    ClockwiseNamesActivePlayer(rounds.turn.activePlayer, roster);
    var holder :| holder in roster && holder.status == Active;
  }

  lemma SolventFromOk(s: State)
    requires StocksOk(s.stocks, RosterIds(s.roster))
    ensures NobodyInDebt(s)
  {
  }

  lemma SettlingKeepsStocks(s: State, ps: set<PlayerId>)
    requires StocksOk(s.stocks, RosterIds(s.roster)) && BoardOk(s.board)
    ensures StocksOk(SettledStocks(s, ps), RosterIds(s.roster))
  {
    hide Cycle, Income, FoodCost, NonNegative;
    forall p | p in s.stocks ensures NonNegative(SettledStocks(s, ps)[p]) {
      if p in ps {
        IncomeIsNonNegative(LandOf(s), p);
        CycleIsSolvent(s.stocks[p], Income(LandOf(s), p), FoodCost(LandOf(s), p));
      }
    }
  }

  lemma RecoveryKeepsLoyalty(loyalty: map<Coord, Loyalty>, ownership: map<Coord, PlayerId>, board: GameMap<Tile>)
    requires LoyaltyOk(loyalty, ownership, board)
    ensures LoyaltyOk(Recovered(loyalty), ownership, board)
  {
  }

  /** The state the round end leaves: only stocks change. */
  lemma RoundEndSettles(s: State)
    requires Inv(s)
    ensures RoundEnd(s).0 == s.(stocks := SettledStocks(s, ActiveIds(s.roster)))
    ensures Inv(RoundEnd(s).0)
  {
    hide BoardOk, RosterOk, LandOk, PiecesOk, CapitalsOk, StocksOk, LoyaltyOk, TrackersOk, LimitsOk,
         ProcessPlayers, SettledStocks, RoundEvents, Disconnections, ActiveInSeatOrder, Roster;
    RosterFromOk(s.roster, TurnHolder(s));
    SeatOrderIsDistinct(s.roster);
    SolventFromOk(s);
    RoundEndIsSimultaneous(s, ActiveInSeatOrder(s.roster));
    SeatOrderListsActive(s.roster);
    SettlingKeepsStocks(s, ActiveIds(s.roster));
  }

  lemma RosterFromOk(roster: seq<Player>, holder: PlayerId)
    requires RosterOk(roster, holder)
    ensures Roster(roster)
  {
  }

  lemma TurnedKeepsInv(s: State, rounds: RoundState, newRound: bool)
    requires Inv(s) && EndTurn(s.rounds, s.roster, COMMAND_PHASE) == Some((rounds, newRound))
    ensures Inv(s.(moved := [], attackedFrom := [], rounds := rounds))
  {
    hide BoardOk, RosterOk, LandOk, PiecesOk, CapitalsOk, StocksOk, LoyaltyOk, LimitsOk, EndTurn;
    TurnMovesOn(s.roster, s.rounds);
  }

  lemma FinishKeepsInv(s: State, p: PlayerId)
    requires Inv(s)
    ensures ExecuteFinishTurn(s, p).Done? && Inv(ExecuteFinishTurn(s, p).state)
  {
    hide BoardOk, RosterOk, LandOk, PiecesOk, CapitalsOk, StocksOk, LoyaltyOk, LimitsOk, EndTurn, RoundEnd, Recovered;
    TurnMovesOn(s.roster, s.rounds);
    var (rounds, newRound) := EndTurn(s.rounds, s.roster, COMMAND_PHASE).value;
    TurnedKeepsInv(s, rounds, newRound);
    var turned := s.(moved := [], attackedFrom := [], rounds := rounds);
    if newRound {
      RoundEndSettles(turned);
      var settled := RoundEnd(turned).0;
      RecoveryKeepsLoyalty(settled.loyalty, settled.ownership, settled.board);
    }
  }

  // ---- Every accepted action -------------------------------------------------------------

  /** An accepted action never throws and keeps the invariant. */
  lemma AcceptedActionKeepsInv(s: State, c: Command)
    requires Inv(s) && Validate(s, c).None?
    ensures Execute(s, c).Done? && Inv(Execute(s, c).state)
  {
    hide Inv, Guard, ValidateRecruit, ValidateMove, ValidateAttack, ValidateBuild, ValidateDemolish, ValidateDevelop,
         ExecuteRecruit, ExecuteMove, ExecuteAttack, ExecuteBuild, ExecuteDemolish, ExecuteDevelop, ExecuteFinishTurn;
    GuardPassed(s, c.player);
    var p := c.player.value;
    match c.action
    case RecruitUnit(tile, kind) => RecruitKeepsInv(s, p, tile, kind);
    case MoveUnit(id, target) => MoveKeepsInv(s, p, id, target);
    case AttackTile(from, to, unitIds) => AttackKeepsInv(s, p, from, to, unitIds);
    case BuildStructure(tile, kind) => BuildKeepsInv(s, p, tile, kind);
    case DemolishStructure(tile) => DemolishKeepsInv(s, p, tile);
    case DevelopTile(tile) => DevelopKeepsInv(s, p, tile);
    case FinishTurn => FinishKeepsInv(s, p);
  }

  // ---- Setup -------------------------------------------------------------------------------

  /** Seating the players: everybody is in the game, and the lowest seat starts. */
  lemma SeatedRoster(players: seq<Player>, board: GameMap<Tile>, rng: bv32)
    requires Roster(players) && players != []
    ensures var s := Fresh(players, board, rng);
            && Roster(s.roster) && |s.roster| == |players| && LowestFirst(s.roster, TurnHolder(s))
            && RosterIds(s.roster) == RosterIds(players) == ActiveIds(s.roster)
  {
    Seated(players);
  }

  function FirstIds(players: seq<Player>, n: nat): set<PlayerId>
    requires n <= |players|
  {
    set i | 0 <= i < n :: players[i].id
  }

  function IdOwner(id: PieceId): Option<PlayerId> {
    match id
    case CapitalId(p) => Some(p)
    case SpearmanId(p, _) => Some(p)
    case NobleId(p) => Some(p)
    case Generated(_) => None
  }

  /** Every piece so far carries its owner's name, and its owner is among those already placed. */
  ghost predicate NamedAfterOwner(ps: Pieces, placed: set<PlayerId>) {
    forall id <- ps.at.Keys :: IdOwner(id) == Some(ps.at[id].owner) && ps.at[id].owner in placed
  }

  lemma AddingKeepsNames(ps: Pieces, placed: set<PlayerId>, id: PieceId, piece: Piece)
    requires NamedAfterOwner(ps, placed) && IdOwner(id) == Some(piece.owner) && piece.owner in placed
    ensures NamedAfterOwner(SetPiece(ps, id, piece), placed)
  {
  }

  lemma {:induction false} NothingOwned(order: seq<PieceId>, at: map<PieceId, Piece>, p: PlayerId, k: Kind)
    requires forall id <- at.Keys :: at[id].owner != p
    ensures OfKind(order, at, p, k) == []
  {
    if order != [] {
      NothingOwned(order[1..], at, p, k);
    }
  }

  lemma ClaimKeepsPieces(ps: Pieces, ownership: map<Coord, PlayerId>, issued: nat, p: PlayerId, home: Coord)
    requires PiecesOk(ps, ownership, issued) && home !in ownership
    ensures PiecesOk(ps, ownership[home := p], issued)
    ensures StructureOnTile(ps, home, Structures).None?
  {
    hide IsUnit, SameSite, StructureOnTile, ValidPieces;
    StructureQueryIsExact(ps, home, Structures);
  }

  /** The four starting pieces of one more player on an unclaimed tile. */
  lemma StartingPiecesAreOk(ps: Pieces, ownership: map<Coord, PlayerId>, issued: nat, placed: set<PlayerId>,
                            p: PlayerId, home: Coord)
    requires PiecesOk(ps, ownership, issued) && NamedAfterOwner(ps, placed) && LimitsOk(ps)
    requires home !in ownership && p !in placed
    ensures var after := StartingPieces(ps, p, home);
            && PiecesOk(after, ownership[home := p], issued) && NamedAfterOwner(after, placed + {p}) && LimitsOk(after)
  {
    hide PiecesOk, StructureOnTile, LimitsOk, OfKind, NamedAfterOwner, SetPiece, ValidPieces;
    Unnamed(ps, placed, p);
    ClaimKeepsPieces(ps, ownership, issued, p, home);
    NothingOwned(ps.order, ps.at, p, Spearman);
    NothingOwned(ps.order, ps.at, p, Noble);
    var land := ownership[home := p];
    MoreNames(ps, placed, p);
    var a := Add(ps, land, issued, placed + {p}, CapitalId(p), Piece(CapitalBase, p, home));
    var b := Add(a, land, issued, placed + {p}, SpearmanId(p, 1), Piece(Spearman, p, home));
    var c := Add(b, land, issued, placed + {p}, SpearmanId(p, 2), Piece(Spearman, p, home));
    var d := Add(c, land, issued, placed + {p}, NobleId(p), Piece(Noble, p, home));
  }

  lemma Unnamed(ps: Pieces, placed: set<PlayerId>, p: PlayerId)
    requires NamedAfterOwner(ps, placed) && p !in placed
    ensures forall id :: IdOwner(id) == Some(p) ==> id !in ps.at
    ensures forall id <- ps.at.Keys :: ps.at[id].owner != p
  {
  }

  lemma MoreNames(ps: Pieces, placed: set<PlayerId>, p: PlayerId)
    requires NamedAfterOwner(ps, placed)
    ensures NamedAfterOwner(ps, placed + {p})
  {
  }

  lemma Add(ps: Pieces, land: map<Coord, PlayerId>, issued: nat, placed: set<PlayerId>, id: PieceId, piece: Piece)
      returns (after: Pieces)
    requires PiecesOk(ps, land, issued) && NamedAfterOwner(ps, placed) && LimitsOk(ps)
    requires HeldBy(land, piece.owner, piece.tile) && id !in ps.at
    requires IdOwner(id) == Some(piece.owner) && piece.owner in placed
    requires if IsUnit(piece.kind) then CountOfKind(ps, piece.owner, piece.kind) < Limit(piece.kind).value
             else StructureOnTile(ps, piece.tile, Structures).None?
    ensures after == SetPiece(ps, id, piece)
    ensures PiecesOk(after, land, issued) && NamedAfterOwner(after, placed) && LimitsOk(after)
    ensures forall p, k :: CountOfKind(after, p, k) ==
                           CountOfKind(ps, p, k) + if piece.owner == p && piece.kind == k then 1 else 0
    ensures after.at == ps.at[id := piece]
  {
    hide PiecesOk, StructureOnTile, LimitsOk, CountOfKind, NamedAfterOwner, ValidPieces, IsUnit;
    ValidFromOk(ps, land, issued);
    after := SetPiece(ps, id, piece);
    AddingKeepsPieces(ps, land, issued, id, piece, issued);
    AddingKeepsNames(ps, placed, id, piece);
    LimitsAfterPlacing(ps, id, piece);
    forall p, k ensures CountOfKind(after, p, k) ==
                        CountOfKind(ps, p, k) + if piece.owner == p && piece.kind == k then 1 else 0
    {
      CountAfterPlacing(ps, id, piece, p, k);
    }
  }

  ghost predicate CornersOn(board: GameMap<Tile>, n: nat) {
    forall c <- StartingCoords(n) :: c in board.tiles
  }

  function Homes(players: seq<Player>, n: nat): set<Coord>
    requires n <= |players| && n <= |StartingCoords(|players|)|
  {
    set i | 0 <= i < n :: StartingCoords(|players|)[i]
  }

  /** What holds when the first n players have been placed. */
  ghost predicate SetUpTo(s: State, players: seq<Player>, n: nat)
    requires n <= |players| && n <= |StartingCoords(|players|)|
  {
    && PiecesOk(s.pieces, s.ownership, s.nextPieceId)
    && NamedAfterOwner(s.pieces, FirstIds(players, n)) && LimitsOk(s.pieces)
    && CapitalsOk(FirstIds(players, n), s.capitals, s.ownership, s.pieces)
    && LandOk(s.board, s.ownership, FirstIds(players, n)) && s.ownership.Keys == Homes(players, n)
    && StocksOk(s.stocks, RosterIds(players)) && StartingStocks(s.stocks, players, n)
  }

  ghost predicate StartingStocks(stocks: map<PlayerId, Stock>, players: seq<Player>, n: nat) {
    && (forall p <- players :: p.id in stocks)
    && forall i :: 0 <= i < |players| ==>
                     stocks[players[i].id] == if i < n then STARTING_STOCK else Stock(0, 0, 0, 0)
  }

  lemma NextHome(players: seq<Player>, n: nat)
    requires 0 < n <= |players| && n <= |StartingCoords(|players|)| && Roster(players)
    ensures var p, home := players[n - 1].id, StartingCoords(|players|)[n - 1];
            && home !in Homes(players, n - 1) && Homes(players, n) == Homes(players, n - 1) + {home}
            && p !in FirstIds(players, n - 1) && FirstIds(players, n) == FirstIds(players, n - 1) + {p}
  {
    assert NoDup(StartingCoords(|players|));
    hide StartingCoords;
    var p, home := players[n - 1].id, StartingCoords(|players|)[n - 1];
    forall c ensures c in Homes(players, n) <==> c in Homes(players, n - 1) + {home} {
    }
    forall q ensures q in FirstIds(players, n) <==> q in FirstIds(players, n - 1) + {p} {
    }
  }

  lemma StartingPiecesKeepCapitals(active: set<PlayerId>, capitals: map<PlayerId, Coord>,
                                   ownership: map<Coord, PlayerId>, ps: Pieces, p: PlayerId, home: Coord)
    requires CapitalsOk(active, capitals, ownership, ps) && home !in ownership && p !in active
    ensures CapitalsOk(active + {p}, capitals[p := home], ownership[home := p], StartingPieces(ps, p, home))
  {
    var after := StartingPieces(ps, p, home);
    forall q | q in active + {p} ensures HasCapital(capitals[p := home], ownership[home := p], after, q) {
      assert q in active ==> HasCapital(capitals, ownership, ps, q);
    }
  }

  lemma LandGrows(board: GameMap<Tile>, ownership: map<Coord, PlayerId>, active: set<PlayerId>, p: PlayerId, home: Coord)
    requires LandOk(board, ownership, active) && home in board.tiles
    ensures LandOk(board, ownership[home := p], active + {p})
  {
  }

  lemma StocksAfterOne(before: map<PlayerId, Stock>, after: map<PlayerId, Stock>, players: seq<Player>, n: nat)
    requires 0 < n <= |players| && Roster(players) && StocksOk(before, RosterIds(players))
    requires StartingStocks(before, players, n - 1)
    requires after == before[players[n - 1].id := Plus(before[players[n - 1].id], STARTING_STOCK)]
    ensures StocksOk(after, RosterIds(players)) && StartingStocks(after, players, n)
  {
    assert after[players[n - 1].id] == STARTING_STOCK;
  }

  lemma PlacingNext(before: State, players: seq<Player>, n: nat)
    requires 0 < n <= |players| && n <= |StartingCoords(|players|)| && Roster(players)
    requires CornersOn(before.board, |players|) && SetUpTo(before, players, n - 1)
    requires players[n - 1].id in before.stocks
    ensures SetUpTo(PlaceOne(before, players[n - 1].id, StartingCoords(|players|)[n - 1]), players, n)
  {
    hide PiecesOk, NamedAfterOwner, LimitsOk, CapitalsOk, LandOk, StocksOk, StartingPieces, Roster, StartingCoords,
         Homes, FirstIds, StartingStocks, Plus;
    var after := PlaceOne(before, players[n - 1].id, StartingCoords(|players|)[n - 1]);
    var p, home := players[n - 1].id, StartingCoords(|players|)[n - 1];
    NextHome(players, n);
    StartingPiecesAreOk(before.pieces, before.ownership, before.nextPieceId, FirstIds(players, n - 1), p, home);
    StartingPiecesKeepCapitals(FirstIds(players, n - 1), before.capitals, before.ownership, before.pieces, p, home);
    LandGrows(before.board, before.ownership, FirstIds(players, n - 1), p, home);
    StocksAfterOne(before.stocks, after.stocks, players, n);
  }

  lemma {:induction false} PlacedIsSetUp(s: State, players: seq<Player>, n: nat)
    requires n <= |players| && n <= |StartingCoords(|players|)| && Roster(players)
    requires CornersOn(s.board, |players|) && SetUpTo(s, players, 0)
    requires forall p <- players :: p.id in s.stocks
    ensures SetUpTo(Placed(s, players, n), players, n)
    ensures var after := Placed(s, players, n);
            after == s.(pieces := after.pieces, ownership := after.ownership, capitals := after.capitals,
                        stocks := after.stocks)
  {
    hide SetUpTo, StartingCoords, StartingPieces, Roster, Plus, CornersOn;
    if n > 0 {
      PlacedIsSetUp(s, players, n - 1);
      PlacingNext(Placed(s, players, n - 1), players, n);
    }
  }

  lemma FreshIsSetUp(players: seq<Player>, board: GameMap<Tile>, rng: bv32)
    requires players != []
    ensures SetUpTo(Fresh(players, board, rng), players, 0)
  {
    hide SortBySeat, ActiveSortedBySeat;
    var s := Fresh(players, board, rng);
    forall i | 0 <= i < |players| ensures players[i].id in s.stocks {
      assert players[i] in players;
    }
    assert FirstIds(players, 0) == {};
  }

  lemma AllIds(players: seq<Player>)
    ensures FirstIds(players, |players|) == RosterIds(players)
  {
    forall p ensures p in RosterIds(players) <==> p in FirstIds(players, |players|) {
      if p in RosterIds(players) {
        var i :| 0 <= i < |players| && players[i].id == p;
      }
      if p in FirstIds(players, |players|) {
        var i :| 0 <= i < |players| && players[i].id == p;
        assert players[i] in players;
      }
    }
  }

  lemma SeatedRosterIsOk(players: seq<Player>, board: GameMap<Tile>, rng: bv32)
    requires Roster(players) && |players| >= 2 && forall p <- players :: p.id.text != ""
    ensures var s := Fresh(players, board, rng);
            && RosterOk(s.roster, TurnHolder(s))
            && ActiveIds(s.roster) == RosterIds(s.roster) == RosterIds(players)
  {
    SeatedRoster(players, board, rng);
    hide Roster, Fresh;
    var s := Fresh(players, board, rng);
    forall p | p in s.roster ensures p.id.text != "" {
      assert p.id in RosterIds(players);
    }
    var n: nat :| LowestActive(s.roster, n) && s.roster[n].id == TurnHolder(s);
    assert s.roster[n] in s.roster;
  }

  /** Setup establishes the invariant on every board that has the starting corners, gives each player the starting
      stock, and nothing else is on the table. */
  lemma SetupIsOk(players: seq<Player>, board: GameMap<Tile>, rng: bv32)
    requires Roster(players) && 2 <= |players| <= 4 && forall p <- players :: p.id.text != ""
    requires BoardOk(board) && CornersOn(board, |players|)
    ensures Inv(Setup(players, board, rng))
    ensures SetUpTo(Setup(players, board, rng), players, |players|)
  {
    hide BoardOk, RosterOk, LandOk, PiecesOk, CapitalsOk, StocksOk, LoyaltyOk, LimitsOk, Roster,
         NamedAfterOwner, StartingCoords, Homes, FirstIds, Placed, ActiveSortedBySeat, SortBySeat, CornersOn;
    assert |StartingCoords(|players|)| == |players|;
    var s := Fresh(players, board, rng);
    FreshIsSetUp(players, board, rng);
    SeatedRosterIsOk(players, board, rng);
    PlacedIsSetUp(s, players, |players|);
    AllIds(players);
    EmptyLoyalty(Setup(players, board, rng).ownership, board);
  }

  /** The four pieces every player starts with on its home tile. */
  ghost predicate HomePieces(s: State, p: PlayerId, home: Coord) {
    && CapitalId(p) in s.pieces.at && s.pieces.at[CapitalId(p)] == Piece(CapitalBase, p, home)
    && SpearmanId(p, 1) in s.pieces.at && s.pieces.at[SpearmanId(p, 1)] == Piece(Spearman, p, home)
    && SpearmanId(p, 2) in s.pieces.at && s.pieces.at[SpearmanId(p, 2)] == Piece(Spearman, p, home)
    && NobleId(p) in s.pieces.at && s.pieces.at[NobleId(p)] == Piece(Noble, p, home)
    && home in s.ownership && s.ownership[home] == p && p in s.capitals && s.capitals[p] == home
    && p in s.stocks && s.stocks[p] == Stock(10, 8, 6, 30)
  }

  /** One of those four ids. */
  predicate IsHomeId(p: PlayerId, id: PieceId) {
    id == CapitalId(p) || id == SpearmanId(p, 1) || id == SpearmanId(p, 2) || id == NobleId(p)
  }

  ghost predicate AtHome(s: State, players: seq<Player>, coords: seq<Coord>, n: nat)
    requires n <= |players| && n <= |coords|
  {
    && (forall i :: 0 <= i < n ==> HomePieces(s, players[i].id, coords[i]))
    && (forall id <- s.pieces.at.Keys :: exists i :: 0 <= i < n && IsHomeId(players[i].id, id))
    && (forall i :: n <= i < |players| ==> players[i].id in s.stocks && s.stocks[players[i].id] == Stock(0, 0, 0, 0))
  }

  lemma HomeIsPlaced(s: State, p: PlayerId, home: Coord, q: PlayerId, other: Coord)
    requires p in s.stocks && s.stocks[p] == Stock(0, 0, 0, 0)
    ensures HomePieces(PlaceOne(s, p, home), p, home)
    ensures HomePieces(s, q, other) && q != p && other != home ==> HomePieces(PlaceOne(s, p, home), q, other)
    ensures forall id <- PlaceOne(s, p, home).pieces.at.Keys :: id in s.pieces.at || IsHomeId(p, id)
    ensures forall r <- s.stocks.Keys :: r != p ==> r in PlaceOne(s, p, home).stocks && PlaceOne(s, p, home).stocks[r] == s.stocks[r]
  {
  }

  lemma NextAtHome(s: State, players: seq<Player>, coords: seq<Coord>, n: nat)
    requires 0 < n <= |players| && n <= |coords| && Roster(players) && NoDup(coords)
    requires AtHome(s, players, coords, n - 1)
    ensures players[n - 1].id in s.stocks && AtHome(PlaceOne(s, players[n - 1].id, coords[n - 1]), players, coords, n)
  {
    hide HomePieces, PlaceOne, IsHomeId, SeatsApart;
    var p, home := players[n - 1].id, coords[n - 1];
    var after := PlaceOne(s, p, home);
    forall i | 0 <= i < n ensures HomePieces(after, players[i].id, coords[i]) {
      HomeIsPlaced(s, p, home, players[i].id, coords[i]);
    }
    HomeIsPlaced(s, p, home, p, home);
    forall id | id in after.pieces.at.Keys ensures exists i :: 0 <= i < n && IsHomeId(players[i].id, id) {
      if id in s.pieces.at {
        var i :| 0 <= i < n - 1 && IsHomeId(players[i].id, id);
        assert 0 <= i < n && IsHomeId(players[i].id, id);
      } else {
        assert IsHomeId(players[n - 1].id, id);
      }
    }
  }

  lemma {:induction false} PlacedAtHome(s: State, players: seq<Player>, n: nat)
    requires n <= |players| && n <= |StartingCoords(|players|)| && Roster(players) && forall p <- players :: p.id in s.stocks
    requires AtHome(s, players, StartingCoords(|players|), 0)
    ensures AtHome(Placed(s, players, n), players, StartingCoords(|players|), n)
  {
    assert NoDup(StartingCoords(|players|));
    hide StartingCoords, Roster, AtHome, PlaceOne, Distance, NoDup;
    if n > 0 {
      PlacedAtHome(s, players, n - 1);
      NextAtHome(Placed(s, players, n - 1), players, StartingCoords(|players|), n);
    }
  }

  /** After setup every player has a capital base, two spearmen and a noble on its own corner and the same stock, and there
      is no other piece; ids are generated from 101 on, and nothing has been moved, attacked, developed or eroded. */
  lemma SetupPlacesPieces(players: seq<Player>, board: GameMap<Tile>, rng: bv32)
    requires Roster(players) && 2 <= |players| <= 4
    ensures |StartingCoords(|players|)| == |players|
    ensures var s := Setup(players, board, rng);
            && AtHome(s, players, StartingCoords(|players|), |players|)
            && s.nextPieceId == 100 && s.moved == [] && s.attackedFrom == [] && s.loyalty == map[] && s.developed == []
            && s.rng == rng && s.board == board && s.rounds.round == 1 && s.rounds.turn.turnNumber == 1
  {
    hide StartingCoords, Roster, Placed, ActiveSortedBySeat, SortBySeat, HomePieces, AtHome, Distance, NoDup;
    assert |StartingCoords(|players|)| == |players|;
    var s := Fresh(players, board, rng);
    assert forall p <- players :: p.id in RosterIds(players);
    NobodyAtHome(players, board, rng);
    PlacedAtHome(s, players, |players|);
    PlacedKeepsRest(s, players, |players|);
  }

  lemma NobodyAtHome(players: seq<Player>, board: GameMap<Tile>, rng: bv32)
    requires players != []
    ensures AtHome(Fresh(players, board, rng), players, StartingCoords(|players|), 0)
  {
    hide StartingCoords, ActiveSortedBySeat, SortBySeat, HomePieces;
    forall i | 0 <= i < |players| ensures players[i].id in RosterIds(players) {
      assert players[i] in players;
    }
  }

  lemma {:induction false} PlacedKeepsRest(s: State, players: seq<Player>, n: nat)
    requires n <= |players| && n <= |StartingCoords(|players|)| && forall p <- players :: p.id in s.stocks
    ensures var r := Placed(s, players, n);
            r == s.(pieces := r.pieces, ownership := r.ownership, capitals := r.capitals, stocks := r.stocks)
  {
    hide StartingCoords, StartingPieces;
    if n > 0 {
      PlacedKeepsRest(s, players, n - 1);
    }
  }

  lemma EmptyLoyalty(ownership: map<Coord, PlayerId>, board: GameMap<Tile>)
    ensures LoyaltyOk(map[], ownership, board)
  {
  }

  lemma KingdomsBoardIsOk(seed: seq<bv16>, n: nat)
    ensures BoardOk(KingdomsBoard(seed)) && CornersOn(KingdomsBoard(seed), n)
  {
    hide KingdomsBoard, Distance;
    EveryBoardHasTheSameMix(seed);
    forall t | t in KingdomsBoard(seed).tiles ensures KingdomsBoard(seed).tiles[t].economicValue >= 0 {
      TileContents(seed, t);
    }
    forall c | c in StartingCoords(n) ensures c in KingdomsBoard(seed).tiles {
      assert Distance(Coord(0, 0), c) == 4;
    }
  }

  // ---- Runs --------------------------------------------------------------------------------

  /** The state after a run of commands; a rejected one changes nothing.  None if an executor threw. */
  ghost function Play(s: State, cs: seq<Command>): Option<State> {
    if cs == [] then Some(s)
    else
      match Play(s, cs[..|cs| - 1])
      case None => None
      case Some(before) =>
        var c := cs[|cs| - 1];
        if Validate(before, c).Some? then Some(before)
        else match Execute(before, c)
             case Done(after, _) => Some(after)
             case Threw => None
  }

  lemma {:induction false} RunsKeepInv(s: State, cs: seq<Command>)
    requires Inv(s)
    ensures Play(s, cs).Some? && Inv(Play(s, cs).value)
  {
    hide Inv, Validate, Execute;
    if cs != [] {
      var init, c := cs[..|cs| - 1], cs[|cs| - 1];
      RunsKeepInv(s, init);
      var before := Play(s, init).value;
      if Validate(before, c).None? {
        AcceptedActionKeepsInv(before, c);
      }
    }
  }

  /** For every seed, every seating of 2 to 4 players and every run of commands whatsoever: no executor throws and
      the invariant holds at the end. */
  lemma EveryReachableStateIsOk(players: seq<Player>, seed: seq<bv16>, rng: bv32, cs: seq<Command>)
    requires Roster(players) && 2 <= |players| <= 4 && forall p <- players :: p.id.text != ""
    ensures var end := Play(Setup(players, KingdomsBoard(seed), rng), cs);
            end.Some? && Inv(end.value)
  {
    hide Inv, KingdomsBoard, Setup, Play, BoardOk, CornersOn, Roster;
    KingdomsBoardIsOk(seed, |players|);
    SetupIsOk(players, KingdomsBoard(seed), rng);
    RunsKeepInv(Setup(players, KingdomsBoard(seed), rng), cs);
  }

  // ---- Eliminations, victory and piece ids over a run ------------------------------------------

  /** What one accepted action may do to the roster and to the piece ids: nobody comes back, no id is reused. */
  ghost predicate Onward(s: State, t: State) {
    && RosterIds(t.roster) == RosterIds(s.roster) && ActiveIds(t.roster) <= ActiveIds(s.roster)
    && s.nextPieceId <= t.nextPieceId && NoReuse(s.pieces, s.nextPieceId, t.pieces)
  }

  ghost predicate NoReuse(before: Pieces, issued: nat, after: Pieces) {
    forall id <- after.at.Keys :: id in before.at || (id.Generated? && issued < id.n)
  }

  lemma OnwardAgain(s: State, t: State, u: State)
    requires Onward(s, t) && Onward(t, u)
    ensures Onward(s, u)
  {
  }

  lemma OccupationGoesOnward(s: State, p: PlayerId, to: Coord, structure: Option<PieceId>)
    requires Roster(s.roster)
    ensures Onward(s, Occupy(s, p, to, structure))
  {
    hide Roster, ActiveIds, RosterIds, EliminateFrom;
    if LoyaltyOf(s, to) <= LOYALTY_DAMAGE && TakesCapital(s, to) {
      EliminationShrinksActive(s.roster, s.ownership[to]);
    }
  }

  lemma AttackGoesOnward(s: State, p: PlayerId, from: Coord, to: Coord, unitIds: Option<seq<PieceId>>)
    requires Roster(s.roster) && ExecuteAttack(s, p, from, to, unitIds).Done?
    ensures Onward(s, ExecuteAttack(s, p, from, to, unitIds).state)
  {
    hide Roster, AttackForce, Battle, RngAfterBattle, StructureOnTile, OccupationEvents, Occupy, ActiveIds, RosterIds;
    var ids := AttackForce(s, p, from, unitIds);
    var fought := Fought(s, from, ids, to);
    OccupationGoesOnward(fought, p, to, StructureOnTile(s.pieces, to, Structures));
    OnwardAgain(s, fought, Occupy(fought, p, to, StructureOnTile(s.pieces, to, Structures)));
  }

  lemma FinishGoesOnward(s: State, p: PlayerId)
    requires Inv(s)
    ensures Onward(s, ExecuteFinishTurn(s, p).state)
  {
    hide Inv, EndTurn, RoundEnd, Recovered, ActiveIds, RosterIds;
    FinishKeepsInv(s, p);
    var (rounds, newRound) := EndTurn(s.rounds, s.roster, COMMAND_PHASE).value;
    if newRound {
      var turned := s.(moved := [], attackedFrom := [], rounds := rounds);
      TurnedKeepsInv(s, rounds, newRound);
      RoundEndSettles(turned);
    }
  }

  lemma ActionGoesOnward(s: State, c: Command)
    requires Inv(s) && Validate(s, c).None?
    ensures Execute(s, c).Done? && Onward(s, Execute(s, c).state)
  {
    hide Inv, Guard, ValidateRecruit, ValidateMove, ValidateAttack, ValidateBuild, ValidateDemolish, ValidateDevelop,
         ExecuteAttack, ExecuteFinishTurn, RecruitCost, CountOfKind, StructureOnTile, OrderWithout, EffectiveResource,
         ActiveIds, RosterIds, Onward;
    AcceptedActionKeepsInv(s, c);
    GuardPassed(s, c.player);
    HolderMayMove(s, c);
    RosterOfInv(s);
    var p := c.player.value;
    match c.action
    case AttackTile(from, to, unitIds) => AttackGoesOnward(s, p, from, to, unitIds);
    case FinishTurn => FinishGoesOnward(s, p);
    case _ => SimpleActionGoesOnward(s, c);
  }

  lemma RosterOfInv(s: State)
    requires Inv(s)
    ensures Roster(s.roster)
  {
    hide BoardOk, LandOk, PiecesOk, CapitalsOk, StocksOk, LoyaltyOk, TrackersOk, LimitsOk, Roster;
  }

  lemma HolderMayMove(s: State, c: Command)
    requires Validate(s, c).None?
    ensures c.action.MoveUnit? ==> c.action.piece in s.pieces.at
  {
    hide Guard, Supplied;
  }

  lemma SimpleActionGoesOnward(s: State, c: Command)
    requires !c.action.AttackTile? && !c.action.FinishTurn? && Execute(s, c).Done?
    requires c.action.MoveUnit? ==> c.action.piece in s.pieces.at
    ensures Onward(s, Execute(s, c).state)
  {
    hide ExecuteAttack, ExecuteFinishTurn, RecruitCost, CountOfKind, StructureOnTile, OrderWithout, EffectiveResource,
         ActiveIds, RosterIds;
  }

  lemma {:induction false} RunsGoOnward(s: State, cs: seq<Command>)
    requires Inv(s)
    ensures Play(s, cs).Some? && Inv(Play(s, cs).value) && Onward(s, Play(s, cs).value)
  {
    hide Inv, Validate, Execute, Onward;
    if cs == [] {
      OnwardFromHere(s);
    } else {
      var init, c := cs[..|cs| - 1], cs[|cs| - 1];
      RunsGoOnward(s, init);
      var before := Play(s, init).value;
      if Validate(before, c).None? {
        AcceptedActionKeepsInv(before, c);
        ActionGoesOnward(before, c);
        OnwardAgain(s, before, Execute(before, c).state);
      }
    }
  }

  lemma OnwardFromHere(s: State)
    ensures Onward(s, s)
  {
  }

  /** The game can always go on: the holder of the turn is in the game and may end it, and somebody survives. */
  lemma GameGoesOn(s: State)
    requires Inv(s)
    ensures TurnHolder(s) in ActiveIds(s.roster) && !IsEliminated(s.roster, TurnHolder(s))
    ensures var c := Command(Some(TurnHolder(s)), FinishTurn);
            Validate(s, c).None? && Execute(s, c).Done?
  {
    hide Inv, ExecuteFinishTurn, IsEliminated;
    GuardPassed(s, Some(TurnHolder(s)));
    FinishKeepsInv(s, TurnHolder(s));
  }

  /** The victory condition fires exactly when one player is left, and names that player; there is never a draw. */
  lemma VictoryIsLastSurvivor(s: State)
    requires Inv(s)
    ensures forall w :: LastPlayerStanding(s.roster) == Some(Victory(Some(w))) <==> ActiveIds(s.roster) == {w}
    ensures LastPlayerStanding(s.roster) != Some(Victory(None))
    ensures LastPlayerStanding(s.roster).None? <==> |ActiveIds(s.roster)| >= 2
  {
    hide BoardOk, LandOk, PiecesOk, CapitalsOk, StocksOk, LoyaltyOk, TrackersOk, LimitsOk, ActiveOnly;
    var survivors, ids := ActiveOnly(s.roster), ActiveInSeatOrder(s.roster);
    SeatOrderIsDistinct(s.roster);
    SeatOrderListsActive(s.roster);
    hide Roster;
    ElementsCount(ids);
    if |survivors| == 1 {
      assert ActiveIds(s.roster) == {ids[0]};
    }
  }

  // ---- Within a turn ---------------------------------------------------------------------------

  /** The accepted attacks of a run. */
  ghost function Attacks(s: State, cs: seq<Command>): nat {
    if cs == [] then 0
    else
      match Play(s, cs[..|cs| - 1])
      case None => 0
      case Some(before) =>
        var c := cs[|cs| - 1];
        Attacks(s, cs[..|cs| - 1]) + if c.action.AttackTile? && Validate(before, c).None? then 1 else 0
  }

  lemma OccupationKeepsTrackers(s: State, p: PlayerId, to: Coord, structure: Option<PieceId>)
    ensures Occupy(s, p, to, structure).attackedFrom == s.attackedFrom
  {
    hide EliminateFrom, Without, SetPiece, Neutralised, PiecesOwnedBy, LoyaltyOf;
  }

  lemma ActionCountsAttacks(s: State, c: Command)
    requires Inv(s) && Validate(s, c).None? && !c.action.FinishTurn? && Execute(s, c).Done?
    ensures |Execute(s, c).state.attackedFrom| == |s.attackedFrom| + if c.action.AttackTile? then 1 else 0
  {
    hide Inv, Validate, RecruitCost, CountOfKind, StructureOnTile, OrderWithout, EffectiveResource, AttackForce, Battle,
         RngAfterBattle, OccupationEvents, Occupy, ExecuteFinishTurn;
    if c.action.AttackTile? {
      var p, from, to := c.player.value, c.action.from, c.action.to;
      OccupationKeepsTrackers(Fought(s, from, AttackForce(s, p, from, c.action.unitIds), to), p, to,
                              StructureOnTile(s.pieces, to, Structures));
    }
  }

  lemma OneAttackAtMost(s: State)
    requires Inv(s)
    ensures |s.attackedFrom| <= 1
  {
    hide BoardOk, RosterOk, LandOk, PiecesOk, CapitalsOk, StocksOk, LoyaltyOk, LimitsOk;
  }

  /** A turn sees at most one accepted attack, whoever moves, builds or recruits in between. */
  lemma {:induction false} OneAttackPerTurn(s: State, cs: seq<Command>)
    requires Inv(s) && forall c <- cs :: !c.action.FinishTurn?
    ensures Play(s, cs).Some? && Attacks(s, cs) + |s.attackedFrom| == |Play(s, cs).value.attackedFrom| <= 1
  {
    hide Inv, Validate, Execute;
    RunsKeepInv(s, cs);
    OneAttackAtMost(Play(s, cs).value);
    if cs != [] {
      var init, c := cs[..|cs| - 1], cs[|cs| - 1];
      assert c in cs && forall x <- init :: x in cs;
      OneAttackPerTurn(s, init);
      RunsKeepInv(s, init);
      var before := Play(s, init).value;
      if Validate(before, c).None? {
        AcceptedActionKeepsInv(before, c);
        ActionCountsAttacks(before, c);
      }
    }
  }
}
