/**
 * The Kingdoms game state: pieces, resources, ownership and the per-turn trackers,
 * the queries the rules share, and the unit and structure tables.
 */
module KingdomsState {
  import opened Collections
  import opened Hex
  import opened Board
  import opened KingdomsMap
  import opened Rounds
  import opened Connectivity

  // ---- Pieces -----------------------------------------------------------------

  datatype Kind = Spearman | Cannoneer | Noble | CapitalBase | Farm | City | Castle | Gate

  /** The sets of kinds the rules select pieces by. */
  datatype KindSet = Units | CombatUnits | Structures | RecruitPosts

  predicate IsUnit(k: Kind) { k == Spearman || k == Cannoneer || k == Noble }

  predicate InKinds(k: Kind, kinds: KindSet) {
    match kinds
    case Units => IsUnit(k)
    case CombatUnits => k == Spearman || k == Cannoneer
    case Structures => !IsUnit(k)
    case RecruitPosts => k == CapitalBase || k == City
  }

  predicate IsBuildable(k: Kind) { !IsUnit(k) && k != CapitalBase }

  /** The ids handed out by setup, and the generated ones. */
  datatype PieceId =
    | CapitalId(owner: PlayerId)
    | SpearmanId(owner: PlayerId, index: nat)
    | NobleId(owner: PlayerId)
    | Generated(n: nat)

  datatype Piece = Piece(kind: Kind, owner: PlayerId, tile: Coord)

  /** The piece table: contents, and the insertion order its iteration follows. */
  datatype Pieces = Pieces(order: seq<PieceId>, at: map<PieceId, Piece>)

  ghost predicate ValidPieces(ps: Pieces) {
    NoDup(ps.order) && forall id :: id in ps.order <==> id in ps.at
  }

  function SetPiece(ps: Pieces, id: PieceId, piece: Piece): Pieces {
    Pieces(if id in ps.at then ps.order else ps.order + [id], ps.at[id := piece])
  }

  function OrderWithout(order: seq<PieceId>, gone: set<PieceId>): (r: seq<PieceId>)
    ensures forall id :: id in r <==> id in order && id !in gone
  {
    if order == [] then []
    else if order[0] in gone then OrderWithout(order[1..], gone)
    else [order[0]] + OrderWithout(order[1..], gone)
  }

  function Without(ps: Pieces, gone: set<PieceId>): Pieces {
    Pieces(OrderWithout(ps.order, gone), ps.at - gone)
  }

  predicate Matches(piece: Piece, tile: Coord, owner: Option<PlayerId>, kinds: KindSet) {
    InKinds(piece.kind, kinds) && piece.tile == tile && (owner.None? || owner.value == piece.owner)
  }

  /** The matching pieces in table order. */
  function Select(order: seq<PieceId>, at: map<PieceId, Piece>, tile: Coord, owner: Option<PlayerId>,
                  kinds: KindSet): (r: seq<PieceId>)
    ensures forall id :: id in r <==> id in order && id in at && Matches(at[id], tile, owner, kinds)
  {
    if order == [] then []
    else
      var rest := Select(order[1..], at, tile, owner, kinds);
      if order[0] in at && Matches(at[order[0]], tile, owner, kinds) then [order[0]] + rest else rest
  }

  function UnitsOnTile(ps: Pieces, tile: Coord, owner: Option<PlayerId>, kinds: KindSet): seq<PieceId> {
    Select(ps.order, ps.at, tile, owner, kinds)
  }

  /** The first structure of the given kinds on the tile, whoever owns it. */
  function StructureOnTile(ps: Pieces, tile: Coord, kinds: KindSet): (r: Option<PieceId>)
    ensures r.Some? ==> r.value in ps.at && Matches(ps.at[r.value], tile, None, kinds)
  {
    var found := Select(ps.order, ps.at, tile, None, kinds);
    if found == [] then None
    else
      assert found[0] in found;
      Some(found[0])
  }

  function OfKind(order: seq<PieceId>, at: map<PieceId, Piece>, p: PlayerId, kind: Kind): (r: seq<PieceId>)
    ensures forall id :: id in r <==> id in order && id in at && at[id].owner == p && at[id].kind == kind
  {
    if order == [] then []
    else
      var rest := OfKind(order[1..], at, p, kind);
      if order[0] in at && at[order[0]].owner == p && at[order[0]].kind == kind then [order[0]] + rest else rest
  }

  function CountOfKind(ps: Pieces, p: PlayerId, kind: Kind): nat {
    |OfKind(ps.order, ps.at, p, kind)|
  }

  // ---- Resources ----------------------------------------------------------------

  datatype Stock = Stock(wood: int, food: int, iron: int, gold: int)

  function Cost(kind: Kind): Stock {
    match kind
    case Spearman => Stock(0, 1, 0, 10)
    case Cannoneer => Stock(0, 0, 2, 20)
    case Noble => Stock(0, 1, 1, 8)
    case CapitalBase => Stock(0, 0, 0, 0)
    case Farm => Stock(2, 0, 0, 0)
    case City => Stock(3, 0, 2, 0)
    case Castle => Stock(4, 0, 3, 0)
    case Gate => Stock(2, 0, 1, 0)
  }

  /** None is no limit. */
  function Limit(kind: Kind): Option<nat> {
    match kind
    case Spearman => Some(20)
    case Cannoneer => Some(8)
    case Noble => Some(10)
    case CapitalBase => Some(1)
    case Farm => Some(5)
    case City => Some(3)
    case Castle => Some(3)
    case Gate => None
  }

  function Attack(kind: Kind): nat {
    match kind
    case Spearman => 3
    case Cannoneer => 8
    case _ => 1
  }

  function Upkeep(kind: Kind): nat {
    match kind
    case Spearman => 1
    case Cannoneer => 2
    case Noble => 1
    case City => 2
    case _ => 0
  }

  function DefenseMultiplier(kind: Kind): real {
    if kind == CapitalBase || kind == Castle then 2.0 else 1.0
  }

  function TerrainDefense(t: Terrain): real {
    match t
    case Plains => 1.0
    case Hills => 1.3
    case Forest => 1.5
    case Mountain => 2.0
  }

  predicate Affords(stock: Stock, cost: Stock) {
    stock.wood >= cost.wood && stock.food >= cost.food && stock.iron >= cost.iron && stock.gold >= cost.gold
  }

  function Plus(a: Stock, b: Stock): Stock {
    Stock(a.wood + b.wood, a.food + b.food, a.iron + b.iron, a.gold + b.gold)
  }

  function Minus(a: Stock, b: Stock): Stock {
    Stock(a.wood - b.wood, a.food - b.food, a.iron - b.iron, a.gold - b.gold)
  }

  predicate NonNegative(s: Stock) {
    s.wood >= 0 && s.food >= 0 && s.iron >= 0 && s.gold >= 0
  }

  function Power(b: nat, e: nat): nat {
    if e == 0 then 1 else b * Power(b, e - 1)
  }

  lemma {:induction false} PowerPositive(b: nat, e: nat)
    requires b > 0
    ensures Power(b, e) > 0
  {
    if e > 0 {
      PowerPositive(b, e - 1);
    }
  }

  /** The smallest whole amount of gold that covers 8 * 1.7^(count - 1), with the exponent cut off at 0. */
  function NobleGold(count: nat): (gold: nat)
    ensures var e := if count == 0 then 0 else count - 1;
            8 * Power(17, e) <= gold * Power(10, e) && (gold == 0 || (gold - 1) * Power(10, e) < 8 * Power(17, e))
  {
    var e := if count == 0 then 0 else count - 1;
    PowerPositive(10, e);
    CeilingDivision(8 * Power(17, e), Power(10, e));
    (8 * Power(17, e) + Power(10, e) - 1) / Power(10, e)
  }

  lemma CeilingDivision(a: nat, b: nat)
    requires b > 0
    ensures var g := (a + b - 1) / b;
            a <= g * b && (g == 0 || (g - 1) * b < a)
  {
    var g := (a + b - 1) / b;
    assert a + b - 1 == g * b + (a + b - 1) % b;
    assert (g - 1) * b == g * b - b;
  }

  function RecruitCost(kind: Kind, count: nat): Stock {
    if kind == Noble then Stock(0, 1, 1, NobleGold(count)) else Cost(kind)
  }

  // ---- State ----------------------------------------------------------------------

  datatype Loyalty = Loyalty(value: int, lastAttacker: PlayerId)

  datatype State = State(
    board: GameMap<Tile>,
    roster: seq<Player>,
    rounds: RoundState,
    stocks: map<PlayerId, Stock>,
    pieces: Pieces,
    ownership: map<Coord, PlayerId>,
    capitals: map<PlayerId, Coord>,
    nextPieceId: nat,
    moved: seq<PieceId>,
    attackedFrom: seq<Coord>,
    loyalty: map<Coord, Loyalty>,
    developed: seq<Coord>,
    mortgaged: seq<PieceId>,
    rng: bv32)

  function TurnHolder(s: State): PlayerId {
    s.rounds.turn.activePlayer
  }

  function OwnedTiles(ownership: map<Coord, PlayerId>, p: PlayerId): set<Coord> {
    set t | t in ownership && ownership[t] == p
  }

  function GateTiles(ps: Pieces, p: PlayerId): set<Coord> {
    set id | id in ps.at && ps.at[id].kind == Gate && ps.at[id].owner == p :: ps.at[id].tile
  }

  /** The parts of the state income and upkeep are computed from; no stock is among them. */
  datatype Land = Land(
    board: GameMap<Tile>, pieces: Pieces, ownership: map<Coord, PlayerId>, capitals: map<PlayerId, Coord>,
    developed: seq<Coord>, mortgaged: seq<PieceId>)

  function LandOf(s: State): Land {
    Land(s.board, s.pieces, s.ownership, s.capitals, s.developed, s.mortgaged)
  }

  /** The tiles in supply of the player's capital; none without a capital. */
  ghost function Supplied(land: Land, p: PlayerId): set<Coord> {
    if p !in land.capitals then {}
    else Connected(land.board, land.capitals[p], OwnedTiles(land.ownership, p), GateTiles(land.pieces, p))
  }

  // ---- Facts about the piece table ----------------------------------------------------

  lemma SetPieceKeepsValid(ps: Pieces, id: PieceId, piece: Piece)
    requires ValidPieces(ps)
    ensures ValidPieces(SetPiece(ps, id, piece))
  {
    if id !in ps.at {
      NoDupConcat(ps.order, [id]);
    }
  }

  lemma {:induction false} OrderWithoutIsDistinct(order: seq<PieceId>, gone: set<PieceId>)
    requires NoDup(order)
    ensures NoDup(OrderWithout(order, gone))
  {
    if order != [] {
      OrderWithoutIsDistinct(order[1..], gone);
      assert order[0] !in order[1..];
      var rest := OrderWithout(order[1..], gone);
      NoDupConcat([order[0]], rest);
    }
  }

  lemma WithoutKeepsValid(ps: Pieces, gone: set<PieceId>)
    requires ValidPieces(ps)
    ensures ValidPieces(Without(ps, gone))
  {
    OrderWithoutIsDistinct(ps.order, gone);
  }

  lemma {:induction false} OrderWithoutTwice(order: seq<PieceId>, a: set<PieceId>, b: set<PieceId>)
    ensures OrderWithout(OrderWithout(order, a), b) == OrderWithout(order, a + b)
  {
    if order != [] {
      OrderWithoutTwice(order[1..], a, b);
      var rest := OrderWithout(order[1..], a);
      assert ([order[0]] + rest)[1..] == rest;
    }
  }

  lemma {:induction false} OrderWithoutNone(order: seq<PieceId>, gone: set<PieceId>)
    requires forall id <- order :: id !in gone
    ensures OrderWithout(order, gone) == order
  {
    if order != [] {
      OrderWithoutNone(order[1..], gone);
    }
  }

  lemma {:induction false} SelectIsDistinct(order: seq<PieceId>, at: map<PieceId, Piece>, tile: Coord,
                                            owner: Option<PlayerId>, kinds: KindSet)
    requires NoDup(order)
    ensures NoDup(Select(order, at, tile, owner, kinds))
  {
    if order != [] {
      SelectIsDistinct(order[1..], at, tile, owner, kinds);
      assert order[0] !in order[1..];
      NoDupConcat([order[0]], Select(order[1..], at, tile, owner, kinds));
    }
  }

  /** The query comes back empty exactly when nothing of the kinds stands on the tile. */
  lemma StructureQueryIsExact(ps: Pieces, tile: Coord, kinds: KindSet)
    requires ValidPieces(ps)
    ensures StructureOnTile(ps, tile, kinds).None? <==>
            forall id <- ps.at.Keys :: !Matches(ps.at[id], tile, None, kinds)
  {
    var found := Select(ps.order, ps.at, tile, None, kinds);
    forall id | id in ps.at.Keys ensures id in found <==> Matches(ps.at[id], tile, None, kinds) {
      assert id in ps.order;
    }
    if found != [] {
      assert found[0] in found;
    }
  }

  /** The player's pieces of a kind. */
  function Army(ps: Pieces, p: PlayerId, k: Kind): set<PieceId> {
    set id | id in ps.at && ps.at[id].owner == p && ps.at[id].kind == k
  }

  /** The pieces of a kind on a tile. */
  function Standing(ps: Pieces, tile: Coord, k: Kind): set<PieceId> {
    set id | id in ps.at && ps.at[id].tile == tile && ps.at[id].kind == k
  }

  lemma {:induction false} OfKindIsDistinct(order: seq<PieceId>, at: map<PieceId, Piece>, p: PlayerId, k: Kind)
    requires NoDup(order)
    ensures NoDup(OfKind(order, at, p, k))
  {
    if order != [] {
      OfKindIsDistinct(order[1..], at, p, k);
      assert order[0] !in order[1..];
      NoDupConcat([order[0]], OfKind(order[1..], at, p, k));
    }
  }

  /** The count is the number of the player's pieces of that kind. */
  lemma CountIsArmy(ps: Pieces, p: PlayerId, k: Kind)
    requires ValidPieces(ps)
    ensures CountOfKind(ps, p, k) == |Army(ps, p, k)|
  {
    var listed := OfKind(ps.order, ps.at, p, k);
    OfKindIsDistinct(ps.order, ps.at, p, k);
    ElementsCount(listed);
    assert Elements(listed) == Army(ps, p, k);
  }

  // ---- Facts about the roster -----------------------------------------------------------

  lemma EliminatedIsNotActive(roster: seq<Player>, id: PlayerId)
    requires Roster(roster)
    ensures IsEliminated(roster, id) <==> id in RosterIds(roster) && id !in ActiveIds(roster)
  {
    var k := LastIndex(roster, id);
    if k >= 0 {
      assert roster[k] in roster;
      forall p | p in roster && p.id == id ensures p == roster[k] {
        RosterSeatsAreIds(roster, p, roster[k]);
      }
    }
  }

  lemma EliminationShrinksActive(roster: seq<Player>, id: PlayerId)
    requires Roster(roster)
    ensures RosterIds(EliminateFrom(roster, id)) == RosterIds(roster)
    ensures ActiveIds(EliminateFrom(roster, id)) == ActiveIds(roster) - {id}
  {
    var after := EliminateFrom(roster, id);
    EliminateMarksOne(roster, id);
    hide EliminateFrom;
    SameIds(roster, after);
    forall x
      ensures x in ActiveIds(after) <==> x in ActiveIds(roster) - {id}
    {
      EliminatedIsNotActive(roster, x);
      EliminatedIsNotActive(after, x);
      ActiveAreInRoster(roster);
      ActiveAreInRoster(after);
      if x == id && x in RosterIds(roster) {
        var p :| p in roster && p.id == id;
      }
    }
  }

  lemma SameIds(a: seq<Player>, b: seq<Player>)
    requires Progress(a, b)
    ensures RosterIds(a) == RosterIds(b)
  {
    forall x ensures x in RosterIds(a) <==> x in RosterIds(b) {
      if x in RosterIds(a) {
        var i :| 0 <= i < |a| && a[i].id == x;
        assert b[i] in b;
      }
      if x in RosterIds(b) {
        var i :| 0 <= i < |b| && b[i].id == x;
        assert a[i] in a;
      }
    }
  }

  lemma ActiveAreInRoster(roster: seq<Player>)
    ensures ActiveIds(roster) <= RosterIds(roster)
  {
  }
}
