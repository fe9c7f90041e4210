/**
 * The Frontier state, its seven actions as validators and executors from state to state and events, its victory
 * conditions and its setup.
 */
module FrontierRules {
  import opened Collections
  import opened Hex
  import opened Board
  import opened Random
  import opened Rounds
  import opened FrontierMap

  datatype Purse = Purse(vp: int, wood: real, stone: real)

  /** A number in a payload, or None where the field is missing.  A missing field compares false with everything and is
      never a positive amount. */
  type Quantity = Option<real>

  predicate Negative(q: Quantity) { q.Some? && q.value < 0.0 }

  predicate Exceeds(q: Quantity, held: real) { q.Some? && held < q.value }

  /** Two quantities adding up to nothing; with one missing the sum is no number, and not zero. */
  predicate Nothing(q: Quantity, r: Quantity) { q.Some? && r.Some? && q.value + r.value == 0.0 }

  datatype Flag = Flag(owner: PlayerId, tile: Coord)

  datatype Fort = Fort(tile: Coord, owner: PlayerId)

  datatype Offer = Offer(id: nat, from: PlayerId, giveWood: Quantity, giveStone: Quantity, wantWood: Quantity,
                         wantStone: Quantity)

  /** `holders` is the insertion order of the inventories: the order in which the players were passed in. */
  datatype State = State(
    board: GameMap<Terrain>,
    roster: seq<Player>,
    rounds: RoundState,
    holders: seq<PlayerId>,
    purses: map<PlayerId, Purse>,
    flags: seq<Flag>,
    forts: seq<Fort>,
    offers: seq<Offer>,
    lastOfferId: nat,
    homes: map<PlayerId, Coord>,
    rng: bv32)

  /** A trade for None is one for anything but wood or stone. */
  datatype Action =
    | ClaimTile(tile: Coord)
    | FinishTurn
    | Trade(resource: Option<Resource>)
    | Fortify(tile: Coord)
    | PostOffer(giveWood: Quantity, giveStone: Quantity, wantWood: Quantity, wantStone: Quantity)
    | AcceptOffer(id: nat)
    | CancelOffer(id: nat)

  datatype Command = Command(player: Option<PlayerId>, action: Action)

  datatype Error =
    | NoPlayer | NotYourTurn | WrongPhase | AlreadyClaimed | InvalidTile | TileOccupied | NoTerritory | NotAdjacent
    | InvalidResource | Insufficient | AlreadyLeaping | NotYours | AlreadyFortified | Invalid | TooManyOffers
    | NoOffer | OwnOffer

  datatype Event =
    | TileClaimed(player: PlayerId, tile: Coord, terrain: Terrain, vp: int, die1: int, die2: int, bonusVp: int,
                  resource: Option<Resource>)
    | TurnEnded(player: PlayerId, next: PlayerId)
    | RoundEnded(round: nat)
    | FortIncome(player: PlayerId, tile: Coord)
    | TileIncome(player: PlayerId, wood: nat, stone: nat)
    | Traded(player: PlayerId, paid: Resource)
    | Fortified(player: PlayerId, tile: Coord)
    | OfferPosted(player: PlayerId, offer: Offer)
    | OfferAccepted(player: PlayerId, offer: Offer)
    | OfferCancelled(player: PlayerId, offer: Offer)

  datatype Outcome = Done(state: State, events: seq<Event>) | Threw

  // ---- Lookups ----------------------------------------------------------------------------

  function TurnHolder(s: State): PlayerId {
    s.rounds.turn.activePlayer
  }

  predicate Raised(s: State, flag: string) {
    flag in s.rounds.turn.flags && s.rounds.turn.flags[flag]
  }

  function Raise(s: State, flag: string, value: bool): State {
    var turn := s.rounds.turn;
    s.(rounds := s.rounds.(turn := turn.(flags := turn.flags[flag := value])))
  }

  const CLAIMED := "claimedThisTurn"
  const LEAP := "stoneLeap"
  const TURN_PHASE := "turn"

  predicate Occupied(flags: seq<Flag>, tile: Coord) {
    exists f <- flags :: f.tile == tile
  }

  /** The owner of the first flag on the tile. */
  function TileOwner(flags: seq<Flag>, tile: Coord): Option<PlayerId> {
    if flags == [] then None
    else if flags[0].tile == tile then Some(flags[0].owner)
    else TileOwner(flags[1..], tile)
  }

  predicate HasTerritory(s: State, p: PlayerId) {
    exists f <- s.flags :: f.owner == p && f.tile in s.board.tiles
  }

  predicate Borders(s: State, p: PlayerId, tile: Coord) {
    exists f <- s.flags :: f.owner == p && f.tile in s.board.tiles && IsNeighbour(f.tile, tile)
  }

  predicate Fortressed(forts: seq<Fort>, tile: Coord) {
    exists f <- forts :: f.tile == tile
  }

  function FindOffer(offers: seq<Offer>, id: nat): (r: Option<Offer>)
    ensures r.Some? ==> r.value in offers && r.value.id == id
    ensures r.None? ==> forall o <- offers :: o.id != id
  {
    if offers == [] then None
    else if offers[0].id == id then Some(offers[0])
    else FindOffer(offers[1..], id)
  }

  function WithoutOffer(offers: seq<Offer>, id: nat): (r: seq<Offer>)
    ensures forall o :: o in r <==> o in offers && o.id != id
  {
    if offers == [] then []
    else if offers[0].id == id then WithoutOffer(offers[1..], id)
    else [offers[0]] + WithoutOffer(offers[1..], id)
  }

  function OffersBy(offers: seq<Offer>, p: PlayerId): nat {
    if offers == [] then 0 else (if offers[0].from == p then 1 else 0) + OffersBy(offers[1..], p)
  }

  /** The holder of the turn always has an inventory; anybody without one would count as having nothing. */
  function PurseOf(s: State, p: PlayerId): Purse {
    if p in s.purses then s.purses[p] else Purse(0, 0.0, 0.0)
  }

  // ---- Validators ---------------------------------------------------------------------------

  function Guard(s: State, player: Option<PlayerId>): Option<Error> {
    if player.None? || player.value.text == "" then Some(NoPlayer)
    else if TurnHolder(s) != player.value then Some(NotYourTurn)
    else None
  }

  function ValidateClaim(s: State, p: PlayerId, tile: Coord): Option<Error> {
    if s.rounds.turn.phase != TURN_PHASE then Some(WrongPhase)
    else if Raised(s, CLAIMED) then Some(AlreadyClaimed)
    else if tile !in s.board.tiles then Some(InvalidTile)
    else if Occupied(s.flags, tile) then Some(TileOccupied)
    else if Raised(s, LEAP) then None
    else if !HasTerritory(s, p) then Some(NoTerritory)
    else if !Borders(s, p, tile) then Some(NotAdjacent)
    else None
  }

  function ValidateTrade(s: State, p: PlayerId, resource: Option<Resource>): Option<Error> {
    match resource
    case None => Some(InvalidResource)
    case Some(Wood) => if PurseOf(s, p).wood < 2.0 then Some(Insufficient) else None
    case Some(Stone) =>
      if PurseOf(s, p).stone < 2.0 then Some(Insufficient)
      else if Raised(s, LEAP) then Some(AlreadyLeaping)
      else None
  }

  function ValidateFortify(s: State, p: PlayerId, tile: Coord): Option<Error> {
    if PurseOf(s, p).wood < 2.0 || PurseOf(s, p).stone < 1.0 then Some(Insufficient)
    else if tile !in s.board.tiles then Some(InvalidTile)
    else if TileOwner(s.flags, tile) != Some(p) then Some(NotYours)
    else if Fortressed(s.forts, tile) then Some(AlreadyFortified)
    else None
  }

  function ValidatePost(s: State, p: PlayerId, gw: Quantity, gs: Quantity, ww: Quantity, ws: Quantity): Option<Error> {
    if Negative(gw) || Negative(gs) || Negative(ww) || Negative(ws) then Some(Invalid)
    else if Nothing(gw, gs) || Nothing(ww, ws) then Some(Invalid)
    else if Exceeds(gw, PurseOf(s, p).wood) || Exceeds(gs, PurseOf(s, p).stone) then Some(Insufficient)
    else if OffersBy(s.offers, p) >= 3 then Some(TooManyOffers)
    else None
  }

  function ValidateAccept(s: State, p: PlayerId, id: nat): Option<Error> {
    match FindOffer(s.offers, id)
    case None => Some(NoOffer)
    case Some(o) =>
      if o.from == p then Some(OwnOffer)
      else if Exceeds(o.wantWood, PurseOf(s, p).wood) || Exceeds(o.wantStone, PurseOf(s, p).stone) then Some(Insufficient)
      else None
  }

  function ValidateCancel(s: State, p: PlayerId, id: nat): Option<Error> {
    match FindOffer(s.offers, id)
    case None => Some(NoOffer)
    case Some(o) => if o.from != p then Some(NotYours) else None
  }

  function Validate(s: State, c: Command): Option<Error> {
    var guard := Guard(s, c.player);
    if guard.Some? then guard
    else
      var p := c.player.value;
      match c.action
      case ClaimTile(tile) => ValidateClaim(s, p, tile)
      case FinishTurn => None
      case Trade(resource) => ValidateTrade(s, p, resource)
      case Fortify(tile) => ValidateFortify(s, p, tile)
      case PostOffer(gw, gs, ww, ws) => ValidatePost(s, p, gw, gs, ww, ws)
      case AcceptOffer(id) => ValidateAccept(s, p, id)
      case CancelOffer(id) => ValidateCancel(s, p, id)
  }

  // ---- Executors ------------------------------------------------------------------------------

  function Gain(purses: map<PlayerId, Purse>, p: PlayerId, vp: int, wood: real, stone: real): map<PlayerId, Purse>
    requires p in purses
  {
    var b := purses[p];
    purses[p := Purse(b.vp + vp, b.wood + wood, b.stone + stone)]
  }

  function Bonus(roll: int): int {
    if roll >= 10 then 2 else if roll >= 7 then 1 else 0
  }

  function Die1(x: bv32): int { Draw(x, 1, 6).value }

  function Die2(x: bv32): int { Draw(Step(x), 1, 6).value }

  function Drop(resource: Option<Resource>, which: Resource): real {
    if resource == Some(which) then 1.0 else 0.0
  }

  /** Placing a flag that already stands changes nothing. */
  function PutFlag(flags: seq<Flag>, f: Flag): seq<Flag> {
    if f in flags then flags else flags + [f]
  }

  function ExecuteClaim(s: State, p: PlayerId, tile: Coord): Outcome {
    if tile !in s.board.tiles || p !in s.purses then Threw
    else
      var terrain := s.board.tiles[tile];
      var die1, die2 := Die1(s.rng), Die2(s.rng);
      var bonus := Bonus(die1 + die2);
      var vp, resource := TerrainVp(terrain) + bonus, TerrainResource(terrain);
      var s1 := s.(purses := Gain(s.purses, p, vp, Drop(resource, Wood), Drop(resource, Stone)),
                   flags := PutFlag(s.flags, Flag(p, tile)), rng := Step(Step(s.rng)));
      Done(Raise(Raise(s1, CLAIMED, true), LEAP, false),
           [TileClaimed(p, tile, terrain, vp, die1, die2, bonus, resource)])
  }

  /** One victory point per fort, for its owner. */
  function AfterForts(purses: map<PlayerId, Purse>, forts: seq<Fort>): (r: map<PlayerId, Purse>)
    ensures r.Keys == purses.Keys
  {
    if forts == [] then purses
    else
      var before, f := AfterForts(purses, forts[..|forts| - 1]), forts[|forts| - 1];
      if f.owner in purses then Gain(before, f.owner, 1, 0.0, 0.0) else before
  }

  function FortEvents(purses: map<PlayerId, Purse>, forts: seq<Fort>): seq<Event> {
    if forts == [] then []
    else
      var f := forts[|forts| - 1];
      FortEvents(purses, forts[..|forts| - 1]) + if f.owner in purses then [FortIncome(f.owner, f.tile)] else []
  }

  /** What one owner's flags yield. */
  datatype Harvest = Harvest(owner: PlayerId, wood: nat, stone: nat)

  function More(y: Harvest, resource: Resource): Harvest {
    match resource
    case Wood => Harvest(y.owner, y.wood + 1, y.stone)
    case Stone => Harvest(y.owner, y.wood, y.stone + 1)
  }

  /** One more forest or mountain for the owner, who is entered at the end of the list the first time. */
  function Enter(harvests: seq<Harvest>, owner: PlayerId, resource: Resource): seq<Harvest> {
    if harvests == [] then [More(Harvest(owner, 0, 0), resource)]
    else if harvests[0].owner == owner then [More(harvests[0], resource)] + harvests[1..]
    else [harvests[0]] + Enter(harvests[1..], owner, resource)
  }

  function FlagResource(board: GameMap<Terrain>, f: Flag): Option<Resource> {
    if f.tile in board.tiles then TerrainResource(board.tiles[f.tile]) else None
  }

  function Tally(board: GameMap<Terrain>, flags: seq<Flag>): seq<Harvest> {
    if flags == [] then []
    else
      var before, f := Tally(board, flags[..|flags| - 1]), flags[|flags| - 1];
      match FlagResource(board, f)
      case None => before
      case Some(r) => Enter(before, f.owner, r)
  }

  function AfterHarvests(purses: map<PlayerId, Purse>, harvests: seq<Harvest>): (r: map<PlayerId, Purse>)
    ensures r.Keys == purses.Keys
  {
    if harvests == [] then purses
    else
      var before, y := AfterHarvests(purses, harvests[..|harvests| - 1]), harvests[|harvests| - 1];
      if y.owner in purses then Gain(before, y.owner, 0, y.wood as real, y.stone as real) else before
  }

  function HarvestEvents(purses: map<PlayerId, Purse>, harvests: seq<Harvest>): seq<Event> {
    if harvests == [] then []
    else
      var y := harvests[|harvests| - 1];
      HarvestEvents(purses, harvests[..|harvests| - 1]) + if y.owner in purses then [TileIncome(y.owner, y.wood, y.stone)] else []
  }

  function ExecuteFinishTurn(s: State, p: PlayerId): Outcome {
    match EndTurn(s.rounds, s.roster, TURN_PHASE)
    case None => Threw
    case Some((rounds, newRound)) =>
      var ended := TurnEnded(p, rounds.turn.activePlayer);
      if !newRound then Done(s.(rounds := rounds), [ended])
      else
        var harvests := Tally(s.board, s.flags);
        Done(s.(rounds := rounds, purses := AfterHarvests(AfterForts(s.purses, s.forts), harvests)),
             [ended, RoundEnded(s.rounds.round)] + FortEvents(s.purses, s.forts) + HarvestEvents(s.purses, harvests))
  }

  function ExecuteTrade(s: State, p: PlayerId, resource: Option<Resource>): Outcome {
    if p !in s.purses || resource.None? then Threw
    else if resource.value == Wood then
      if s.purses[p].wood < 2.0 then Threw
      else Done(s.(purses := Gain(s.purses, p, 1, -2.0, 0.0)), [Traded(p, Wood)])
    else if s.purses[p].stone < 2.0 then Threw
    else Done(Raise(s.(purses := Gain(s.purses, p, 0, 0.0, -2.0)), LEAP, true), [Traded(p, Stone)])
  }

  /** Setting an existing key keeps its place. */
  function PutFort(forts: seq<Fort>, tile: Coord, owner: PlayerId): seq<Fort> {
    if forts == [] then [Fort(tile, owner)]
    else if forts[0].tile == tile then [Fort(tile, owner)] + forts[1..]
    else [forts[0]] + PutFort(forts[1..], tile, owner)
  }

  function ExecuteFortify(s: State, p: PlayerId, tile: Coord): Outcome {
    if p !in s.purses || s.purses[p].wood < 2.0 || s.purses[p].stone < 1.0 then Threw
    else Done(s.(purses := Gain(s.purses, p, 0, -2.0, -1.0), forts := PutFort(s.forts, tile, p)), [Fortified(p, tile)])
  }

  predicate Takes(held: real, qty: Quantity) {
    Moved(qty) == 0.0 || held >= Moved(qty)
  }

  /** Only positive quantities move. */
  function Moved(qty: Quantity): real {
    if qty.Some? && qty.value > 0.0 then qty.value else 0.0
  }

  function ExecutePost(s: State, p: PlayerId, gw: Quantity, gs: Quantity, ww: Quantity, ws: Quantity): Outcome {
    if p !in s.purses || !Takes(s.purses[p].wood, gw) || !Takes(s.purses[p].stone, gs) then Threw
    else
      var o := Offer(s.lastOfferId + 1, p, gw, gs, ww, ws);
      Done(s.(purses := Gain(s.purses, p, 0, -Moved(gw), -Moved(gs)), lastOfferId := s.lastOfferId + 1,
              offers := s.offers + [o]),
           [OfferPosted(p, o)])
  }

  /** The purses after p has accepted the offer. */
  function AfterDeal(purses: map<PlayerId, Purse>, p: PlayerId, o: Offer): map<PlayerId, Purse>
    requires p in purses && o.from in purses
  {
    Gain(Gain(purses, p, 0, Moved(o.giveWood) - Moved(o.wantWood), Moved(o.giveStone) - Moved(o.wantStone)),
         o.from, 0, Moved(o.wantWood), Moved(o.wantStone))
  }

  function ExecuteAccept(s: State, p: PlayerId, id: nat): Outcome {
    match FindOffer(s.offers, id)
    case None => Threw
    case Some(o) =>
      if p !in s.purses || o.from !in s.purses
         || !Takes(s.purses[p].wood, o.wantWood) || !Takes(s.purses[p].stone, o.wantStone) then Threw
      else Done(s.(purses := AfterDeal(s.purses, p, o), offers := WithoutOffer(s.offers, o.id)), [OfferAccepted(p, o)])
  }

  function ExecuteCancel(s: State, p: PlayerId, id: nat): Outcome {
    match FindOffer(s.offers, id)
    case None => Threw
    case Some(o) =>
      if p !in s.purses then Threw
      else Done(s.(purses := Gain(s.purses, p, 0, Moved(o.giveWood), Moved(o.giveStone)),
                   offers := WithoutOffer(s.offers, o.id)),
                [OfferCancelled(p, o)])
  }

  function Execute(s: State, c: Command): Outcome {
    if c.player.None? then Threw
    else
      var p := c.player.value;
      match c.action
      case ClaimTile(tile) => ExecuteClaim(s, p, tile)
      case FinishTurn => ExecuteFinishTurn(s, p)
      case Trade(resource) => ExecuteTrade(s, p, resource)
      case Fortify(tile) => ExecuteFortify(s, p, tile)
      case PostOffer(gw, gs, ww, ws) => ExecutePost(s, p, gw, gs, ww, ws)
      case AcceptOffer(id) => ExecuteAccept(s, p, id)
      case CancelOffer(id) => ExecuteCancel(s, p, id)
  }

  // ---- Victory -----------------------------------------------------------------------------------

  datatype Reason = ReachedGoal | BoardFullDraw(top: int) | BoardFull(top: int)

  datatype Victory = Victory(winner: Option<PlayerId>, reason: Reason)

  const WIN_VP := 18

  /** The first holder, in inventory order, with enough victory points. */
  function FirstToEighteen(holders: seq<PlayerId>, purses: map<PlayerId, Purse>): Option<Victory> {
    if holders == [] then None
    else if holders[0] in purses && purses[holders[0]].vp >= WIN_VP then Some(Victory(Some(holders[0]), ReachedGoal))
    else FirstToEighteen(holders[1..], purses)
  }

  /** The best so far, its score, and whether somebody equalled it. */
  datatype Lead = Lead(winner: Option<PlayerId>, top: int, tied: bool)

  function LeadOf(holders: seq<PlayerId>, purses: map<PlayerId, Purse>): Lead
    requires forall p <- holders :: p in purses
  {
    if holders == [] then Lead(None, -1, false)
    else
      var before, p := LeadOf(holders[..|holders| - 1], purses), holders[|holders| - 1];
      var vp := purses[p].vp;
      if vp > before.top then Lead(Some(p), vp, false)
      else if vp == before.top then before.(tied := true)
      else before
  }

  function ClaimedTiles(flags: seq<Flag>): set<Coord> {
    set f | f in flags :: f.tile
  }

  function AllTilesClaimed(s: State): Option<Victory>
    requires forall p <- s.holders :: p in s.purses
  {
    if |ClaimedTiles(s.flags)| < |s.board.order| then None
    else
      var lead := LeadOf(s.holders, s.purses);
      Some(if lead.tied then Victory(None, BoardFullDraw(lead.top)) else Victory(lead.winner, BoardFull(lead.top)))
  }

  function Evaluate(s: State): Option<Victory>
    requires forall p <- s.holders :: p in s.purses
  {
    var race := FirstToEighteen(s.holders, s.purses);
    if race.Some? then race else AllTilesClaimed(s)
  }

  // ---- Setup -------------------------------------------------------------------------------------

  function Fresh(players: seq<Player>, board: GameMap<Terrain>, rng: bv32): State
    requires players != []
  {
    assert WithStatus(players, Active)[0] in ActiveSortedBySeat(WithStatus(players, Active));
    State(board, WithStatus(SortBySeat(players), Active),
          RoundState(1, Turn(1, ActiveSortedBySeat(WithStatus(players, Active))[0].id, TURN_PHASE, map[])),
          IdsOf(players), map p | p in IdsOf(players) :: Purse(0, 0.0, 0.0), [], [], [], 0, map[], rng)
  }

  function PlaceHome(s: State, p: PlayerId, home: Coord): State
    requires p in s.purses
  {
    if home !in s.board.tiles then s
    else s.(flags := PutFlag(s.flags, Flag(p, home)),
            purses := Gain(s.purses, p, TerrainVp(s.board.tiles[home]), 0.0, 0.0), homes := s.homes[p := home])
  }

  function Placed(s: State, players: seq<Player>, n: nat): (r: State)
    requires n <= |players| && n <= |StartingCoords(|players|)| && forall p <- players :: p.id in s.purses
    ensures r.purses.Keys == s.purses.Keys
  {
    if n == 0 then s
    else PlaceHome(Placed(s, players, n - 1), players[n - 1].id, StartingCoords(|players|)[n - 1])
  }

  function Setup(players: seq<Player>, board: GameMap<Terrain>, rng: bv32): State
    requires 2 <= |players| <= 4
  {
    assert forall p <- players :: p.id in IdsOf(players);
    Placed(Fresh(players, board, rng), players, |players|)
  }
}
