/**
 * The Frontier actions, victory checks and view carried out step by step on mutable game state, each proved to do
 * exactly what the functions of FrontierRules and FrontierClient describe.
 */
module FrontierTable {
  import opened Collections
  import opened Hex
  import opened Board
  import opened Random
  import opened Rounds
  import opened FrontierMap
  import opened FrontierRules
  import opened FrontierInvariant
  import opened FrontierMarket
  import opened FrontierRun
  import opened FrontierClient

  // ---- Lookups ----------------------------------------------------------------------------

  const HEX_DIRS: seq<Coord> :=
    [Coord(1, 0), Coord(-1, 0), Coord(0, 1), Coord(0, -1), Coord(1, -1), Coord(-1, 1)]

  lemma HexDirsAreNeighbours(c: Coord, t: Coord)
    ensures IsNeighbour(c, t) <==> exists i :: 0 <= i < 6 && Coord(t.q - HEX_DIRS[i].q, t.r - HEX_DIRS[i].r) == c
  {
    var d := Coord(t.q - c.q, t.r - c.r);
    assert HEX_DIRS[0] == Coord(1, 0) && HEX_DIRS[1] == Coord(-1, 0) && HEX_DIRS[2] == Coord(0, 1)
        && HEX_DIRS[3] == Coord(0, -1) && HEX_DIRS[4] == Coord(1, -1) && HEX_DIRS[5] == Coord(-1, 1);
    if IsNeighbour(c, t) {
      var i := if d == Coord(1, 0) then 0 else if d == Coord(-1, 0) then 1 else if d == Coord(0, 1) then 2
               else if d == Coord(0, -1) then 3 else if d == Coord(1, -1) then 4 else 5;
      assert Coord(t.q - HEX_DIRS[i].q, t.r - HEX_DIRS[i].r) == c;
    }
  }

  method OwnedTileCoords(s: State, p: PlayerId) returns (coords: seq<Coord>)
    ensures forall c :: c in coords <==> c in s.board.tiles && Flag(p, c) in s.flags
  {
    coords := [];
    for i := 0 to |s.flags|
      invariant forall c :: c in coords <==> c in s.board.tiles && Flag(p, c) in s.flags[..i]
    {
      assert s.flags[..i + 1] == s.flags[..i] + [s.flags[i]];
      if s.flags[i].owner == p && s.flags[i].tile in s.board.tiles {
        coords := coords + [s.flags[i].tile];
      }
    }
    assert s.flags[..|s.flags|] == s.flags;
  }

  /** Some owned coordinate lies one step before the tile in one of the six directions. */
  method AnyAdjacent(owned: seq<Coord>, tile: Coord) returns (adjacent: bool)
    ensures adjacent <==> exists c <- owned :: IsNeighbour(c, tile)
  {
    forall c | c in owned
      ensures IsNeighbour(c, tile) <==>
              exists i :: 0 <= i < 6 && Coord(tile.q - HEX_DIRS[i].q, tile.r - HEX_DIRS[i].r) == c
    {
      HexDirsAreNeighbours(c, tile);
    }
    hide IsNeighbour;
    adjacent := false;
    for i := 0 to 6
      invariant adjacent <==> exists j :: 0 <= j < i && Coord(tile.q - HEX_DIRS[j].q, tile.r - HEX_DIRS[j].r) in owned
    {
      if Coord(tile.q - HEX_DIRS[i].q, tile.r - HEX_DIRS[i].r) in owned {
        adjacent := true;
      }
    }
  }

  method FindTileOwner(flags: seq<Flag>, tile: Coord) returns (owner: Option<PlayerId>)
    ensures owner == TileOwner(flags, tile)
  {
    for i := 0 to |flags|
      invariant TileOwner(flags, tile) == TileOwner(flags[i..], tile)
    {
      if flags[i].tile == tile {
        return Some(flags[i].owner);
      }
      assert flags[i..][1..] == flags[i + 1..];
    }
    owner := None;
  }

  method CheckClaim(s: State, p: PlayerId, tile: Coord) returns (e: Option<Error>)
    ensures e == ValidateClaim(s, p, tile)
  {
    hide IsNeighbour;
    if s.rounds.turn.phase != TURN_PHASE {
      return Some(WrongPhase);
    }
    if Raised(s, CLAIMED) {
      return Some(AlreadyClaimed);
    }
    if tile !in s.board.tiles {
      return Some(InvalidTile);
    }
    if Occupied(s.flags, tile) {
      return Some(TileOccupied);
    }
    if !Raised(s, LEAP) {
      var owned := OwnedTileCoords(s, p);
      TerritoryListed(s, p, tile, owned);
      if owned == [] {
        return Some(NoTerritory);
      }
      var adjacent := AnyAdjacent(owned, tile);
      if !adjacent {
        return Some(NotAdjacent);
      }
    }
    e := None;
  }

  method CheckFortify(s: State, p: PlayerId, tile: Coord) returns (e: Option<Error>)
    ensures e == ValidateFortify(s, p, tile)
  {
    hide TileOwner, Fortressed;
    if PurseOf(s, p).wood < 2.0 {
      return Some(Insufficient);
    }
    if PurseOf(s, p).stone < 1.0 {
      return Some(Insufficient);
    }
    if tile !in s.board.tiles {
      return Some(InvalidTile);
    }
    var owner := FindTileOwner(s.flags, tile);
    if owner != Some(p) {
      return Some(NotYours);
    }
    e := if Fortressed(s.forts, tile) then Some(AlreadyFortified) else None;
  }

  method Check(s: State, c: Command) returns (e: Option<Error>)
    ensures e == Validate(s, c)
  {
    hide ValidateClaim, ValidateFortify, ValidateTrade, ValidatePost, ValidateAccept, ValidateCancel;
    e := Guard(s, c.player);
    if e.Some? {
      return;
    }
    var p := c.player.value;
    match c.action
    case ClaimTile(tile) => e := CheckClaim(s, p, tile);
    case Fortify(tile) => e := CheckFortify(s, p, tile);
    case _ => e := Validate(s, c);
  }

  lemma TerritoryListed(s: State, p: PlayerId, tile: Coord, owned: seq<Coord>)
    requires forall c :: c in owned <==> c in s.board.tiles && Flag(p, c) in s.flags
    ensures HasTerritory(s, p) <==> owned != []
    ensures Borders(s, p, tile) <==> exists c <- owned :: IsNeighbour(c, tile)
  {
    hide IsNeighbour;
    if HasTerritory(s, p) {
      var f :| f in s.flags && f.owner == p && f.tile in s.board.tiles;
      assert f == Flag(p, f.tile);
      assert f.tile in owned;
    }
    if owned != [] {
      assert owned[0] in owned;
      assert Flag(p, owned[0]) in s.flags;
    }
    if Borders(s, p, tile) {
      var f :| f in s.flags && f.owner == p && f.tile in s.board.tiles && IsNeighbour(f.tile, tile);
      assert f == Flag(p, f.tile);
      assert f.tile in owned;
    }
    if c :| c in owned && IsNeighbour(c, tile) {
      assert Flag(p, c) in s.flags;
    }
  }

  // ---- Victory ----------------------------------------------------------------------------------

  method CheckRace(holders: seq<PlayerId>, purses: map<PlayerId, Purse>) returns (v: Option<Victory>)
    ensures v == FirstToEighteen(holders, purses)
  {
    for i := 0 to |holders|
      invariant FirstToEighteen(holders, purses) == FirstToEighteen(holders[i..], purses)
    {
      if holders[i] in purses && purses[holders[i]].vp >= WIN_VP {
        return Some(Victory(Some(holders[i]), ReachedGoal));
      }
      assert holders[i..][1..] == holders[i + 1..];
    }
    v := None;
  }

  method CheckBoardFull(s: State) returns (v: Option<Victory>)
    requires forall p <- s.holders :: p in s.purses
    ensures v == AllTilesClaimed(s)
  {
    var claimed: set<Coord> := {};
    for i := 0 to |s.flags|
      invariant claimed == ClaimedTiles(s.flags[..i])
    {
      assert s.flags[..i + 1] == s.flags[..i] + [s.flags[i]];
      claimed := claimed + {s.flags[i].tile};
    }
    assert s.flags[..|s.flags|] == s.flags;
    if |claimed| < |s.board.order| {
      return None;
    }
    var winner: Option<PlayerId>, topVp, tied := None, -1, false;
    for i := 0 to |s.holders|
      invariant Lead(winner, topVp, tied) == LeadOf(s.holders[..i], s.purses)
    {
      assert s.holders[..i + 1][..i] == s.holders[..i];
      assert s.holders[i] in s.holders;
      var vp := s.purses[s.holders[i]].vp;
      if vp > topVp {
        topVp := vp;
        winner := Some(s.holders[i]);
        tied := false;
      } else if vp == topVp {
        tied := true;
      }
    }
    assert s.holders[..|s.holders|] == s.holders;
    v := Some(if tied then Victory(None, BoardFullDraw(topVp)) else Victory(winner, BoardFull(topVp)));
  }

  // ---- The view -----------------------------------------------------------------------------------

  /** The claim map filled flag by flag, then the record. */
  method ProjectView(s: State, players: seq<Player>, victory: Option<Victory>) returns (view: View)
    requires s.board.Valid()
    ensures view == BuildView(s, players, victory)
  {
    var claims: map<Coord, PlayerId> := map[];
    for i := 0 to |s.flags|
      invariant forall c :: (if c in claims then Some(claims[c]) else None) == Claimant(s.flags[..i], c)
    {
      assert s.flags[..i + 1][..i] == s.flags[..i];
      claims := claims[s.flags[i].tile := s.flags[i].owner];
    }
    assert s.flags[..|s.flags|] == s.flags;
    var tiles := seq(|s.board.order|, i requires 0 <= i < |s.board.order| =>
      TileView(s.board.order[i], TerrainAt(s.board, i),
               if s.board.order[i] in claims then Some(claims[s.board.order[i]]) else None));
    assert tiles == Tiles(s.board, s.flags);
    view := View(victory.Some?, tiles, Entries(s.purses, TurnHolder(s), players), TurnHolder(s),
                 if victory.Some? then victory.value.winner else None,
                 if victory.Some? then Some(victory.value.reason) else None,
                 s.homes, s.forts, s.offers, s.rounds.round);
  }

  // ---- The table -----------------------------------------------------------------------------------

  ghost predicate Yields(o: Outcome, after: State, events: Option<seq<Event>>) {
    match o
    case Threw => events == None
    case Done(s, es) => after == s && events == Some(es)
  }

  class Table {
    const board: GameMap<Terrain>
    const players: PlayerManager
    const rounds: RoundManager
    const rng: SeededRandom
    const holders: seq<PlayerId>
    var purses: map<PlayerId, Purse>
    var flags: seq<Flag>
    var forts: seq<Fort>
    var offers: seq<Offer>
    var lastOfferId: nat
    var homes: map<PlayerId, Coord>

    function Now(): State
      reads this, players, rounds, rng
    {
      State(board, players.bySeat, rounds.State(), holders, purses, flags, forts, offers, lastOfferId, homes, rng.state)
    }

    constructor (seats: seq<Player>, board: GameMap<Terrain>, seed: bv32)
      requires seats != []
      ensures Now() == Fresh(seats, board, FirstWord(seed))
      ensures fresh(players) && fresh(rounds) && fresh(rng)
    {
      assert WithStatus(seats, Active)[0] in ActiveSortedBySeat(WithStatus(seats, Active));
      this.board := board;
      players := new PlayerManager(seats);
      rounds := new RoundManager(WithStatus(seats, Active), map[TURN_PHASE := [TURN_PHASE]], TURN_PHASE);
      rng := new SeededRandom(seed);
      holders := IdsOf(seats);
      purses := map p | p in IdsOf(seats) :: Purse(0, 0.0, 0.0);
      flags, forts, offers, lastOfferId, homes := [], [], [], 0, map[];
    }

    method SetUp(seats: seq<Player>)
      requires 2 <= |seats| <= 4 && forall p <- seats :: p.id in purses
      modifies this`flags, this`purses, this`homes
      ensures Now() == Placed(old(Now()), seats, |seats|)
    {
      hide StartingCoords, Gain, PutFlag, TerrainVp;
      var coords := StartingCoords(|seats|);
      for i := 0 to |seats|
        invariant purses.Keys == old(purses.Keys)
        invariant Now() == Placed(old(Now()), seats, i)
      {
        PlacePlayer(seats[i].id, coords[i]);
      }
    }

    method PlacePlayer(p: PlayerId, home: Coord)
      requires p in purses
      modifies this`flags, this`purses, this`homes
      ensures Now() == PlaceHome(old(Now()), p, home) && purses.Keys == old(purses.Keys)
    {
      hide PutFlag;
      if home !in board.tiles {
        return;
      }
      flags := PutFlag(flags, Flag(p, home));
      purses := Gain(purses, p, TerrainVp(board.tiles[home]), 0.0, 0.0);
      homes := homes[p := home];
    }

    /** The points and the one resource a claim brings. */
    method Award(p: PlayerId, vp: int, resource: Option<Resource>)
      requires p in purses
      modifies this`purses
      ensures purses == Gain(old(purses), p, vp, Drop(resource, Wood), Drop(resource, Stone))
    {
      purses := Gain(purses, p, vp, 0.0, 0.0);
      if resource.Some? {
        purses := Gain(purses, p, 0, Drop(resource, Wood), Drop(resource, Stone));
      }
      assert purses == Gain(old(purses), p, vp, Drop(resource, Wood), Drop(resource, Stone));
    }

    method ClaimTile(p: PlayerId, tile: Coord) returns (events: Option<seq<Event>>)
      modifies this`purses, this`flags, rounds, rng
      ensures Yields(ExecuteClaim(old(Now()), p, tile), Now(), events)
    {
      hide Draw, Step, PutFlag, Gain, Drop;
      if tile !in board.tiles {
        return None;
      }
      var terrain := board.tiles[tile];
      var baseVp := TerrainVp(terrain);
      var die1 := rng.IntInRange(1, 6);
      var die2 := rng.IntInRange(1, 6);
      var roll := die1.value + die2.value;
      var bonusVp := if roll >= 10 then 2 else if roll >= 7 then 1 else 0;
      var vp := baseVp + bonusVp;
      var resource := TerrainResource(terrain);
      if p !in purses {
        return None;
      }
      Award(p, vp, resource);
      flags := PutFlag(flags, Flag(p, tile));
      rounds.SetFlag(CLAIMED, true);
      rounds.SetFlag(LEAP, false);
      events := Some([TileClaimed(p, tile, terrain, vp, die1.value, die2.value, bonusVp, resource)]);
    }

    /** A point per fort. */
    method PayForts(before: seq<Event>) returns (events: seq<Event>)
      modifies this`purses
      ensures purses == AfterForts(old(purses), forts) && events == before + FortEvents(old(purses), forts)
    {
      hide Gain;
      events := before;
      for i := 0 to |forts|
        invariant purses == AfterForts(old(purses), forts[..i])
        invariant events == before + FortEvents(old(purses), forts[..i])
      {
        assert forts[..i + 1][..i] == forts[..i];
        if forts[i].owner in purses {
          purses := Gain(purses, forts[i].owner, 1, 0.0, 0.0);
          events := events + [FortIncome(forts[i].owner, forts[i].tile)];
        }
      }
      assert forts[..|forts|] == forts;
    }

    /** The income record, owner by owner. */
    method CollectHarvests() returns (harvests: seq<Harvest>)
      ensures harvests == Tally(board, flags)
    {
      hide Enter, FlagResource;
      harvests := [];
      for i := 0 to |flags|
        invariant harvests == Tally(board, flags[..i])
      {
        assert flags[..i + 1][..i] == flags[..i];
        var resource := FlagResource(board, flags[i]);
        if resource.None? {
          continue;
        }
        harvests := Enter(harvests, flags[i].owner, resource.value);
      }
      assert flags[..|flags|] == flags;
    }

    method PayHarvests(harvests: seq<Harvest>, before: seq<Event>) returns (events: seq<Event>)
      modifies this`purses
      ensures purses == AfterHarvests(old(purses), harvests)
      ensures events == before + HarvestEvents(old(purses), harvests)
    {
      hide Gain;
      events := before;
      for i := 0 to |harvests|
        invariant purses == AfterHarvests(old(purses), harvests[..i])
        invariant events == before + HarvestEvents(old(purses), harvests[..i])
      {
        assert harvests[..i + 1][..i] == harvests[..i];
        var y := harvests[i];
        if y.owner in purses {
          purses := Gain(purses, y.owner, 0, y.wood as real, y.stone as real);
          events := events + [TileIncome(y.owner, y.wood, y.stone)];
        }
      }
      assert harvests[..|harvests|] == harvests;
    }

    method FinishTurn(p: PlayerId) returns (events: Option<seq<Event>>)
      modifies this`purses, rounds
      ensures Yields(ExecuteFinishTurn(old(Now()), p), Now(), events)
    {
      hide EndTurn, AfterForts, AfterHarvests, FortEvents, HarvestEvents, Tally;
      var prevRound := rounds.currentRound;
      var turn := rounds.End(players.bySeat, TURN_PHASE);
      if turn.None? {
        return None;
      }
      var (next, newRound) := turn.value;
      var sent := [TurnEnded(p, next)];
      if newRound {
        sent := sent + [RoundEnded(prevRound)];
        sent := PayForts(sent);
        var harvests := CollectHarvests();
        ghost var mid := purses;
        sent := PayHarvests(harvests, sent);
        EventsReadKeys(mid, old(purses), harvests);
        assert [TurnEnded(p, next)] + [RoundEnded(prevRound)] == [TurnEnded(p, next), RoundEnded(prevRound)];
      }
      events := Some(sent);
    }

    method Trade(p: PlayerId, resource: Option<Resource>) returns (events: Option<seq<Event>>)
      modifies this`purses, rounds
      ensures Yields(ExecuteTrade(old(Now()), p, resource), Now(), events)
    {
      if p !in purses || resource.None? {
        return None;
      }
      if resource.value == Wood {
        if purses[p].wood < 2.0 {
          return None;
        }
        purses := Gain(purses, p, 0, -2.0, 0.0);
        purses := Gain(purses, p, 1, 0.0, 0.0);
        assert purses == Gain(old(purses), p, 1, -2.0, 0.0);
        return Some([Traded(p, Wood)]);
      }
      if purses[p].stone < 2.0 {
        return None;
      }
      purses := Gain(purses, p, 0, 0.0, -2.0);
      rounds.SetFlag(LEAP, true);
      events := Some([Traded(p, Stone)]);
    }

    method Fortify(p: PlayerId, tile: Coord) returns (events: Option<seq<Event>>)
      modifies this`purses, this`forts
      ensures Yields(ExecuteFortify(old(Now()), p, tile), Now(), events)
    {
      if p !in purses || purses[p].wood < 2.0 || purses[p].stone < 1.0 {
        return None;
      }
      purses := Gain(purses, p, 0, -2.0, 0.0);
      purses := Gain(purses, p, 0, 0.0, -1.0);
      assert purses == Gain(old(purses), p, 0, -2.0, -1.0);
      forts := PutFort(forts, tile, p);
      events := Some([Fortified(p, tile)]);
    }

    method PostOffer(p: PlayerId, gw: Quantity, gs: Quantity, ww: Quantity, ws: Quantity) returns (events: Option<seq<Event>>)
      modifies this`purses, this`offers, this`lastOfferId
      ensures Yields(ExecutePost(old(Now()), p, gw, gs, ww, ws), Now(), events)
    {
      if p !in purses || !Takes(purses[p].wood, gw) || !Takes(purses[p].stone, gs) {
        return None;
      }
      if Moved(gw) > 0.0 {
        purses := Gain(purses, p, 0, -Moved(gw), 0.0);
      }
      if Moved(gs) > 0.0 {
        purses := Gain(purses, p, 0, 0.0, -Moved(gs));
      }
      assert purses == Gain(old(purses), p, 0, -Moved(gw), -Moved(gs));
      lastOfferId := lastOfferId + 1;
      var offer := Offer(lastOfferId, p, gw, gs, ww, ws);
      offers := offers + [offer];
      events := Some([OfferPosted(p, offer)]);
    }

    /** Payment and delivery, one ware at a time. */
    method Deal(p: PlayerId, o: Offer)
      requires p in purses && o.from in purses
      modifies this`purses
      ensures purses == AfterDeal(old(purses), p, o)
    {
      purses := Gain(purses, p, 0, -Moved(o.wantWood), 0.0);
      purses := Gain(purses, p, 0, 0.0, -Moved(o.wantStone));
      purses := Gain(purses, p, 0, Moved(o.giveWood), 0.0);
      purses := Gain(purses, p, 0, 0.0, Moved(o.giveStone));
      assert purses == Gain(old(purses), p, 0, Moved(o.giveWood) - Moved(o.wantWood),
                            Moved(o.giveStone) - Moved(o.wantStone));
      ghost var paid := purses;
      purses := Gain(purses, o.from, 0, Moved(o.wantWood), 0.0);
      purses := Gain(purses, o.from, 0, 0.0, Moved(o.wantStone));
      assert purses == Gain(paid, o.from, 0, Moved(o.wantWood), Moved(o.wantStone));
    }

    method AcceptOffer(p: PlayerId, id: nat) returns (events: Option<seq<Event>>)
      modifies this`purses, this`offers
      ensures Yields(ExecuteAccept(old(Now()), p, id), Now(), events)
    {
      hide AfterDeal, WithoutOffer, FindOffer;
      var found := FindOffer(offers, id);
      if found.None? {
        return None;
      }
      var o := found.value;
      if p !in purses || o.from !in purses
         || !Takes(purses[p].wood, o.wantWood) || !Takes(purses[p].stone, o.wantStone) {
        return None;
      }
      Deal(p, o);
      offers := WithoutOffer(offers, o.id);
      events := Some([OfferAccepted(p, o)]);
    }

    method CancelOffer(p: PlayerId, id: nat) returns (events: Option<seq<Event>>)
      modifies this`purses, this`offers
      ensures Yields(ExecuteCancel(old(Now()), p, id), Now(), events)
    {
      hide WithoutOffer, FindOffer;
      var found := FindOffer(offers, id);
      if found.None? || p !in purses {
        return None;
      }
      var o := found.value;
      if Moved(o.giveWood) > 0.0 {
        purses := Gain(purses, p, 0, Moved(o.giveWood), 0.0);
      }
      if Moved(o.giveStone) > 0.0 {
        purses := Gain(purses, p, 0, 0.0, Moved(o.giveStone));
      }
      assert purses == Gain(old(purses), p, 0, Moved(o.giveWood), Moved(o.giveStone));
      offers := WithoutOffer(offers, o.id);
      events := Some([OfferCancelled(p, o)]);
    }

    method Carry(c: Command) returns (events: Option<seq<Event>>)
      modifies this, rounds, rng
      ensures Yields(Execute(old(Now()), c), Now(), events)
    {
      hide ExecuteClaim, ExecuteFinishTurn, ExecuteTrade, ExecuteFortify, ExecutePost, ExecuteAccept, ExecuteCancel;
      if c.player.None? {
        return None;
      }
      var p := c.player.value;
      match c.action
      case ClaimTile(tile) => events := ClaimTile(p, tile);
      case FinishTurn => events := FinishTurn(p);
      case Trade(resource) => events := Trade(p, resource);
      case Fortify(tile) => events := Fortify(p, tile);
      case PostOffer(gw, gs, ww, ws) => events := PostOffer(p, gw, gs, ww, ws);
      case AcceptOffer(id) => events := AcceptOffer(p, id);
      case CancelOffer(id) => events := CancelOffer(p, id);
    }

    /** Any command, from any reachable state: a rejected one changes nothing, an accepted one runs through without an
        exception, and the invariant is kept. */
    method Take(c: Command) returns (rejected: Option<Error>, events: seq<Event>)
      requires Inv(Now())
      modifies this, rounds, rng
      ensures Inv(Now())
      ensures rejected == Validate(old(Now()), c)
      ensures rejected.Some? ==> Now() == old(Now()) && events == []
      ensures rejected.None? ==> Execute(old(Now()), c) == Done(Now(), events)
    {
      hide Inv, Validate, Execute;
      rejected := Check(Now(), c);
      if rejected.Some? {
        return rejected, [];
      }
      AcceptedActionKeepsInv(Now(), c);
      var result := Carry(c);
      events := result.value;
    }
  }
}
