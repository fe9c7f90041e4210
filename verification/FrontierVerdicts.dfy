/**
 * What the validators of Frontier decide, told from flags, forts, offers and inventories: for each action the list of
 * demands it must meet, in order, each with the error a player is told for the first one missed.
 */
module FrontierVerdicts {
  import opened Collections
  import opened Hex
  import opened Board
  import opened Random
  import opened Rounds
  import opened FrontierMap
  import opened FrontierRules
  import opened FrontierInvariant

  /** Nobody's flag stands on the tile. */
  ghost predicate Free(s: State, tile: Coord) {
    tile in s.board.tiles && forall p :: Flag(p, tile) !in s.flags
  }

  /** The player has a flag next to the tile. */
  ghost predicate NextToOwn(s: State, p: PlayerId, tile: Coord) {
    exists c :: Flag(p, c) in s.flags && Distance(c, tile) == 1
  }

  lemma OccupiedIsNotFree(s: State, tile: Coord)
    requires tile in s.board.tiles
    ensures Free(s, tile) <==> !Occupied(s.flags, tile)
  {
    forall f | f in s.flags && f.tile == tile ensures !Free(s, tile) {
      assert f == Flag(f.owner, tile);
    }
  }

  lemma BordersIsNextToOwn(s: State, p: PlayerId, tile: Coord)
    requires forall f <- s.flags :: f.tile in s.board.tiles
    ensures Borders(s, p, tile) <==> NextToOwn(s, p, tile)
    ensures HasTerritory(s, p) <==> exists c :: Flag(p, c) in s.flags
  {
    hide Distance, IsNeighbour;
    forall c ensures IsNeighbour(c, tile) <==> Distance(c, tile) == 1 {
      NeighbourCharacterisations(c, tile);
    }
    forall f | f in s.flags && f.owner == p ensures f == Flag(p, f.tile) {
    }
    if NextToOwn(s, p, tile) {
      var c :| Flag(p, c) in s.flags && Distance(c, tile) == 1;
      assert Flag(p, c).tile == c;
    }
    if c :| Flag(p, c) in s.flags {
      assert Flag(p, c).tile == c;
    }
  }

  lemma FlagsOnBoard(s: State)
    requires Inv(s)
    ensures (forall f <- s.flags :: f.tile in s.board.tiles) && s.rounds.turn.phase == TURN_PHASE
  {
    hide PursesOk, FortsOk, OffersOk, OneFlagPerTile, Roster;
  }

  /** A claim: the first in the turn, of a tile on the board, free, and next to a flag of the player unless a leap is
      pending. */
  lemma ClaimVerdict(s: State, p: PlayerId, tile: Coord)
    requires Inv(s)
    ensures ValidateClaim(s, p, tile) ==
            Demand(!Raised(s, CLAIMED), AlreadyClaimed, Demand(tile in s.board.tiles, InvalidTile,
              Demand(Free(s, tile), TileOccupied,
                if Raised(s, LEAP) then None
                else Demand(exists c :: Flag(p, c) in s.flags, NoTerritory, Demand(NextToOwn(s, p, tile), NotAdjacent, None)))))
  {
    hide Inv, Free, NextToOwn, Occupied, Borders, HasTerritory, Raised;
    FlagsOnBoard(s);
    BordersIsNextToOwn(s, p, tile);
    if tile in s.board.tiles {
      OccupiedIsNotFree(s, tile);
    }
  }

  /** A trade needs two of the ware; a stone trade moreover no leap pending. */
  lemma TradeVerdict(s: State, p: PlayerId, resource: Option<Resource>)
    requires p in s.purses
    ensures ValidateTrade(s, p, resource) ==
            Demand(resource.Some?, InvalidResource,
              if resource == Some(Wood) then Demand(s.purses[p].wood >= 2.0, Insufficient, None)
              else Demand(s.purses[p].stone >= 2.0, Insufficient, Demand(!Raised(s, LEAP), AlreadyLeaping, None)))
  {
  }

  /** A fort needs two wood and a stone and goes on an own flag without one. */
  lemma FortifyVerdict(s: State, p: PlayerId, tile: Coord)
    requires Inv(s) && p in s.purses
    ensures ValidateFortify(s, p, tile) ==
            Demand(s.purses[p].wood >= 2.0 && s.purses[p].stone >= 1.0, Insufficient, Demand(tile in s.board.tiles, InvalidTile,
              Demand(Flag(p, tile) in s.flags, NotYours, Demand(forall q :: Fort(tile, q) !in s.forts, AlreadyFortified, None))))
  {
    hide Inv, TileOwner, Fortressed;
    FlagGivesTile(s, p, tile);
    NoFortThere(s, tile);
  }

  lemma NoFortThere(s: State, tile: Coord)
    ensures Fortressed(s.forts, tile) <==> exists q :: Fort(tile, q) in s.forts
  {
    if Fortressed(s.forts, tile) {
      var f :| f in s.forts && f.tile == tile;
      assert f == Fort(tile, f.owner);
    }
  }

  /** The owner of a tile is the one whose flag stands on it. */
  lemma FlagGivesTile(s: State, p: PlayerId, tile: Coord)
    requires Inv(s)
    ensures TileOwner(s.flags, tile) == Some(p) <==> Flag(p, tile) in s.flags
  {
    hide SeatsOk, PursesOk, FortsOk, OffersOk;
    OwnerHasFlag(s.flags, tile);
    if Flag(p, tile) in s.flags {
      assert Occupied(s.flags, tile) by { assert Flag(p, tile).tile == tile; }
    }
  }

  /** The open offers of a player. */
  function OpenOffers(s: State, p: PlayerId): set<Offer> {
    set o | o in s.offers && o.from == p
  }

  lemma {:induction false} OffersCounted(offers: seq<Offer>, p: PlayerId)
    requires DistinctOffers(offers)
    ensures OffersBy(offers, p) == |set o | o in offers && o.from == p|
  {
    hide DistinctOffers;
    if offers != [] {
      HeadOffer(offers);
      OffersCounted(offers[1..], p);
      OneMoreOffer(offers[0], offers[1..], p);
      assert offers == [offers[0]] + offers[1..];
    }
  }

  lemma OneMoreOffer(o: Offer, rest: seq<Offer>, p: PlayerId)
    requires o !in rest
    ensures |set x | x in [o] + rest && x.from == p| == |set x | x in rest && x.from == p| + if o.from == p then 1 else 0
  {
    var before := set x | x in rest && x.from == p;
    assert forall x :: x in [o] + rest <==> x == o || x in rest;
    assert (set x | x in [o] + rest && x.from == p) == before + if o.from == p then {o} else {};
  }

  lemma HeadOffer(offers: seq<Offer>)
    requires DistinctOffers(offers) && offers != []
    ensures DistinctOffers(offers[1..]) && offers[0] !in offers[1..]
  {
    var rest := offers[1..];
    forall i, j | 0 <= i < j < |rest| ensures rest[i].id != rest[j].id {
      assert offers[i + 1].id != offers[j + 1].id;
    }
    forall i | 0 <= i < |rest| ensures rest[i] != offers[0] {
      assert offers[0].id != offers[i + 1].id;
    }
  }

  lemma OffersDiffer(s: State)
    requires Inv(s)
    ensures DistinctOffers(s.offers)
  {
    hide SeatsOk, PursesOk, FlagsOk, FortsOk, OffersBy, FairOffer;
  }

  /** At least as much as was named; what was not named asks for nothing. */
  predicate Within(q: Quantity, held: real) {
    match q
    case None => true
    case Some(x) => x <= held
  }

  predicate NotNegative(q: Quantity) {
    match q
    case None => true
    case Some(x) => x >= 0.0
  }

  /** Two named quantities that are both zero. */
  predicate BothZero(q: Quantity, r: Quantity) {
    q == Some(0.0) && r == Some(0.0)
  }

  /** An offer names no negative quantity, does not give or want two zeros, gives no more than there is, and is at most
      the third open one. */
  lemma PostVerdict(s: State, p: PlayerId, gw: Quantity, gs: Quantity, ww: Quantity, ws: Quantity)
    requires Inv(s) && p in s.purses
    ensures ValidatePost(s, p, gw, gs, ww, ws) ==
            Demand(NotNegative(gw) && NotNegative(gs) && NotNegative(ww) && NotNegative(ws), Invalid,
              Demand(!BothZero(gw, gs) && !BothZero(ww, ws), Invalid,
                Demand(Within(gw, s.purses[p].wood) && Within(gs, s.purses[p].stone), Insufficient,
                  Demand(|OpenOffers(s, p)| <= 2, TooManyOffers, None))))
  {
    hide Inv, OffersBy;
    OffersDiffer(s);
    OffersCounted(s.offers, p);
  }

  lemma {:induction false} FoundOffer(offers: seq<Offer>, o: Offer)
    requires DistinctOffers(offers) && o in offers
    ensures FindOffer(offers, o.id) == Some(o)
  {
    var found := FindOffer(offers, o.id).value;
    var i :| 0 <= i < |offers| && offers[i] == o;
    var j :| 0 <= j < |offers| && offers[j] == found;
    assert i == j;
  }

  /** Accepting: an open offer of somebody else, asking no more than there is. */
  lemma AcceptVerdict(s: State, p: PlayerId, o: Offer, id: nat)
    requires Inv(s) && p in s.purses
    ensures (forall x <- s.offers :: x.id != id) ==> ValidateAccept(s, p, id) == Some(NoOffer)
    ensures o in s.offers ==>
              ValidateAccept(s, p, o.id) ==
              Demand(o.from != p, OwnOffer,
                Demand(Within(o.wantWood, s.purses[p].wood) && Within(o.wantStone, s.purses[p].stone), Insufficient, None))
  {
    hide Inv, FindOffer;
    OffersDiffer(s);
    if o in s.offers {
      FoundOffer(s.offers, o);
    }
  }

  /** Cancelling: an open offer of one's own. */
  lemma CancelVerdict(s: State, p: PlayerId, o: Offer, id: nat)
    requires Inv(s)
    ensures (forall x <- s.offers :: x.id != id) ==> ValidateCancel(s, p, id) == Some(NoOffer)
    ensures o in s.offers ==> ValidateCancel(s, p, o.id) == Demand(o.from == p, NotYours, None)
  {
    hide Inv, FindOffer;
    OffersDiffer(s);
    if o in s.offers {
      FoundOffer(s.offers, o);
    }
  }

  /** Only the holder of the turn may act, and only it. */
  lemma TurnVerdict(s: State, c: Command)
    requires Inv(s)
    ensures Validate(s, c) == Some(NoPlayer) <==> c.player.None? || c.player.value.text == ""
    ensures Validate(s, c) == Some(NotYourTurn) <==>
              c.player.Some? && c.player.value.text != "" && c.player.value != s.rounds.turn.activePlayer
    ensures c.player == Some(s.rounds.turn.activePlayer) && c.action.FinishTurn? ==> Validate(s, c).None?
  {
    hide Inv, ValidateClaim, ValidateTrade, ValidateFortify, ValidatePost, ValidateAccept, ValidateCancel;
    GuardPassed(s, c.player);
    if c.player == Some(TurnHolder(s)) {
      NoTurnErrors(s, c);
    }
  }

  lemma NoTurnErrors(s: State, c: Command)
    requires Guard(s, c.player).None?
    ensures Validate(s, c) != Some(NoPlayer) && Validate(s, c) != Some(NotYourTurn)
  {
    hide Raised, Occupied, HasTerritory, Borders, TileOwner, Fortressed, OffersBy, FindOffer;
  }
}
