/** What every Frontier state reachable from setup satisfies, and that no accepted action throws. */
module FrontierInvariant {
  import opened Collections
  import opened Hex
  import opened Board
  import opened Random
  import opened Rounds
  import opened FrontierMap
  import opened FrontierRules

  // ---- The invariant ------------------------------------------------------------------------

  /** Distinct players with non-empty ids, all of them in the game; the holder of the turn is one of them. */
  ghost predicate SeatsOk(roster: seq<Player>, rounds: RoundState) {
    && Roster(roster) && (forall p <- roster :: p.status == Active && p.id.text != "")
    && rounds.turn.activePlayer in RosterIds(roster) && rounds.turn.phase == TURN_PHASE
  }

  /** Every player has an inventory, nobody else, and nothing in it is negative. */
  ghost predicate PursesOk(purses: map<PlayerId, Purse>, holders: seq<PlayerId>, ids: set<PlayerId>) {
    && NoDup(holders) && (forall p :: p in holders <==> p in purses) && purses.Keys == ids
    && forall p <- purses.Keys :: Solvent(purses[p])
  }

  predicate Solvent(b: Purse) {
    b.vp >= 0 && b.wood >= 0.0 && b.stone >= 0.0
  }

  /** At most one flag per tile, on the map, of a player. */
  ghost predicate FlagsOk(flags: seq<Flag>, board: GameMap<Terrain>, ids: set<PlayerId>) {
    && board.Valid() && OneFlagPerTile(flags)
    && forall f <- flags :: f.tile in board.tiles && f.owner in ids
  }

  ghost predicate OneFlagPerTile(flags: seq<Flag>) {
    forall i, j :: 0 <= i < j < |flags| ==> flags[i].tile != flags[j].tile
  }

  /** At most one fort per tile, and it stands on its owner's flag. */
  ghost predicate FortsOk(forts: seq<Fort>, flags: seq<Flag>) {
    && (forall i, j :: 0 <= i < j < |forts| ==> forts[i].tile != forts[j].tile)
    && forall f <- forts :: Flag(f.owner, f.tile) in flags
  }

  /** Offer ids are distinct and have been issued; a player has at most three offers, and no quantity is
      negative, and an offer with all its fields gives something and wants something. */
  ghost predicate OffersOk(offers: seq<Offer>, issued: nat, ids: set<PlayerId>) {
    && DistinctOffers(offers)
    && (forall o <- offers :: 1 <= o.id <= issued && o.from in ids && FairOffer(o))
    && forall p :: OffersBy(offers, p) <= 3
  }

  ghost predicate DistinctOffers(offers: seq<Offer>) {
    forall i, j :: 0 <= i < j < |offers| ==> offers[i].id != offers[j].id
  }

  predicate FairOffer(o: Offer) {
    && !Negative(o.giveWood) && !Negative(o.giveStone) && !Negative(o.wantWood) && !Negative(o.wantStone)
    && !Nothing(o.giveWood, o.giveStone) && !Nothing(o.wantWood, o.wantStone)
  }

  ghost predicate Inv(s: State) {
    && SeatsOk(s.roster, s.rounds)
    && PursesOk(s.purses, s.holders, RosterIds(s.roster))
    && FlagsOk(s.flags, s.board, RosterIds(s.roster))
    && FortsOk(s.forts, s.flags)
    && OffersOk(s.offers, s.lastOfferId, RosterIds(s.roster))
  }

  // ---- Components ------------------------------------------------------------------------------

  lemma GainKeepsPurses(purses: map<PlayerId, Purse>, holders: seq<PlayerId>, ids: set<PlayerId>, p: PlayerId,
                        vp: int, wood: real, stone: real)
    requires PursesOk(purses, holders, ids) && p in purses
    requires Solvent(Gain(purses, p, vp, wood, stone)[p])
    ensures PursesOk(Gain(purses, p, vp, wood, stone), holders, ids)
  {
  }

  lemma NewFlag(flags: seq<Flag>, board: GameMap<Terrain>, ids: set<PlayerId>, f: Flag)
    requires FlagsOk(flags, board, ids) && !Occupied(flags, f.tile) && f.tile in board.tiles && f.owner in ids
    ensures PutFlag(flags, f) == flags + [f] && FlagsOk(flags + [f], board, ids)
  {
  }

  lemma FortsStand(forts: seq<Fort>, flags: seq<Flag>, f: Flag)
    requires FortsOk(forts, flags)
    ensures FortsOk(forts, flags + [f])
  {
  }

  lemma {:induction false} OwnerHasFlag(flags: seq<Flag>, tile: Coord)
    ensures TileOwner(flags, tile).Some? ==> Flag(TileOwner(flags, tile).value, tile) in flags
    ensures TileOwner(flags, tile).None? <==> !Occupied(flags, tile)
  {
    if flags != [] {
      OwnerHasFlag(flags[1..], tile);
      assert flags == [flags[0]] + flags[1..];
    }
  }

  lemma {:induction false} NewFort(forts: seq<Fort>, tile: Coord, p: PlayerId)
    requires !Fortressed(forts, tile)
    ensures PutFort(forts, tile, p) == forts + [Fort(tile, p)]
  {
    if forts != [] {
      assert forall f <- forts[1..] :: f in forts;
      NewFort(forts[1..], tile, p);
      assert forts == [forts[0]] + forts[1..];
    } else {
      assert forts + [Fort(tile, p)] == [Fort(tile, p)];
    }
  }

  lemma NewFortKeepsForts(forts: seq<Fort>, flags: seq<Flag>, tile: Coord, p: PlayerId)
    requires FortsOk(forts, flags) && !Fortressed(forts, tile) && Flag(p, tile) in flags
    ensures FortsOk(forts + [Fort(tile, p)], flags)
  {
  }

  lemma {:induction false} OffersByAppend(offers: seq<Offer>, o: Offer, p: PlayerId)
    ensures OffersBy(offers + [o], p) == OffersBy(offers, p) + if o.from == p then 1 else 0
  {
    if offers == [] {
      assert [] + [o] == [o];
    } else {
      assert (offers + [o])[1..] == offers[1..] + [o];
      OffersByAppend(offers[1..], o, p);
    }
  }

  lemma {:induction false} OffersByWithout(offers: seq<Offer>, id: nat, p: PlayerId)
    ensures OffersBy(WithoutOffer(offers, id), p) <= OffersBy(offers, p)
  {
    if offers != [] {
      OffersByWithout(offers[1..], id, p);
    }
  }

  lemma {:induction false} WithoutKeepsDistinct(offers: seq<Offer>, id: nat)
    requires DistinctOffers(offers)
    ensures DistinctOffers(WithoutOffer(offers, id))
  {
    if offers != [] {
      WithoutKeepsDistinct(offers[1..], id);
      var rest := WithoutOffer(offers[1..], id);
      forall j | 0 <= j < |rest| ensures rest[j].id != offers[0].id {
        assert rest[j] in offers[1..];
      }
    }
  }

  lemma PostKeepsOffers(offers: seq<Offer>, issued: nat, ids: set<PlayerId>, o: Offer)
    requires OffersOk(offers, issued, ids) && o.id == issued + 1 && o.from in ids && FairOffer(o)
    requires OffersBy(offers, o.from) < 3
    ensures OffersOk(offers + [o], issued + 1, ids)
  {
    hide OffersBy, FairOffer;
    forall p ensures OffersBy(offers + [o], p) <= 3 {
      OffersByAppend(offers, o, p);
    }
    forall i, j | 0 <= i < j < |offers + [o]| ensures (offers + [o])[i].id != (offers + [o])[j].id {
      if j == |offers| {
        assert offers[i] in offers;
      }
    }
  }

  lemma RemovalKeepsOffers(offers: seq<Offer>, issued: nat, ids: set<PlayerId>, id: nat)
    requires OffersOk(offers, issued, ids)
    ensures OffersOk(WithoutOffer(offers, id), issued, ids)
  {
    hide OffersBy, FairOffer;
    WithoutKeepsDistinct(offers, id);
    forall p ensures OffersBy(WithoutOffer(offers, id), p) <= 3 {
      OffersByWithout(offers, id, p);
    }
  }

  lemma FlagsRaisedKeepSeats(s: State, flag: string, value: bool)
    requires Inv(s)
    ensures Inv(Raise(s, flag, value))
  {
    hide PursesOk, FlagsOk, FortsOk, OffersOk, Roster;
  }

  lemma {:induction false} FortIncomeKeepsPurses(purses: map<PlayerId, Purse>, holders: seq<PlayerId>,
                                                 ids: set<PlayerId>, forts: seq<Fort>)
    requires PursesOk(purses, holders, ids)
    ensures PursesOk(AfterForts(purses, forts), holders, ids)
  {
    hide PursesOk;
    if forts != [] {
      var init, f := forts[..|forts| - 1], forts[|forts| - 1];
      FortIncomeKeepsPurses(purses, holders, ids, init);
      if f.owner in purses {
        SolventHolder(AfterForts(purses, init), holders, ids, f.owner);
        GainKeepsPurses(AfterForts(purses, init), holders, ids, f.owner, 1, 0.0, 0.0);
      }
    }
  }

  lemma SolventHolder(purses: map<PlayerId, Purse>, holders: seq<PlayerId>, ids: set<PlayerId>, p: PlayerId)
    requires PursesOk(purses, holders, ids)
    ensures p in ids <==> p in purses
    ensures p in purses ==> Solvent(purses[p])
  {
  }

  lemma {:induction false} TileIncomeKeepsPurses(purses: map<PlayerId, Purse>, holders: seq<PlayerId>,
                                                 ids: set<PlayerId>, harvests: seq<Harvest>)
    requires PursesOk(purses, holders, ids)
    ensures PursesOk(AfterHarvests(purses, harvests), holders, ids)
  {
    hide PursesOk;
    if harvests != [] {
      var init, y := harvests[..|harvests| - 1], harvests[|harvests| - 1];
      TileIncomeKeepsPurses(purses, holders, ids, init);
      if y.owner in purses {
        SolventHolder(AfterHarvests(purses, init), holders, ids, y.owner);
        GainKeepsPurses(AfterHarvests(purses, init), holders, ids, y.owner, 0, y.wood as real, y.stone as real);
      }
    }
  }

  // ---- The seven actions -----------------------------------------------------------------------------

  lemma GuardPassed(s: State, player: Option<PlayerId>)
    requires Inv(s)
    ensures Guard(s, player).None? <==> player == Some(TurnHolder(s))
    ensures TurnHolder(s) in s.purses && TurnHolder(s) in RosterIds(s.roster)
  {
    hide FlagsOk, FortsOk, OffersOk, Roster, NoDup;
    var x :| x in s.roster && x.id == TurnHolder(s);
  }

  lemma DiceInRange(x: bv32)
    ensures 1 <= Die1(x) <= 6 && 1 <= Die2(x) <= 6
  {
    hide Draw, Step;
  }

  lemma ClaimKeepsInv(s: State, p: PlayerId, tile: Coord)
    requires Inv(s) && p == TurnHolder(s) && ValidateClaim(s, p, tile).None?
    ensures ExecuteClaim(s, p, tile).Done? && Inv(ExecuteClaim(s, p, tile).state)
  {
    hide SeatsOk, PursesOk, FlagsOk, FortsOk, OffersOk, Draw, Step, Occupied, HasTerritory, Borders, PutFlag;
    GuardPassed(s, Some(p));
    SolventHolder(s.purses, s.holders, RosterIds(s.roster), p);
    var terrain := s.board.tiles[tile];
    var vp := TerrainVp(terrain) + Bonus(Die1(s.rng) + Die2(s.rng));
    var resource := TerrainResource(terrain);
    GainKeepsPurses(s.purses, s.holders, RosterIds(s.roster), p, vp, Drop(resource, Wood), Drop(resource, Stone));
    NewFlag(s.flags, s.board, RosterIds(s.roster), Flag(p, tile));
    FortsStand(s.forts, s.flags, Flag(p, tile));
    var s1 := s.(purses := Gain(s.purses, p, vp, Drop(resource, Wood), Drop(resource, Stone)),
                 flags := PutFlag(s.flags, Flag(p, tile)), rng := Step(Step(s.rng)));
    FlagsRaisedKeepSeats(s1, CLAIMED, true);
    FlagsRaisedKeepSeats(Raise(s1, CLAIMED, true), LEAP, false);
  }

  lemma TurnMovesOn(roster: seq<Player>, rounds: RoundState)
    requires SeatsOk(roster, rounds)
    ensures EndTurn(rounds, roster, TURN_PHASE).Some?
    ensures SeatsOk(roster, EndTurn(rounds, roster, TURN_PHASE).value.0)
  {
    hide Roster, ClockwiseNext, SeatOf;
    ClockwiseNamesActivePlayer(rounds.turn.activePlayer, roster);
    var holder :| holder in roster && holder.id == rounds.turn.activePlayer;
  }

  lemma FinishKeepsInv(s: State, p: PlayerId)
    requires Inv(s)
    ensures ExecuteFinishTurn(s, p).Done? && Inv(ExecuteFinishTurn(s, p).state)
  {
    hide SeatsOk, PursesOk, FlagsOk, FortsOk, OffersOk, EndTurn, Tally, AfterForts, AfterHarvests, FortEvents, HarvestEvents;
    TurnMovesOn(s.roster, s.rounds);
    FortIncomeKeepsPurses(s.purses, s.holders, RosterIds(s.roster), s.forts);
    TileIncomeKeepsPurses(AfterForts(s.purses, s.forts), s.holders, RosterIds(s.roster), Tally(s.board, s.flags));
  }

  lemma TradeKeepsInv(s: State, p: PlayerId, resource: Option<Resource>)
    requires Inv(s) && p == TurnHolder(s) && ValidateTrade(s, p, resource).None?
    ensures ExecuteTrade(s, p, resource).Done? && Inv(ExecuteTrade(s, p, resource).state)
  {
    hide SeatsOk, PursesOk, FlagsOk, FortsOk, OffersOk, Raised;
    GuardPassed(s, Some(p));
    SolventHolder(s.purses, s.holders, RosterIds(s.roster), p);
    if resource == Some(Wood) {
      GainKeepsPurses(s.purses, s.holders, RosterIds(s.roster), p, 1, -2.0, 0.0);
    } else {
      GainKeepsPurses(s.purses, s.holders, RosterIds(s.roster), p, 0, 0.0, -2.0);
      FlagsRaisedKeepSeats(s.(purses := Gain(s.purses, p, 0, 0.0, -2.0)), LEAP, true);
    }
  }

  lemma FortifyKeepsInv(s: State, p: PlayerId, tile: Coord)
    requires Inv(s) && p == TurnHolder(s) && ValidateFortify(s, p, tile).None?
    ensures ExecuteFortify(s, p, tile).Done? && Inv(ExecuteFortify(s, p, tile).state)
  {
    hide SeatsOk, PursesOk, FlagsOk, FortsOk, OffersOk, TileOwner, Fortressed, PutFort;
    GuardPassed(s, Some(p));
    SolventHolder(s.purses, s.holders, RosterIds(s.roster), p);
    GainKeepsPurses(s.purses, s.holders, RosterIds(s.roster), p, 0, -2.0, -1.0);
    OwnerHasFlag(s.flags, tile);
    NewFort(s.forts, tile, p);
    NewFortKeepsForts(s.forts, s.flags, tile, p);
  }

  lemma PostKeepsInv(s: State, p: PlayerId, gw: Quantity, gs: Quantity, ww: Quantity, ws: Quantity)
    requires Inv(s) && p == TurnHolder(s) && ValidatePost(s, p, gw, gs, ww, ws).None?
    ensures ExecutePost(s, p, gw, gs, ww, ws).Done? && Inv(ExecutePost(s, p, gw, gs, ww, ws).state)
  {
    hide SeatsOk, PursesOk, FlagsOk, FortsOk, OffersOk, OffersBy;
    GuardPassed(s, Some(p));
    SolventHolder(s.purses, s.holders, RosterIds(s.roster), p);
    GainKeepsPurses(s.purses, s.holders, RosterIds(s.roster), p, 0, -Moved(gw), -Moved(gs));
    PostKeepsOffers(s.offers, s.lastOfferId, RosterIds(s.roster), Offer(s.lastOfferId + 1, p, gw, gs, ww, ws));
  }

  lemma OfferIsFair(s: State, id: nat)
    requires Inv(s) && FindOffer(s.offers, id).Some?
    ensures FairOffer(FindOffer(s.offers, id).value)
    ensures FindOffer(s.offers, id).value.from in s.purses
  {
    hide SeatsOk, FlagsOk, FortsOk, NoDup;
  }

  lemma AcceptKeepsInv(s: State, p: PlayerId, id: nat)
    requires Inv(s) && p == TurnHolder(s) && ValidateAccept(s, p, id).None?
    ensures ExecuteAccept(s, p, id).Done? && Inv(ExecuteAccept(s, p, id).state)
  {
    hide SeatsOk, PursesOk, FlagsOk, FortsOk, OffersOk, FindOffer, WithoutOffer;
    GuardPassed(s, Some(p));
    OfferIsFair(s, id);
    var o, ids := FindOffer(s.offers, id).value, RosterIds(s.roster);
    SolventHolder(s.purses, s.holders, ids, p);
    SolventHolder(s.purses, s.holders, ids, o.from);
    var dw, ds := Moved(o.giveWood) - Moved(o.wantWood), Moved(o.giveStone) - Moved(o.wantStone);
    GainKeepsPurses(s.purses, s.holders, ids, p, 0, dw, ds);
    GainKeepsPurses(Gain(s.purses, p, 0, dw, ds), s.holders, ids, o.from, 0, Moved(o.wantWood), Moved(o.wantStone));
    RemovalKeepsOffers(s.offers, s.lastOfferId, ids, o.id);
  }

  lemma CancelKeepsInv(s: State, p: PlayerId, id: nat)
    requires Inv(s) && p == TurnHolder(s) && ValidateCancel(s, p, id).None?
    ensures ExecuteCancel(s, p, id).Done? && Inv(ExecuteCancel(s, p, id).state)
  {
    hide SeatsOk, PursesOk, FlagsOk, FortsOk, OffersOk, FindOffer, WithoutOffer;
    GuardPassed(s, Some(p));
    OfferIsFair(s, id);
    var o, ids := FindOffer(s.offers, id).value, RosterIds(s.roster);
    SolventHolder(s.purses, s.holders, ids, p);
    GainKeepsPurses(s.purses, s.holders, ids, p, 0, Moved(o.giveWood), Moved(o.giveStone));
    RemovalKeepsOffers(s.offers, s.lastOfferId, ids, o.id);
  }

  /** An accepted action never throws and keeps the invariant. */
  lemma AcceptedActionKeepsInv(s: State, c: Command)
    requires Inv(s) && Validate(s, c).None?
    ensures Execute(s, c).Done? && Inv(Execute(s, c).state)
  {
    hide Inv, Guard, ValidateClaim, ValidateTrade, ValidateFortify, ValidatePost, ValidateAccept, ValidateCancel,
         ExecuteClaim, ExecuteFinishTurn, ExecuteTrade, ExecuteFortify, ExecutePost, ExecuteAccept, ExecuteCancel;
    GuardPassed(s, c.player);
    var p := c.player.value;
    match c.action
    case ClaimTile(tile) => ClaimKeepsInv(s, p, tile);
    case FinishTurn => FinishKeepsInv(s, p);
    case Trade(resource) => TradeKeepsInv(s, p, resource);
    case Fortify(tile) => FortifyKeepsInv(s, p, tile);
    case PostOffer(gw, gs, ww, ws) => PostKeepsInv(s, p, gw, gs, ww, ws);
    case AcceptOffer(id) => AcceptKeepsInv(s, p, id);
    case CancelOffer(id) => CancelKeepsInv(s, p, id);
  }
}
