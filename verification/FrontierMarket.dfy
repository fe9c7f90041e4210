/** Accounting: what each event mints or burns, and the conservation law of the trade market. */
module FrontierMarket {
  import opened Collections
  import opened Hex
  import opened Board
  import opened Random
  import opened Rounds
  import opened FrontierMap
  import opened FrontierRules
  import opened FrontierInvariant

  datatype Ware = VpWare | WoodWare | StoneWare

  function Holding(b: Purse, w: Ware): real {
    match w
    case VpWare => b.vp as real
    case WoodWare => b.wood
    case StoneWare => b.stone
  }

  function HoldingFn(purses: map<PlayerId, Purse>, w: Ware): PlayerId -> real {
    p => if p in purses then Holding(purses[p], w) else 0.0
  }

  /** What an open offer has set aside. */
  function Reserved(o: Offer, w: Ware): real {
    match w
    case VpWare => 0.0
    case WoodWare => Moved(o.giveWood)
    case StoneWare => Moved(o.giveStone)
  }

  function ReservedFn(w: Ware): Offer -> real {
    o => Reserved(o, w)
  }

  /** Everything of a ware there is: in all inventories and set aside in all open offers. */
  function Total(s: State, w: Ware): real {
    RealSum(HoldingFn(s.purses, w), s.holders) + RealSum(ReservedFn(w), s.offers)
  }

  function Pick(vp: int, wood: real, stone: real, w: Ware): real {
    match w
    case VpWare => vp as real
    case WoodWare => wood
    case StoneWare => stone
  }

  /** What an event adds to the total of a ware.  The three market events add nothing of anything. */
  function Minted(e: Event, w: Ware): real {
    match e
    case TileClaimed(_, _, _, vp, _, _, _, resource) => Pick(vp, Drop(resource, Wood), Drop(resource, Stone), w)
    case FortIncome(_, _) => Pick(1, 0.0, 0.0, w)
    case TileIncome(_, wood, stone) => Pick(0, wood as real, stone as real, w)
    case Traded(_, paid) => if paid == Wood then Pick(1, -2.0, 0.0, w) else Pick(0, 0.0, -2.0, w)
    case Fortified(_, _) => Pick(0, -2.0, -1.0, w)
    case _ => 0.0
  }

  function MintedFn(w: Ware): Event -> real {
    e => Minted(e, w)
  }

  // ---- Sums over the inventories and the offers --------------------------------------------------

  lemma GainAddsUp(purses: map<PlayerId, Purse>, holders: seq<PlayerId>, p: PlayerId, vp: int, wood: real, stone: real, w: Ware)
    requires NoDup(holders) && p in holders && p in purses
    ensures RealSum(HoldingFn(Gain(purses, p, vp, wood, stone), w), holders) ==
            RealSum(HoldingFn(purses, w), holders) + Pick(vp, wood, stone, w)
  {
    var before, after := HoldingFn(purses, w), HoldingFn(Gain(purses, p, vp, wood, stone), w);
    var i :| 0 <= i < |holders| && holders[i] == p;
    var left, right := holders[..i], holders[i + 1..];
    assert holders == left + [p] + right;
    RealSumMiddle(before, left, p, right);
    RealSumMiddle(after, left, p, right);
    RealSumCongruence(before, after, left + right);
  }

  lemma {:induction false} WithoutUnknown(offers: seq<Offer>, id: nat)
    requires forall o <- offers :: o.id != id
    ensures WithoutOffer(offers, id) == offers
  {
    if offers != [] {
      WithoutUnknown(offers[1..], id);
    }
  }

  /** Taking a found offer off the market releases exactly what it had set aside. */
  lemma {:induction false} RemovalReleases(offers: seq<Offer>, id: nat, w: Ware)
    requires DistinctOffers(offers) && FindOffer(offers, id).Some?
    ensures RealSum(ReservedFn(w), offers) ==
            RealSum(ReservedFn(w), WithoutOffer(offers, id)) + Reserved(FindOffer(offers, id).value, w)
  {
    if offers[0].id == id {
      forall o | o in offers[1..] ensures o.id != id {
        var k :| 0 <= k < |offers| - 1 && offers[1..][k] == o;
        assert offers[k + 1] == o;
      }
      WithoutUnknown(offers[1..], id);
    } else {
      RemovalReleases(offers[1..], id, w);
      var rest := WithoutOffer(offers[1..], id);
      assert ([offers[0]] + rest)[1..] == rest;
    }
  }

  lemma PostSetsAside(offers: seq<Offer>, o: Offer, w: Ware)
    ensures RealSum(ReservedFn(w), offers + [o]) == RealSum(ReservedFn(w), offers) + Reserved(o, w)
  {
    RealSumConcat(ReservedFn(w), offers, [o]);
    assert RealSum(ReservedFn(w), [o]) == Reserved(o, w);
  }

  lemma HolderListed(s: State, p: PlayerId)
    requires Inv(s)
    ensures NoDup(s.holders) && (p in s.holders <==> p in s.purses) && DistinctOffers(s.offers)
  {
    hide SeatsOk, FlagsOk, FortsOk, OffersBy, FairOffer;
  }

  // ---- The end of a round -------------------------------------------------------------------------

  lemma {:induction false} FortsMint(purses: map<PlayerId, Purse>, holders: seq<PlayerId>, forts: seq<Fort>, w: Ware)
    requires NoDup(holders) && forall p :: p in holders <==> p in purses
    ensures RealSum(HoldingFn(AfterForts(purses, forts), w), holders) ==
            RealSum(HoldingFn(purses, w), holders) + RealSum(MintedFn(w), FortEvents(purses, forts))
  {
    if forts != [] {
      var init, f := forts[..|forts| - 1], forts[|forts| - 1];
      FortsMint(purses, holders, init, w);
      if f.owner in purses {
        GainAddsUp(AfterForts(purses, init), holders, f.owner, 1, 0.0, 0.0, w);
        OneMore(FortEvents(purses, init), FortIncome(f.owner, f.tile), w);
      } else {
        assert FortEvents(purses, forts) == FortEvents(purses, init);
      }
    }
  }

  lemma OneMore(events: seq<Event>, e: Event, w: Ware)
    ensures RealSum(MintedFn(w), events + [e]) == RealSum(MintedFn(w), events) + Minted(e, w)
  {
    RealSumConcat(MintedFn(w), events, [e]);
    assert RealSum(MintedFn(w), [e]) == Minted(e, w);
  }

  lemma {:induction false} HarvestsMint(purses: map<PlayerId, Purse>, holders: seq<PlayerId>,
                                        harvests: seq<Harvest>, w: Ware)
    requires NoDup(holders) && forall p :: p in holders <==> p in purses
    ensures RealSum(HoldingFn(AfterHarvests(purses, harvests), w), holders) ==
            RealSum(HoldingFn(purses, w), holders) + RealSum(MintedFn(w), HarvestEvents(purses, harvests))
  {
    if harvests != [] {
      var init, y := harvests[..|harvests| - 1], harvests[|harvests| - 1];
      HarvestsMint(purses, holders, init, w);
      if y.owner in purses {
        GainAddsUp(AfterHarvests(purses, init), holders, y.owner, 0, y.wood as real, y.stone as real, w);
        OneMore(HarvestEvents(purses, init), TileIncome(y.owner, y.wood, y.stone), w);
      } else {
        assert HarvestEvents(purses, harvests) == HarvestEvents(purses, init);
      }
    }
  }

  lemma {:induction false} EventsReadKeys(a: map<PlayerId, Purse>, b: map<PlayerId, Purse>, harvests: seq<Harvest>)
    requires a.Keys == b.Keys
    ensures HarvestEvents(a, harvests) == HarvestEvents(b, harvests)
  {
    if harvests != [] {
      EventsReadKeys(a, b, harvests[..|harvests| - 1]);
    }
  }

  lemma FinishMints(s: State, p: PlayerId, w: Ware)
    requires Inv(s) && ExecuteFinishTurn(s, p).Done?
    ensures Total(ExecuteFinishTurn(s, p).state, w) == Total(s, w) + RealSum(MintedFn(w), ExecuteFinishTurn(s, p).events)
  {
    hide Inv, EndTurn, Tally, AfterForts, AfterHarvests, FortEvents, HarvestEvents, RealSum;
    forall q ensures q in s.holders <==> q in s.purses {
      HolderListed(s, q);
    }
    HolderListed(s, p);
    var (rounds, newRound) := EndTurn(s.rounds, s.roster, TURN_PHASE).value;
    var ended := TurnEnded(p, rounds.turn.activePlayer);
    SumOfOne(ended, w);
    if newRound {
      var harvests, mid := Tally(s.board, s.flags), AfterForts(s.purses, s.forts);
      FortsMint(s.purses, s.holders, s.forts, w);
      HarvestsMint(mid, s.holders, harvests, w);
      EventsReadKeys(mid, s.purses, harvests);
      SumOfOne(RoundEnded(s.rounds.round), w);
      var head, fe, he := [ended, RoundEnded(s.rounds.round)], FortEvents(s.purses, s.forts), HarvestEvents(s.purses, harvests);
      RealSumConcat(MintedFn(w), head + fe, he);
      RealSumConcat(MintedFn(w), head, fe);
      RealSumConcat(MintedFn(w), [ended], [RoundEnded(s.rounds.round)]);
      assert head == [ended] + [RoundEnded(s.rounds.round)];
    }
  }

  lemma SumOfOne(e: Event, w: Ware)
    ensures RealSum(MintedFn(w), [e]) == Minted(e, w)
  {
  }

  // ---- The laws ------------------------------------------------------------------------------------

  lemma SimpleMints(s: State, c: Command, w: Ware)
    requires Inv(s) && Validate(s, c).None? && Execute(s, c).Done?
    requires c.action.ClaimTile? || c.action.Trade? || c.action.Fortify?
    ensures Total(Execute(s, c).state, w) == Total(s, w) + RealSum(MintedFn(w), Execute(s, c).events)
  {
    hide Inv, RealSum, Draw, Step, Guard, ValidateClaim, ValidateTrade, ValidateFortify, PutFlag, PutFort;
    var p := c.player.value;
    HolderListed(s, p);
    SumOfOne(Execute(s, c).events[0], w);
    match c.action
    case ClaimTile(tile) =>
      var terrain := s.board.tiles[tile];
      var resource := TerrainResource(terrain);
      GainAddsUp(s.purses, s.holders, p, TerrainVp(terrain) + Bonus(Die1(s.rng) + Die2(s.rng)),
                 Drop(resource, Wood), Drop(resource, Stone), w);
    case Trade(resource) =>
      if resource == Some(Wood) {
        GainAddsUp(s.purses, s.holders, p, 1, -2.0, 0.0, w);
      } else {
        GainAddsUp(s.purses, s.holders, p, 0, 0.0, -2.0, w);
      }
    case Fortify(tile) => GainAddsUp(s.purses, s.holders, p, 0, -2.0, -1.0, w);
  }

  /** A deal brings into the inventories exactly what the offer had set aside. */
  lemma DealReleases(purses: map<PlayerId, Purse>, holders: seq<PlayerId>, p: PlayerId, o: Offer, w: Ware)
    requires NoDup(holders) && p in holders && p in purses && o.from in holders && o.from in purses && FairOffer(o)
    ensures RealSum(HoldingFn(AfterDeal(purses, p, o), w), holders) == RealSum(HoldingFn(purses, w), holders) + Reserved(o, w)
  {
    hide RealSum, NoDup, Gain;
    var dw, ds := Moved(o.giveWood) - Moved(o.wantWood), Moved(o.giveStone) - Moved(o.wantStone);
    GainAddsUp(purses, holders, p, 0, dw, ds, w);
    GainStillHeld(purses, p, dw, ds, o.from);
    GainAddsUp(Gain(purses, p, 0, dw, ds), holders, o.from, 0, Moved(o.wantWood), Moved(o.wantStone), w);
  }

  lemma GainStillHeld(purses: map<PlayerId, Purse>, p: PlayerId, wood: real, stone: real, q: PlayerId)
    requires p in purses && q in purses
    ensures q in Gain(purses, p, 0, wood, stone)
  {
  }

  /** Posting, accepting and cancelling move goods between inventories and the market and create nothing: the total
      of every ware stays the same. */
  lemma MarketConserves(s: State, c: Command, w: Ware)
    requires Inv(s) && Validate(s, c).None? && Execute(s, c).Done?
    requires c.action.PostOffer? || c.action.AcceptOffer? || c.action.CancelOffer?
    ensures Total(Execute(s, c).state, w) == Total(s, w)
  {
    hide Inv, RealSum, Guard, FindOffer, WithoutOffer, OffersBy, AfterDeal, NoDup;
    var p := c.player.value;
    HolderListed(s, p);
    match c.action
    case PostOffer(gw, gs, ww, ws) =>
      GainAddsUp(s.purses, s.holders, p, 0, -Moved(gw), -Moved(gs), w);
      PostSetsAside(s.offers, Offer(s.lastOfferId + 1, p, gw, gs, ww, ws), w);
    case AcceptOffer(id) =>
      var o := FindOffer(s.offers, id).value;
      OfferIsFair(s, id);
      HolderListed(s, o.from);
      DealReleases(s.purses, s.holders, p, o, w);
      RemovalReleases(s.offers, id, w);
      SameId(s.offers, id);
    case CancelOffer(id) =>
      var o := FindOffer(s.offers, id).value;
      OfferIsFair(s, id);
      GainAddsUp(s.purses, s.holders, p, 0, Moved(o.giveWood), Moved(o.giveStone), w);
      RemovalReleases(s.offers, id, w);
      SameId(s.offers, id);
  }

  lemma SameId(offers: seq<Offer>, id: nat)
    requires FindOffer(offers, id).Some?
    ensures FindOffer(offers, id).value.id == id
  {
  }

  lemma MarketMintsNothing(s: State, c: Command, w: Ware)
    requires Execute(s, c).Done?
    requires c.action.PostOffer? || c.action.AcceptOffer? || c.action.CancelOffer?
    ensures RealSum(MintedFn(w), Execute(s, c).events) == 0.0
  {
    hide RealSum, FindOffer, WithoutOffer;
    SumOfOne(Execute(s, c).events[0], w);
  }

  /** Every accepted action changes the total of each ware by exactly what its events mint. */
  lemma ActionMintsItsEvents(s: State, c: Command, w: Ware)
    requires Inv(s) && Validate(s, c).None?
    ensures Execute(s, c).Done?
    ensures Total(Execute(s, c).state, w) == Total(s, w) + RealSum(MintedFn(w), Execute(s, c).events)
  {
    hide Inv, Guard, ValidateClaim, ValidateTrade, ValidateFortify, ValidatePost, ValidateAccept, ValidateCancel,
         ExecuteClaim, ExecuteFinishTurn, ExecuteTrade, ExecuteFortify, ExecutePost, ExecuteAccept, ExecuteCancel,
         Total, RealSum;
    AcceptedActionKeepsInv(s, c);
    if c.action.PostOffer? || c.action.AcceptOffer? || c.action.CancelOffer? {
      MarketConserves(s, c, w);
      MarketMintsNothing(s, c, w);
    } else if c.action.FinishTurn? {
      FinishMints(s, c.player.value, w);
    } else {
      SimpleMints(s, c, w);
    }
  }

  // ---- Life of an offer -----------------------------------------------------------------------------

  lemma {:induction false} NewOfferFound(offers: seq<Offer>, o: Offer)
    requires forall x <- offers :: x.id != o.id
    ensures FindOffer(offers + [o], o.id) == Some(o) && WithoutOffer(offers + [o], o.id) == offers
  {
    if offers != [] {
      assert (offers + [o])[1..] == offers[1..] + [o];
      NewOfferFound(offers[1..], o);
    } else {
      assert offers + [o] == [o];
    }
  }

  lemma NewIdUnused(s: State)
    requires Inv(s)
    ensures forall x <- s.offers :: x.id != s.lastOfferId + 1
  {
    hide SeatsOk, PursesOk, FlagsOk, FortsOk, OffersBy;
  }

  /** Cancelling an offer just posted is allowed and puts every inventory and the market back; only its id is used up. */
  lemma CancelUndoesPost(s: State, p: PlayerId, gw: Quantity, gs: Quantity, ww: Quantity, ws: Quantity)
    requires Inv(s) && p == TurnHolder(s) && ValidatePost(s, p, gw, gs, ww, ws).None?
    ensures ExecutePost(s, p, gw, gs, ww, ws).Done?
    ensures var posted := ExecutePost(s, p, gw, gs, ww, ws).state;
            && ValidateCancel(posted, p, s.lastOfferId + 1).None?
            && ExecuteCancel(posted, p, s.lastOfferId + 1).Done?
            && ExecuteCancel(posted, p, s.lastOfferId + 1).state == s.(lastOfferId := s.lastOfferId + 1)
  {
    hide Inv, OffersBy, FindOffer, WithoutOffer;
    PostKeepsInv(s, p, gw, gs, ww, ws);
    NewIdUnused(s);
    NewOfferFound(s.offers, Offer(s.lastOfferId + 1, p, gw, gs, ww, ws));
    var posted := ExecutePost(s, p, gw, gs, ww, ws).state;
    assert Gain(posted.purses, p, 0, Moved(gw), Moved(gs)) == s.purses;
  }

  /** What a quantity says; a missing one says nothing. */
  function Stated(q: Quantity): real {
    match q
    case None => 0.0
    case Some(x) => x
  }

  /** p gets what q loses. */
  function Swapped(purses: map<PlayerId, Purse>, p: PlayerId, q: PlayerId, wood: real, stone: real): map<PlayerId, Purse>
    requires p in purses && q in purses
  {
    Gain(Gain(purses, p, 0, wood, stone), q, 0, -wood, -stone)
  }

  /** An offer posted by one player and accepted by another: posting sets aside what it gives, and in the end the poster has
      given what it gives and got what it wants, the accepter the reverse, and everybody else is untouched. */
  lemma DealSwaps(s: State, p: PlayerId, q: PlayerId, gw: Quantity, gs: Quantity, ww: Quantity, ws: Quantity)
    requires Inv(s) && p == TurnHolder(s) && ValidatePost(s, p, gw, gs, ww, ws).None? && q != p && q in s.purses
    requires ExecutePost(s, p, gw, gs, ww, ws).Done?
    requires ValidateAccept(ExecutePost(s, p, gw, gs, ww, ws).state, q, s.lastOfferId + 1).None?
    ensures p in s.purses
    ensures var posted := ExecutePost(s, p, gw, gs, ww, ws).state;
            && posted.purses == Gain(s.purses, p, 0, -Stated(gw), -Stated(gs))
            && ExecuteAccept(posted, q, s.lastOfferId + 1).Done?
            && ExecuteAccept(posted, q, s.lastOfferId + 1).state ==
               s.(lastOfferId := s.lastOfferId + 1,
                  purses := Swapped(s.purses, p, q, Stated(ww) - Stated(gw), Stated(ws) - Stated(gs)))
  {
    hide Inv, OffersBy, FindOffer, WithoutOffer;
    NewIdUnused(s);
    var o := Offer(s.lastOfferId + 1, p, gw, gs, ww, ws);
    NewOfferFound(s.offers, o);
    var posted := ExecutePost(s, p, gw, gs, ww, ws).state;
    assert AfterDeal(posted.purses, q, o) == Swapped(s.purses, p, q, Stated(ww) - Stated(gw), Stated(ws) - Stated(gs));
  }
}
