/** What a player may claim in a Frontier turn, over whole turns: one tile next to its own, or any free one after a leap. */
module FrontierTurns {
  import opened Collections
  import opened Hex
  import opened Board
  import opened Random
  import opened Rounds
  import opened FrontierMap
  import opened FrontierRules
  import opened FrontierInvariant
  import opened FrontierMarket
  import opened FrontierRun
  import opened FrontierVerdicts

  /** Nothing has been done in the turn that restricts or extends a claim. */
  predicate Untouched(s: State) {
    s.rounds.turn.flags == map[]
  }

  // ---- A turn begins ---------------------------------------------------------------------------------

  lemma FinishMovesOn(s: State, p: PlayerId)
    requires Inv(s)
    ensures ExecuteFinishTurn(s, p).Done? && EndTurn(s.rounds, s.roster, TURN_PHASE).Some?
    ensures var after := ExecuteFinishTurn(s, p).state;
            && after.rounds == EndTurn(s.rounds, s.roster, TURN_PHASE).value.0
            && after == s.(rounds := after.rounds, purses := after.purses)
  {
    hide Inv, EndTurn, Tally, AfterForts, AfterHarvests, FortEvents, HarvestEvents;
    FinishKeepsInv(s, p);
  }

  /** Ending the turn hands it over untouched: the new holder may claim any free tile next to one of its flags. */
  lemma FinishOpensTurn(s: State, p: PlayerId, tile: Coord)
    requires Inv(s)
    ensures ExecuteFinishTurn(s, p).Done?
    ensures var after := ExecuteFinishTurn(s, p).state;
            && Untouched(after) && after.rounds.turn.turnNumber == s.rounds.turn.turnNumber + 1
            && (ValidateClaim(after, TurnHolder(after), tile).None? <==> Free(s, tile) && NextToOwn(s, TurnHolder(after), tile))
  {
    hide Inv, Free, NextToOwn, ValidateClaim, ExecuteFinishTurn, ClockwiseNext, SeatOf;
    FinishMovesOn(s, p);
    FinishKeepsInv(s, p);
    var after := ExecuteFinishTurn(s, p).state;
    SameFlags(s, after, TurnHolder(after), tile);
    ClaimWhenUntouched(after, TurnHolder(after), tile);
  }

  lemma SameFlags(s: State, t: State, p: PlayerId, tile: Coord)
    requires t.flags == s.flags && t.board == s.board
    ensures Free(t, tile) <==> Free(s, tile)
    ensures NextToOwn(t, p, tile) <==> NextToOwn(s, p, tile)
  {
  }

  lemma ClaimWhenUntouched(s: State, p: PlayerId, tile: Coord)
    requires Inv(s) && Untouched(s)
    ensures ValidateClaim(s, p, tile).None? <==> Free(s, tile) && NextToOwn(s, p, tile)
  {
    hide Inv, ValidateClaim, Distance;
    ClaimVerdict(s, p, tile);
  }

  /** So does setup. */
  lemma SetupIsUntouched(players: seq<Player>, seed: bv32)
    requires Roster(players) && 2 <= |players| <= 4 && forall p <- players :: p.id.text != ""
    ensures var s := Setup(players, FrontierBoard(seed), seed);
            Inv(s) && Untouched(s) && s.rounds.turn.turnNumber == 1 && s.rounds.round == 1
  {
    hide FrontierBoard, HomesOn, Roster, StartingCoords, SetUpTo, RosterIds, SortBySeat, ActiveSortedBySeat, Placed, Inv;
    FrontierBoardIsOk(seed, |players|);
    SetupIsOk(players, FrontierBoard(seed), seed);
    assert forall p <- players :: p.id in IdsOf(players);
    FreshIsSetUp(players, FrontierBoard(seed), seed);
    assert |StartingCoords(|players|)| == |players|;
    PlacedIsSetUp(Fresh(players, FrontierBoard(seed), seed), players, |players|);
  }

  // ---- Trading for a leap ------------------------------------------------------------------------------

  /** With no claim made in the turn: after two stone any free tile may be claimed, wherever it lies; after two wood, with no
      leap pending, still only the free tiles next to an own flag. */
  lemma TradeOpensTheBoard(s: State, p: PlayerId, resource: Resource, tile: Coord)
    requires Inv(s) && p == TurnHolder(s) && ValidateTrade(s, p, Some(resource)).None? && !Raised(s, CLAIMED)
    ensures ExecuteTrade(s, p, Some(resource)).Done?
    ensures var after := ExecuteTrade(s, p, Some(resource)).state;
            && (resource == Stone ==> (ValidateClaim(after, p, tile).None? <==> Free(s, tile)))
            && (resource == Wood && !Raised(s, LEAP) ==>
                  (ValidateClaim(after, p, tile).None? <==> Free(s, tile) && NextToOwn(s, p, tile)))
  {
    hide Inv, NextToOwn, Free, ValidateClaim, Gain;
    TradeKeepsInv(s, p, Some(resource));
    var after := ExecuteTrade(s, p, Some(resource)).state;
    SameFlags(s, after, p, tile);
    ClaimVerdict(after, p, tile);
    FreeOnBoard(s, tile);
    NextNeedsFlag(after, p, tile);
  }

  lemma FreeOnBoard(s: State, tile: Coord)
    ensures Free(s, tile) ==> tile in s.board.tiles
  {
  }

  lemma NextNeedsFlag(s: State, p: PlayerId, tile: Coord)
    ensures NextToOwn(s, p, tile) ==> exists c :: Flag(p, c) in s.flags
  {
  }

  // ---- Whole turns ---------------------------------------------------------------------------------------

  predicate IsLeap(c: Command) {
    c.action == Trade(Some(Stone))
  }

  /** The accepted claims, stone trades and ended turns of a run. */
  function Claims(s: State, cs: seq<Command>): nat {
    if cs == [] then 0
    else Claims(s, cs[..|cs| - 1]) + if AcceptedLast(s, cs) && cs[|cs| - 1].action.ClaimTile? then 1 else 0
  }

  function Leaps(s: State, cs: seq<Command>): nat {
    if cs == [] then 0
    else Leaps(s, cs[..|cs| - 1]) + if AcceptedLast(s, cs) && IsLeap(cs[|cs| - 1]) then 1 else 0
  }

  function Finishes(s: State, cs: seq<Command>): nat {
    if cs == [] then 0
    else Finishes(s, cs[..|cs| - 1]) + if AcceptedLast(s, cs) && cs[|cs| - 1].action.FinishTurn? then 1 else 0
  }

  predicate AcceptedLast(s: State, cs: seq<Command>)
    requires cs != []
  {
    var before := Play(s, cs[..|cs| - 1]);
    before.Done? && Validate(before.state, cs[|cs| - 1]).None?
  }

  lemma ActionMovesFlags(s: State, c: Command)
    requires Validate(s, c).None? && !c.action.FinishTurn? && Execute(s, c).Done?
    ensures var after := Execute(s, c).state;
            && TurnHolder(after) == TurnHolder(s) && after.rounds.turn.turnNumber == s.rounds.turn.turnNumber
            && after.rounds.round == s.rounds.round
            && (Raised(after, CLAIMED) <==> Raised(s, CLAIMED) || c.action.ClaimTile?)
            && (Raised(after, LEAP) <==> IsLeap(c) || (Raised(s, LEAP) && !c.action.ClaimTile?))
  {
    hide Validate, Gain, PutFlag, PutFort, FindOffer, WithoutOffer, AfterDeal, Draw, Step, TerrainVp, TerrainResource;
  }

  lemma {:induction false} TurnSoFar(s: State, cs: seq<Command>)
    requires Inv(s) && Untouched(s) && forall c <- cs :: !c.action.FinishTurn?
    ensures Play(s, cs).Done?
    ensures var end := Play(s, cs).state;
            && TurnHolder(end) == TurnHolder(s) && (Raised(end, CLAIMED) <==> Claims(s, cs) > 0)
            && (Claims(s, cs) == 0 ==> (Raised(end, LEAP) <==> Leaps(s, cs) > 0))
  {
    hide Inv, Validate, Execute, Raised;
    RunsKeepInv(s, cs, VpWare);
    if cs == [] {
      NothingRaised(s);
    } else {
      var init, c := cs[..|cs| - 1], cs[|cs| - 1];
      assert c in cs && forall x <- init :: x in cs;
      TurnSoFar(s, init);
      RunsKeepInv(s, init, VpWare);
      var before := Play(s, init).state;
      if Validate(before, c).None? {
        AcceptedActionKeepsInv(before, c);
        ActionMovesFlags(before, c);
      }
    }
  }

  lemma NothingRaised(s: State)
    requires Untouched(s)
    ensures !Raised(s, CLAIMED) && !Raised(s, LEAP)
  {
  }

  /** Over any turn, whatever has been traded, posted or fortified in it: a claim is open exactly if none has been made yet,
      the tile is free, and it lies next to an own flag or stone has been traded for a leap. */
  lemma TurnOpensOneClaim(s: State, cs: seq<Command>, tile: Coord)
    requires Inv(s) && Untouched(s) && forall c <- cs :: !c.action.FinishTurn?
    ensures Play(s, cs).Done?
    ensures var end, p := Play(s, cs).state, TurnHolder(s);
            ValidateClaim(end, p, tile).None? <==>
            Claims(s, cs) == 0 && Free(end, tile) && (NextToOwn(end, p, tile) || Leaps(s, cs) > 0)
  {
    hide Inv, Play, Claims, Leaps, ValidateClaim, Free, NextToOwn, Raised;
    TurnSoFar(s, cs);
    RunsKeepInv(s, cs, VpWare);
    var end, p := Play(s, cs).state, TurnHolder(s);
    ClaimVerdict(end, p, tile);
    FreeOnBoard(end, tile);
    NextNeedsFlag(end, p, tile);
  }

  /** The turns are numbered without gaps: one more for each turn ended. */
  lemma {:induction false} TurnsAreNumbered(s: State, cs: seq<Command>)
    requires Inv(s)
    ensures Play(s, cs).Done?
    ensures Play(s, cs).state.rounds.turn.turnNumber == s.rounds.turn.turnNumber + Finishes(s, cs)
  {
    hide Inv, Validate, Execute;
    RunsKeepInv(s, cs, VpWare);
    if cs != [] {
      var init, c := cs[..|cs| - 1], cs[|cs| - 1];
      TurnsAreNumbered(s, init);
      RunsKeepInv(s, init, VpWare);
      var before := Play(s, init).state;
      if Validate(before, c).None? {
        AcceptedActionKeepsInv(before, c);
        CommandMovesNumber(before, c);
      }
    }
  }

  lemma CommandMovesNumber(s: State, c: Command)
    requires Inv(s) && Validate(s, c).None? && Execute(s, c).Done?
    ensures Execute(s, c).state.rounds.turn.turnNumber ==
            s.rounds.turn.turnNumber + if c.action.FinishTurn? then 1 else 0
  {
    hide Inv, Validate, ExecuteClaim, ExecuteFinishTurn, ExecuteTrade, ExecuteFortify, ExecutePost, ExecuteAccept,
         ExecuteCancel, Raised, NextToOwn, Free;
    if c.action.FinishTurn? {
      FinishOpensTurn(s, c.player.value, Coord(0, 0));
    } else {
      ActionMovesFlags(s, c);
    }
  }
}
