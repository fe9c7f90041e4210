/** The turns of a Kingdoms run form a run of the scheduler, so its fairness holds in every game. */
module KingdomsTurns {
  import opened Collections
  import opened Hex
  import opened Board
  import opened KingdomsMap
  import opened Rounds
  import opened KingdomsState
  import opened KingdomsEconomy
  import opened KingdomsRules
  import opened KingdomsInvariant
  import opened KingdomsConquest
  import opened KingdomsRun

  /** The turn going on in a state. */
  function CurrentTurn(s: State): TurnRecord {
    TurnRecord(s.rounds, if FindIndex(s.roster, TurnHolder(s)) >= 0 then FindIndex(s.roster, TurnHolder(s)) else 0, s.roster)
  }

  /** All turns of a run, each with the roster at its end; the last is the one still going on. */
  ghost function Turns(s: State, cs: seq<Command>): seq<TurnRecord> {
    if cs == [] then [CurrentTurn(s)]
    else
      var turns, c := Turns(s, cs[..|cs| - 1]), cs[|cs| - 1];
      match (Play(s, cs[..|cs| - 1]), Play(s, cs))
      case (Some(before), Some(after)) =>
        if Validate(before, c).None? && c.action.FinishTurn? then turns + [CurrentTurn(after)]
        else if turns == [] then turns
        else turns[|turns| - 1 := CurrentTurn(after)]
      case _ => turns
  }

  lemma OccupationKeepsTurn(s: State, p: PlayerId, to: Coord, structure: Option<PieceId>)
    requires Roster(s.roster)
    ensures Occupy(s, p, to, structure).rounds == s.rounds
    ensures Progress(s.roster, Occupy(s, p, to, structure).roster)
  {
    hide Roster, Progress, EliminateFrom, Without, SetPiece;
    StaySeated(s.roster);
    if LoyaltyOf(s, to) <= LOYALTY_DAMAGE && TakesCapital(s, to) {
      EliminateMarksOne(s.roster, s.ownership[to]);
    }
  }

  lemma StaySeated(roster: seq<Player>)
    ensures Progress(roster, roster)
  {
  }

  lemma AttackKeepsTurn(s: State, p: PlayerId, from: Coord, to: Coord, unitIds: Option<seq<PieceId>>)
    requires Roster(s.roster) && ExecuteAttack(s, p, from, to, unitIds).Done?
    ensures ExecuteAttack(s, p, from, to, unitIds).state.rounds == s.rounds
    ensures Progress(s.roster, ExecuteAttack(s, p, from, to, unitIds).state.roster)
  {
    hide Roster, Progress, AttackForce, Battle, RngAfterBattle, StructureOnTile, OccupationEvents, Occupy, Without;
    StaySeated(s.roster);
    var ids := AttackForce(s, p, from, unitIds);
    OccupationKeepsTurn(Fought(s, from, ids, to), p, to, StructureOnTile(s.pieces, to, Structures));
  }

  /** Only ending the turn moves the turn on, and while a turn lasts players can only drop out. */
  lemma ActionKeepsTurn(s: State, c: Command)
    requires Inv(s) && Validate(s, c).None? && !c.action.FinishTurn?
    ensures Execute(s, c).Done? && Execute(s, c).state.rounds == s.rounds
    ensures Progress(s.roster, Execute(s, c).state.roster)
  {
    hide Inv, Validate, ExecuteAttack, ExecuteFinishTurn, RecruitCost, CountOfKind, StructureOnTile, OrderWithout,
         EffectiveResource, Progress;
    AcceptedActionKeepsInv(s, c);
    RosterOfInv(s);
    StaySeated(s.roster);
    if c.action.AttackTile? {
      AttackKeepsTurn(s, c.player.value, c.action.from, c.action.to, c.action.unitIds);
    }
  }

  lemma FinishMovesTurn(s: State, c: Command)
    requires Inv(s) && c.action.FinishTurn? && c.player.Some?
    ensures Execute(s, c).Done? && Execute(s, c).state.roster == s.roster
    ensures EndTurn(s.rounds, s.roster, COMMAND_PHASE).Some?
    ensures Execute(s, c).state.rounds == EndTurn(s.rounds, s.roster, COMMAND_PHASE).value.0
  {
    hide Inv, EndTurn, RoundEnd, Recovered;
    FinishKeepsInv(s, c.player.value);
    var (rounds, newRound) := EndTurn(s.rounds, s.roster, COMMAND_PHASE).value;
    if newRound {
      TurnedKeepsInv(s, rounds, newRound);
      RoundEndSettles(s.(moved := [], attackedFrom := [], rounds := rounds));
    }
  }

  lemma FinishClearsTrackers(s: State, c: Command)
    requires Inv(s) && c.action.FinishTurn? && c.player.Some?
    ensures Execute(s, c).Done? && Execute(s, c).state.moved == [] && Execute(s, c).state.attackedFrom == []
  {
    hide Inv, EndTurn, RoundEnd, Recovered;
    FinishKeepsInv(s, c.player.value);
    var (rounds, newRound) := EndTurn(s.rounds, s.roster, COMMAND_PHASE).value;
    if newRound {
      var turned := s.(moved := [], attackedFrom := [], rounds := rounds);
      TurnedKeepsInv(s, rounds, newRound);
      RoundEndSettles(turned);
    }
  }

  /** A turn begins untouched: nobody has moved or attacked in it, and it is the next in number. */
  lemma FinishOpensTurn(s: State, c: Command)
    requires Inv(s) && Validate(s, c).None? && c.action.FinishTurn?
    ensures Execute(s, c).Done?
    ensures var after := Execute(s, c).state;
            && after.moved == [] && after.attackedFrom == [] && after.rounds.turn.flags == map[]
            && after.rounds.turn.turnNumber == s.rounds.turn.turnNumber + 1 && after.rounds.turn.phase == "command"
  {
    hide Inv, Guard, Execute, ClockwiseNext, SeatOf;
    GuardPassed(s, c.player);
    FinishMovesTurn(s, c);
    FinishClearsTrackers(s, c);
  }

  /** So in a fresh turn no move is refused for having been made, and no attack for a second. */
  lemma FreshTurnRefusesNothing(s: State, p: PlayerId, id: PieceId, from: Coord, to: Coord, ids: Option<seq<PieceId>>)
    requires s.moved == [] && s.attackedFrom == []
    ensures ValidateMove(s, p, id, to) != Some(AlreadyMoved) && ValidateAttack(s, p, from, to, ids) != Some(AlreadyAttacked)
  {
    hide Supplied, UnitsOnTile, IsAdjacent;
  }

  /** The accepted commands of a run that end a turn. */
  ghost function Finishes(s: State, cs: seq<Command>): nat {
    if cs == [] then 0
    else
      match Play(s, cs[..|cs| - 1])
      case None => 0
      case Some(before) =>
        var c := cs[|cs| - 1];
        Finishes(s, cs[..|cs| - 1]) + if c.action.FinishTurn? && Validate(before, c).None? then 1 else 0
  }

  /** The turns are numbered without gaps: one more for each turn ended. */
  lemma {:induction false} TurnsAreNumbered(s: State, cs: seq<Command>)
    requires Inv(s)
    ensures Play(s, cs).Some?
    ensures Play(s, cs).value.rounds.turn.turnNumber == s.rounds.turn.turnNumber + Finishes(s, cs)
  {
    hide Inv, Validate, Execute, ValidateMove, ValidateAttack;
    RunsKeepInv(s, cs);
    if cs != [] {
      var init, c := cs[..|cs| - 1], cs[|cs| - 1];
      TurnsAreNumbered(s, init);
      RunsKeepInv(s, init);
      var before := Play(s, init).value;
      if Validate(before, c).None? {
        AcceptedActionKeepsInv(before, c);
        if c.action.FinishTurn? {
          FinishOpensTurn(before, c);
        } else {
          ActionKeepsTurn(before, c);
        }
      }
    }
  }

  lemma HolderHoldsTurn(s: State)
    requires Inv(s)
    ensures HoldsTurn(CurrentTurn(s))
  {
    hide BoardOk, LandOk, PiecesOk, CapitalsOk, StocksOk, LoyaltyOk, TrackersOk, LimitsOk, Roster, FindIndex;
    var x :| x in s.roster && x.status == Active && x.id == TurnHolder(s);
    var i :| 0 <= i < |s.roster| && s.roster[i] == x;
    FindAt(s, i);
  }

  lemma FindAt(s: State, i: nat)
    requires RosterOk(s.roster, TurnHolder(s)) && i < |s.roster|
    ensures FindIndex(s.roster, s.roster[i].id) == i
  {
    FindInRoster(s.roster, i);
  }

  lemma ProgressTwice(a: seq<Player>, b: seq<Player>, c: seq<Player>)
    requires Progress(a, b) && Progress(b, c)
    ensures Progress(a, c)
  {
  }

  lemma {:induction false} SameSeatFound(before: seq<Player>, after: seq<Player>, id: PlayerId)
    requires Progress(before, after)
    ensures FindIndex(before, id) == FindIndex(after, id)
  {
    if before != [] {
      SameSeatFound(before[1..], after[1..], id);
    }
  }

  /** The last turn goes on: nothing moved but players dropping out. */
  lemma TurnGoesOn(first: seq<Player>, run: seq<TurnRecord>, last: TurnRecord)
    requires TurnRun(first, run, COMMAND_PHASE) && HoldsTurn(last)
    requires var now := run[|run| - 1]; last.state == now.state && last.who == now.who && Progress(now.roster, last.roster)
    ensures TurnRun(first, run[|run| - 1 := last], COMMAND_PHASE)
  {
    hide EndTurn, Roster, LowestActive, HoldsTurn, Progress;
    var n := |run| - 1;
    var after := run[n := last];
    if n > 0 {
      assert FollowsAt(run, n - 1, COMMAND_PHASE);
      ProgressTwice(run[n - 1].roster, run[n].roster, last.roster);
      assert FollowsAt(after, n - 1, COMMAND_PHASE);
    } else {
      ProgressTwice(first, run[0].roster, last.roster);
    }
    forall i | 0 <= i < |after| - 1 ensures FollowsAt(after, i, COMMAND_PHASE) {
      if i < n - 1 {
        assert FollowsAt(run, i, COMMAND_PHASE);
      }
    }
  }

  lemma NextTurn(first: seq<Player>, run: seq<TurnRecord>, next: TurnRecord)
    requires TurnRun(first, run, COMMAND_PHASE) && HoldsTurn(next)
    requires Follows(run[|run| - 1], next, COMMAND_PHASE)
    ensures TurnRun(first, run + [next], COMMAND_PHASE)
  {
    hide Follows, Roster, LowestActive, HoldsTurn, Progress;
    var after := run + [next];
    forall i | 0 <= i < |after| - 1 ensures FollowsAt(after, i, COMMAND_PHASE) {
      if i < |run| - 1 {
        assert FollowsAt(run, i, COMMAND_PHASE);
      }
    }
  }

  lemma OpeningTurn(s: State)
    requires Inv(s) && LowestFirst(s.roster, TurnHolder(s))
    ensures TurnRun(s.roster, [CurrentTurn(s)], COMMAND_PHASE)
  {
    hide BoardOk, LandOk, PiecesOk, CapitalsOk, StocksOk, LoyaltyOk, TrackersOk, LimitsOk, Roster, FindIndex;
    RosterOfInv(s);
    HolderHoldsTurn(s);
    StaySeated(s.roster);
    var n: nat :| LowestActive(s.roster, n) && s.roster[n].id == TurnHolder(s);
    FindAt(s, n);
  }

  /** From a state where the lowest active seat holds the turn, the turns of every run are a run of the scheduler. */
  lemma {:induction false} RunIsTurnRun(s: State, cs: seq<Command>)
    requires Inv(s) && LowestFirst(s.roster, TurnHolder(s))
    ensures Play(s, cs).Some? && Inv(Play(s, cs).value)
    ensures TurnRun(s.roster, Turns(s, cs), COMMAND_PHASE)
    ensures Turns(s, cs)[|Turns(s, cs)| - 1] == CurrentTurn(Play(s, cs).value)
  {
    hide Inv, Validate, Execute, TurnRun, CurrentTurn, LowestFirst;
    RunsKeepInv(s, cs);
    if cs == [] {
      OpeningTurn(s);
    } else {
      var init, c := cs[..|cs| - 1], cs[|cs| - 1];
      RunIsTurnRun(s, init);
      var before, after := Play(s, init).value, Play(s, cs).value;
      NonEmpty(s.roster, Turns(s, init));
      if Validate(before, c).Some? {
        assert Turns(s, cs) == Turns(s, init);
      } else if c.action.FinishTurn? {
        TurnEnds(s.roster, Turns(s, init), before, c);
      } else {
        TurnLasts(s.roster, Turns(s, init), before, c);
      }
    }
  }

  lemma NonEmpty(first: seq<Player>, run: seq<TurnRecord>)
    requires TurnRun(first, run, COMMAND_PHASE)
    ensures run != []
  {
  }

  lemma FinishFollows(s: State, c: Command)
    requires Inv(s) && Validate(s, c).None? && c.action.FinishTurn?
    ensures Execute(s, c).Done?
    ensures Follows(CurrentTurn(s), CurrentTurn(Execute(s, c).state), COMMAND_PHASE)
  {
    hide Inv, Guard, Execute, FindIndex, EndTurn, Progress;
    GuardPassed(s, c.player);
    FinishMovesTurn(s, c);
    StaySeated(s.roster);
  }

  lemma SameTurn(s: State, after: State)
    requires after.rounds == s.rounds && Progress(s.roster, after.roster)
    ensures CurrentTurn(after) == CurrentTurn(s).(roster := after.roster)
    ensures Progress(CurrentTurn(s).roster, CurrentTurn(after).roster)
  {
    hide Progress;
    SameSeatFound(s.roster, after.roster, TurnHolder(s));
  }

  lemma TurnEnds(first: seq<Player>, run: seq<TurnRecord>, s: State, c: Command)
    requires TurnRun(first, run, COMMAND_PHASE) && run != [] && run[|run| - 1] == CurrentTurn(s)
    requires Inv(s) && Validate(s, c).None? && c.action.FinishTurn?
    ensures Execute(s, c).Done? && TurnRun(first, run + [CurrentTurn(Execute(s, c).state)], COMMAND_PHASE)
  {
    hide Inv, Validate, Execute, TurnRun, CurrentTurn, Follows, Progress, HoldsTurn;
    AcceptedActionKeepsInv(s, c);
    HolderHoldsTurn(Execute(s, c).state);
    FinishFollows(s, c);
    NextTurn(first, run, CurrentTurn(Execute(s, c).state));
  }

  lemma TurnLasts(first: seq<Player>, run: seq<TurnRecord>, s: State, c: Command)
    requires TurnRun(first, run, COMMAND_PHASE) && run != [] && run[|run| - 1] == CurrentTurn(s)
    requires Inv(s) && Validate(s, c).None? && !c.action.FinishTurn?
    ensures Execute(s, c).Done? && TurnRun(first, run[|run| - 1 := CurrentTurn(Execute(s, c).state)], COMMAND_PHASE)
  {
    hide Inv, Validate, Execute, TurnRun, CurrentTurn, Follows, Progress, HoldsTurn;
    AcceptedActionKeepsInv(s, c);
    HolderHoldsTurn(Execute(s, c).state);
    ActionKeepsTurn(s, c);
    SameTurn(s, Execute(s, c).state);
    TurnGoesOn(first, run, CurrentTurn(Execute(s, c).state));
  }

  /** Player p is still in at the end of the whole round made up of turns lo .. hi. */
  ghost predicate StillInAfter(turns: seq<TurnRecord>, lo: nat, hi: nat, p: nat) {
    WholeRound(turns, lo, hi) && p < |turns[hi].roster| && turns[hi].roster[p].status == Active
  }

  ghost predicate OnlyTurnOf(turns: seq<TurnRecord>, lo: nat, hi: nat, p: nat, t: nat) {
    lo <= t <= hi < |turns| && turns[t].who == p && forall other :: lo <= other <= hi && turns[other].who == p ==> other == t
  }

  /** In every Kingdoms game, whatever is captured and whoever drops out: everybody still in at the end of a round has
      had exactly one turn in it. */
  lemma EveryGameIsFair(players: seq<Player>, seed: seq<bv16>, rng: bv32, cs: seq<Command>, lo: nat, hi: nat, p: nat)
      returns (t: nat)
    requires Roster(players) && 2 <= |players| <= 4 && forall q <- players :: q.id.text != ""
    requires StillInAfter(Turns(Setup(players, KingdomsBoard(seed), rng), cs), lo, hi, p)
    ensures OnlyTurnOf(Turns(Setup(players, KingdomsBoard(seed), rng), cs), lo, hi, p, t)
  {
    hide KingdomsBoard, Inv, BoardOk, CornersOn, Roster, Setup, SetUpTo, Turns, Play, WholeRound, TurnRun, LowestFirst;
    var s := Setup(players, KingdomsBoard(seed), rng);
    KingdomsBoardIsOk(seed, |players|);
    SetupIsOk(players, KingdomsBoard(seed), rng);
    LowestSeatStarts(players, KingdomsBoard(seed), rng);
    RunIsTurnRun(s, cs);
    RoundInRange(Turns(s, cs), lo, hi);
    t := EverybodyPlaysOncePerRound(s.roster, Turns(s, cs), COMMAND_PHASE, lo, hi, p);
  }

  lemma RoundInRange(turns: seq<TurnRecord>, lo: nat, hi: nat)
    requires WholeRound(turns, lo, hi)
    ensures lo <= hi < |turns|
  {
  }

  lemma LowestSeatStarts(players: seq<Player>, board: GameMap<Tile>, rng: bv32)
    requires Roster(players) && 2 <= |players| <= 4 && forall p <- players :: p.id.text != ""
    requires BoardOk(board) && CornersOn(board, |players|)
    ensures var s := Setup(players, board, rng);
            LowestFirst(s.roster, TurnHolder(s))
  {
    hide BoardOk, Roster, StartingCoords, Placed, ActiveSortedBySeat, SortBySeat, CornersOn, LowestFirst, SetUpTo;
    assert |StartingCoords(|players|)| == |players|;
    FreshIsSetUp(players, board, rng);
    SeatedRoster(players, board, rng);
    assert forall p <- players :: p.id in RosterIds(players);
    PlacedIsSetUp(Fresh(players, board, rng), players, |players|);
  }
}
