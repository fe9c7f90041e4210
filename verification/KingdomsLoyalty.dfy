/**
 * Loyalty over whole runs.  A tile's loyalty is moved by two kinds of happenings only: an attack on it that a
 * Noble survives, and the end of a round.
 */
module KingdomsLoyalty {
  import opened Collections
  import opened Hex
  import opened Board
  import opened KingdomsMap
  import opened Rounds
  import opened KingdomsState
  import opened KingdomsEconomy
  import opened KingdomsRules
  import opened KingdomsInvariant
  import opened KingdomsConquest
  import opened KingdomsBattle
  import opened KingdomsRun

  datatype Happening = Occupation | RoundEnds

  /** The loyalty of one tile, full when nothing is stored, and how often it has been captured so far. */
  datatype Level = Level(loyalty: int, captures: nat)

  function Erode(l: Level): Level {
    if l.loyalty > LOYALTY_DAMAGE then Level(l.loyalty - LOYALTY_DAMAGE, l.captures)
    else Level(MAX_LOYALTY, l.captures + 1)
  }

  function Recover(l: Level): Level {
    Level(if l.loyalty + LOYALTY_RECOVERY < MAX_LOYALTY then l.loyalty + LOYALTY_RECOVERY else MAX_LOYALTY, l.captures)
  }

  function Apply(l: Level, hs: seq<Happening>): Level {
    if hs == [] then l
    else
      var before := Apply(l, hs[..|hs| - 1]);
      if hs[|hs| - 1] == Occupation then Erode(before) else Recover(before)
  }

  lemma {:induction false} ApplyConcat(l: Level, a: seq<Happening>, b: seq<Happening>)
    ensures Apply(l, a + b) == Apply(Apply(l, a), b)
  {
    if b == [] {
      assert a + b == a;
    } else {
      assert (a + b)[..|a + b| - 1] == a + b[..|b| - 1];
      ApplyConcat(l, a, b[..|b| - 1]);
    }
  }

  // ---- Occupations and the round ends between them -----------------------------------------

  function Rest(n: nat): seq<Happening> {
    if n == 0 then [] else Rest(n - 1) + [RoundEnds]
  }

  /** Occupations with gaps[i] round ends right before the i-th. */
  function Schedule(gaps: seq<nat>): seq<Happening> {
    if gaps == [] then [] else Schedule(gaps[..|gaps| - 1]) + (Rest(gaps[|gaps| - 1]) + [Occupation])
  }

  /** How many round ends precede each occupation, and how many follow the last. */
  function GapsOf(hs: seq<Happening>): (seq<nat>, nat) {
    if hs == [] then ([], 0)
    else
      var (gaps, open) := GapsOf(hs[..|hs| - 1]);
      if hs[|hs| - 1] == Occupation then (gaps + [open], 0) else (gaps, open + 1)
  }

  /** Every history is the schedule of its gaps. */
  lemma {:induction false} GapsDescribe(hs: seq<Happening>)
    ensures Schedule(GapsOf(hs).0) + Rest(GapsOf(hs).1) == hs
  {
    if hs != [] {
      var init, last := hs[..|hs| - 1], hs[|hs| - 1];
      GapsDescribe(init);
      assert hs == init + [last];
      var (gaps, open) := GapsOf(init);
      if last == Occupation {
        assert (gaps + [open])[..|gaps|] == gaps;
      }
    }
  }

  /** Rest adds ten a round, up to the top. */
  lemma {:induction false} RestRecovers(l: Level, n: nat)
    requires l.loyalty <= MAX_LOYALTY
    ensures Apply(l, Rest(n)) == Level(if l.loyalty + 10 * n < MAX_LOYALTY || n == 0 then l.loyalty + 10 * n else MAX_LOYALTY,
                                       l.captures)
  {
    if n > 0 {
      RestRecovers(l, n - 1);
      assert Rest(n)[..|Rest(n)| - 1] == Rest(n - 1);
    }
  }

  /** One more gap and occupation. */
  lemma NextOccupation(l: Level, gaps: seq<nat>)
    requires gaps != [] && Apply(l, Schedule(gaps[..|gaps| - 1])).loyalty <= MAX_LOYALTY
    ensures var before := Apply(l, Schedule(gaps[..|gaps| - 1]));
            Apply(l, Schedule(gaps)) == Erode(Apply(before, Rest(gaps[|gaps| - 1])))
  {
    var init, g := gaps[..|gaps| - 1], gaps[|gaps| - 1];
    ApplyConcat(l, Schedule(init), Rest(g) + [Occupation]);
    ApplyConcat(Apply(l, Schedule(init)), Rest(g), [Occupation]);
    var rested := Apply(Apply(l, Schedule(init)), Rest(g));
    assert [Occupation][..0] == [];
    assert Apply(rested, [Occupation]) == Erode(rested);
  }

  const FULL := MAX_LOYALTY

  /** From full loyalty the first two occupations never capture, however they are spaced. */
  lemma FewerThanThreeNeverCapture(gaps: seq<nat>)
    requires |gaps| < 3
    ensures Apply(Level(FULL, 0), Schedule(gaps)).captures == 0
  {
    AtLeast(gaps);
  }

  lemma {:induction false} AtLeast(gaps: seq<nat>)
    requires |gaps| < 3
    ensures var l := Apply(Level(FULL, 0), Schedule(gaps));
            l.captures == 0 && FULL - LOYALTY_DAMAGE * |gaps| <= l.loyalty <= FULL
  {
    if gaps != [] {
      var init := gaps[..|gaps| - 1];
      AtLeast(init);
      NextOccupation(Level(FULL, 0), gaps);
      RestRecovers(Apply(Level(FULL, 0), Schedule(init)), gaps[|gaps| - 1]);
    }
  }

  /** Three in one round do. */
  lemma ThreeAtOnceCapture(first: nat)
    ensures Apply(Level(FULL, 0), Schedule([first, 0, 0])) == Level(FULL, 1)
  {
    var a, b, c := [first], [first, 0], [first, 0, 0];
    assert a[..0] == [] && b[..1] == a && c[..2] == b;
    RestRecovers(Level(FULL, 0), first);
    NextOccupation(Level(FULL, 0), a);
    NextOccupation(Level(FULL, 0), b);
    NextOccupation(Level(FULL, 0), c);
  }

  ghost predicate Spaced(gaps: seq<nat>, least: nat) {
    forall i :: 0 < i < |gaps| ==> gaps[i] >= least
  }

  ghost predicate Pressed(gaps: seq<nat>, most: nat) {
    forall i :: 0 < i < |gaps| ==> gaps[i] <= most
  }

  /** Five or more round ends between occupations undo each one completely: the tile is never captured. */
  lemma {:induction false} SpacedNeverCaptures(gaps: seq<nat>)
    requires Spaced(gaps, 5)
    ensures Apply(Level(FULL, 0), Schedule(gaps)) == Level(if gaps == [] then FULL else FULL - LOYALTY_DAMAGE, 0)
  {
    if gaps != [] {
      var init := gaps[..|gaps| - 1];
      assert Spaced(init, 5);
      SpacedNeverCaptures(init);
      NextOccupation(Level(FULL, 0), gaps);
      RestRecovers(Apply(Level(FULL, 0), Schedule(init)), gaps[|gaps| - 1]);
    }
  }

  /** Four or fewer leave a net loss of at least 5 each time: twelve occupations capture the tile. */
  lemma {:induction false} PressureCapturesWithinTwelve(gaps: seq<nat>)
    requires Pressed(gaps, 4) && |gaps| >= 12
    ensures Apply(Level(FULL, 0), Schedule(gaps)).captures >= 1
    decreases |gaps|
  {
    if |gaps| == 12 {
      PressureWears(gaps);
    } else {
      var init := gaps[..|gaps| - 1];
      assert Pressed(init, 4);
      PressureCapturesWithinTwelve(init);
      LoyaltyStaysLow(init);
      NextOccupation(Level(FULL, 0), gaps);
      RestRecovers(Apply(Level(FULL, 0), Schedule(init)), gaps[|gaps| - 1]);
    }
  }

  lemma {:induction false} LoyaltyStaysLow(gaps: seq<nat>)
    ensures Apply(Level(FULL, 0), Schedule(gaps)).loyalty <= FULL
  {
    if gaps != [] {
      var init := gaps[..|gaps| - 1];
      LoyaltyStaysLow(init);
      NextOccupation(Level(FULL, 0), gaps);
      RestRecovers(Apply(Level(FULL, 0), Schedule(init)), gaps[|gaps| - 1]);
    }
  }

  lemma {:induction false} PressureWears(gaps: seq<nat>)
    requires Pressed(gaps, 4) && |gaps| <= 12
    ensures var l := Apply(Level(FULL, 0), Schedule(gaps));
            l.loyalty <= FULL && (l.captures >= 1 || (gaps != [] ==> |gaps| < 12 && l.loyalty <= 60 - 5 * |gaps|))
  {
    if gaps != [] {
      var init := gaps[..|gaps| - 1];
      assert Pressed(init, 4);
      PressureWears(init);
      NextOccupation(Level(FULL, 0), gaps);
      RestRecovers(Apply(Level(FULL, 0), Schedule(init)), gaps[|gaps| - 1]);
    }
  }

  /** Twelve is sharp: with exactly four round ends each time the first eleven do not capture. */
  lemma {:induction false} ElevenMayNotSuffice(gaps: seq<nat>)
    requires |gaps| <= 11 && Spaced(gaps, 4) && Pressed(gaps, 4)
    ensures Apply(Level(FULL, 0), Schedule(gaps)) == Level(if gaps == [] then FULL else 60 - 5 * |gaps|, 0)
  {
    if gaps != [] {
      var init := gaps[..|gaps| - 1];
      assert Spaced(init, 4) && Pressed(init, 4);
      ElevenMayNotSuffice(init);
      NextOccupation(Level(FULL, 0), gaps);
      RestRecovers(Apply(Level(FULL, 0), Schedule(init)), gaps[|gaps| - 1]);
    }
  }

  // ---- The happenings of a run --------------------------------------------------------------

  /** What an accepted command does to the loyalty of a tile: an attack on it after which a Noble that took part is still on
      the table occupies it. */
  ghost function Happenings(s: State, c: Command, t: Coord): seq<Happening> {
    match c.action
    case AttackTile(from, to, unitIds) =>
      if to == t && Execute(s, c).Done? && NobleHolds(s, Execute(s, c).state, from, unitIds) then [Occupation] else []
    case FinishTurn =>
      var turn := EndTurn(s.rounds, s.roster, COMMAND_PHASE);
      if turn.Some? && turn.value.1 then [RoundEnds] else []
    case _ => []
  }

  predicate NewOwner(s: State, after: State, t: Coord) {
    OwnerOf(after, t).Some? && OwnerOf(after, t) != OwnerOf(s, t)
  }

  ghost predicate Follows(s: State, after: State, t: Coord, hs: seq<Happening>) {
    Apply(Level(LoyaltyOf(s, t), 0), hs) == Level(LoyaltyOf(after, t), if NewOwner(s, after, t) then 1 else 0)
  }

  lemma OneHappening(l: Level, h: Happening)
    ensures Apply(l, [h]) == if h == Occupation then Erode(l) else Recover(l)
  {
    assert [h][..0] == [];
  }

  lemma OccupationErodes(s: State, p: PlayerId, to: Coord, structure: Option<PieceId>, t: Coord)
    requires Inv(s) && p == TurnHolder(s) && !Owns(s, p, to)
    ensures Follows(s, Occupy(s, p, to, structure), t, if t == to then [Occupation] else [])
  {
    hide Inv, Without, SetPiece, EliminateFrom;
    LevelsOfInv(s, to);
    OneHappening(Level(LoyaltyOf(s, to), 0), Occupation);
  }

  lemma LevelsOfInv(s: State, to: Coord)
    requires Inv(s)
    ensures 0 < LoyaltyOf(s, to) <= 100
  {
    hide BoardOk, RosterOk, LandOk, PiecesOk, CapitalsOk, StocksOk, TrackersOk, LimitsOk, LoyaltyOf;
    LoyaltyLevels(s, to);
  }

  lemma SameLand(s: State, mid: State, after: State, t: Coord, hs: seq<Happening>)
    requires Follows(mid, after, t, hs) && mid.loyalty == s.loyalty && mid.ownership == s.ownership
    ensures Follows(s, after, t, hs)
  {
  }

  lemma AttackFollows(s: State, p: PlayerId, from: Coord, to: Coord, unitIds: Option<seq<PieceId>>, t: Coord)
    requires Inv(s) && p == TurnHolder(s) && ValidateAttack(s, p, from, to, unitIds).None?
    ensures ExecuteAttack(s, p, from, to, unitIds).Done?
    ensures Follows(s, ExecuteAttack(s, p, from, to, unitIds).state, t,
                    if to == t && NobleHolds(s, ExecuteAttack(s, p, from, to, unitIds).state, from, unitIds)
                    then [Occupation] else [])
  {
    hide Inv, ValidateAttack, AttackForce, Battle, RngAfterBattle, Occupy, StructureOnTile, OccupationEvents, Without,
         IsUnit, GameMap.Valid, NobleHolds, NobleSurvives;
    AttackKeepsInv(s, p, from, to, unitIds);
    NobleHoldsIffSurvives(s, p, from, to, unitIds);
    AttackersAreOwnUnits(s, p, from, to, unitIds);
    var ids := AttackForce(s, p, from, unitIds);
    BattleKeepsInv(s, from, ids, to);
    var fought := Fought(s, from, ids, to);
    if NobleSurvives(s, ids, Battle(s, ids, to).attackerLosses) {
      OccupationErodes(fought, p, to, StructureOnTile(s.pieces, to, Structures), t);
      SameLand(s, fought, Occupy(fought, p, to, StructureOnTile(s.pieces, to, Structures)), t,
               if t == to then [Occupation] else []);
    }
  }

  lemma RecoveryFollows(s: State, after: State, t: Coord)
    requires Inv(s) && after.ownership == s.ownership && after.loyalty == Recovered(s.loyalty)
    ensures Follows(s, after, t, [RoundEnds])
  {
    hide Inv;
    LevelsOfInv(s, t);
    OneHappening(Level(LoyaltyOf(s, t), 0), RoundEnds);
  }

  lemma FinishFollows(s: State, c: Command, t: Coord)
    requires Inv(s) && c.action.FinishTurn? && c.player.Some?
    ensures Execute(s, c).Done? && Follows(s, Execute(s, c).state, t, Happenings(s, c, t))
  {
    hide Inv, EndTurn, RoundEnd, Recovered;
    FinishKeepsInv(s, c.player.value);
    var (rounds, newRound) := EndTurn(s.rounds, s.roster, COMMAND_PHASE).value;
    if newRound {
      var turned := s.(moved := [], attackedFrom := [], rounds := rounds);
      TurnedKeepsInv(s, rounds, newRound);
      RoundEndSettles(turned);
      RecoveryFollows(s, Execute(s, c).state, t);
    }
  }

  /** One accepted command moves a tile's loyalty exactly as its happenings say, and gives the tile a new owner
      exactly when they capture it. */
  lemma CommandFollowsHappenings(s: State, c: Command, t: Coord)
    requires Inv(s) && Validate(s, c).None?
    ensures Execute(s, c).Done? && Follows(s, Execute(s, c).state, t, Happenings(s, c, t))
  {
    hide Inv, Guard, ValidateRecruit, ValidateMove, ValidateAttack, ValidateBuild, ValidateDemolish, ValidateDevelop,
         ExecuteAttack, ExecuteFinishTurn, NobleHolds, RecruitCost, CountOfKind, StructureOnTile, Without, SetPiece, EffectiveResource;
    AcceptedActionKeepsInv(s, c);
    GuardPassed(s, c.player);
    match c.action
    case AttackTile(from, to, unitIds) => AttackFollows(s, c.player.value, from, to, unitIds, t);
    case FinishTurn => FinishFollows(s, c, t);
    case _ =>
  }

  /** The happenings of the accepted commands of a run. */
  ghost function History(s: State, cs: seq<Command>, t: Coord): seq<Happening> {
    if cs == [] then []
    else
      var c := cs[|cs| - 1];
      match Play(s, cs[..|cs| - 1])
      case None => []
      case Some(before) =>
        History(s, cs[..|cs| - 1], t) + if Validate(before, c).None? then Happenings(before, c, t) else []
  }

  /** How often the tile got a new owner. */
  ghost function Conquests(s: State, cs: seq<Command>, t: Coord): nat {
    if cs == [] then 0
    else
      match (Play(s, cs[..|cs| - 1]), Play(s, cs))
      case (Some(before), Some(after)) =>
        Conquests(s, cs[..|cs| - 1], t) + if NewOwner(before, after, t) then 1 else 0
      case _ => 0
  }

  lemma {:induction false} CapturesAddUp(l: Level, hs: seq<Happening>)
    ensures Apply(l, hs) == Level(Apply(Level(l.loyalty, 0), hs).loyalty, l.captures + Apply(Level(l.loyalty, 0), hs).captures)
  {
    if hs != [] {
      CapturesAddUp(l, hs[..|hs| - 1]);
    }
  }

  lemma {:induction false} RunFollowsHistory(s: State, cs: seq<Command>, t: Coord)
    requires Inv(s)
    ensures Play(s, cs).Some?
    ensures Apply(Level(LoyaltyOf(s, t), 0), History(s, cs, t)) ==
            Level(LoyaltyOf(Play(s, cs).value, t), Conquests(s, cs, t))
  {
    hide Inv, Validate, Execute, LoyaltyOf, OwnerOf, Happenings;
    RunsKeepInv(s, cs);
    if cs != [] {
      var init, c := cs[..|cs| - 1], cs[|cs| - 1];
      RunFollowsHistory(s, init, t);
      RunsKeepInv(s, init);
      var before := Play(s, init).value;
      if Validate(before, c).None? {
        CommandFollowsHappenings(before, c, t);
        var start := Level(LoyaltyOf(s, t), 0);
        ApplyConcat(start, History(s, init, t), Happenings(before, c, t));
        CapturesAddUp(Apply(start, History(s, init, t)), Happenings(before, c, t));
      } else {
        assert History(s, cs, t) == History(s, init, t);
      }
    }
  }

  lemma RestNeverCaptures(gaps: seq<nat>, open: nat)
    ensures Apply(Level(FULL, 0), Schedule(gaps) + Rest(open)).captures == Apply(Level(FULL, 0), Schedule(gaps)).captures
  {
    hide Apply, Schedule, Rest;
    ApplyConcat(Level(FULL, 0), Schedule(gaps), Rest(open));
    LoyaltyStaysLow(gaps);
    RestRecovers(Apply(Level(FULL, 0), Schedule(gaps)), open);
  }

  /** From a state where the tile is not contested, over every run: it changes hands only after at least three
      occupations; never while at least five round ends lie between any two of them; and certainly once there have
      been twelve with at most four between any two. */
  lemma ConquestTakesPersistence(s: State, cs: seq<Command>, t: Coord)
    requires Inv(s) && t !in s.loyalty
    ensures var gaps := GapsOf(History(s, cs, t)).0;
            && (Conquests(s, cs, t) > 0 ==> |gaps| >= 3 && !Spaced(gaps, 5))
            && (|gaps| >= 12 && Pressed(gaps, 4) ==> Conquests(s, cs, t) > 0)
  {
    hide Inv, History, Conquests, GapsOf, Schedule, Apply, Rest, Spaced, Pressed;
    var (gaps, open) := GapsOf(History(s, cs, t));
    RunFollowsHistory(s, cs, t);
    GapsDescribe(History(s, cs, t));
    RestNeverCaptures(gaps, open);
    if |gaps| < 3 {
      FewerThanThreeNeverCapture(gaps);
    }
    if Spaced(gaps, 5) {
      SpacedNeverCaptures(gaps);
    }
    if |gaps| >= 12 && Pressed(gaps, 4) {
      PressureCapturesWithinTwelve(gaps);
    }
  }
}
