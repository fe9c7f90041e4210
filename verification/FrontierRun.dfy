/** Whole Frontier runs: setup, round-end income, victory, and what holds in every reachable state. */
module FrontierRun {
  import opened Collections
  import opened Hex
  import opened Board
  import opened Random
  import opened Rounds
  import opened FrontierMap
  import opened FrontierRules
  import opened FrontierInvariant
  import opened FrontierMarket

  // ---- Round-end income --------------------------------------------------------------------------

  /** The player's flags on a terrain. */
  function FlagCount(board: GameMap<Terrain>, flags: seq<Flag>, p: PlayerId, terrain: Terrain): nat {
    if flags == [] then 0
    else
      var f := flags[|flags| - 1];
      FlagCount(board, flags[..|flags| - 1], p, terrain)
      + if f.owner == p && f.tile in board.tiles && board.tiles[f.tile] == terrain then 1 else 0
  }

  function FortCount(forts: seq<Fort>, p: PlayerId): nat {
    if forts == [] then 0
    else FortCount(forts[..|forts| - 1], p) + if forts[|forts| - 1].owner == p then 1 else 0
  }

  function HarvestOf(harvests: seq<Harvest>, p: PlayerId): Harvest {
    if harvests == [] then Harvest(p, 0, 0)
    else if harvests[0].owner == p then harvests[0]
    else HarvestOf(harvests[1..], p)
  }

  ghost predicate OwnersApart(harvests: seq<Harvest>) {
    forall i, j :: 0 <= i < j < |harvests| ==> harvests[i].owner != harvests[j].owner
  }

  lemma {:induction false} EnterCounts(harvests: seq<Harvest>, owner: PlayerId, r: Resource, p: PlayerId)
    requires OwnersApart(harvests)
    ensures OwnersApart(Enter(harvests, owner, r))
    ensures forall y <- Enter(harvests, owner, r) :: y.owner == owner || y in harvests
    ensures HarvestOf(Enter(harvests, owner, r), p) ==
            if owner == p then More(HarvestOf(harvests, p), r) else HarvestOf(harvests, p)
  {
    if harvests != [] && harvests[0].owner != owner {
      var rest := Enter(harvests[1..], owner, r);
      EnterCounts(harvests[1..], owner, r, p);
      assert ([harvests[0]] + rest)[1..] == rest;
      forall j | 0 <= j < |rest| ensures rest[j].owner != harvests[0].owner {
        assert rest[j] in rest;
      }
    } else if harvests != [] {
      assert ([More(harvests[0], r)] + harvests[1..])[1..] == harvests[1..];
    }
  }

  lemma {:induction false} TallyCounts(board: GameMap<Terrain>, flags: seq<Flag>, p: PlayerId)
    ensures OwnersApart(Tally(board, flags))
    ensures HarvestOf(Tally(board, flags), p) ==
            Harvest(p, FlagCount(board, flags, p, Forest), FlagCount(board, flags, p, Mountain))
  {
    if flags != [] {
      var init, f := flags[..|flags| - 1], flags[|flags| - 1];
      TallyCounts(board, init, p);
      if FlagResource(board, f).Some? {
        EnterCounts(Tally(board, init), f.owner, FlagResource(board, f).value, p);
      }
    }
  }

  lemma {:induction false} HarvestOfLast(harvests: seq<Harvest>, p: PlayerId)
    requires OwnersApart(harvests) && harvests != []
    ensures var last := harvests[|harvests| - 1];
            if last.owner == p
            then HarvestOf(harvests, p) == last && HarvestOf(harvests[..|harvests| - 1], p) == Harvest(p, 0, 0)
            else HarvestOf(harvests, p) == HarvestOf(harvests[..|harvests| - 1], p)
  {
    if |harvests| > 1 {
      var init := harvests[..|harvests| - 1];
      HarvestOfLast(harvests[1..], p);
      assert harvests[1..][..|harvests| - 2] == init[1..];
    }
  }

  lemma {:induction false} HarvestsPay(purses: map<PlayerId, Purse>, harvests: seq<Harvest>, p: PlayerId)
    requires OwnersApart(harvests) && p in purses
    ensures var h := HarvestOf(harvests, p);
            AfterHarvests(purses, harvests)[p] ==
            Purse(purses[p].vp, purses[p].wood + h.wood as real, purses[p].stone + h.stone as real)
  {
    if harvests != [] {
      HarvestsPay(purses, harvests[..|harvests| - 1], p);
      HarvestOfLast(harvests, p);
    }
  }

  lemma {:induction false} FortsPay(purses: map<PlayerId, Purse>, forts: seq<Fort>, p: PlayerId)
    requires p in purses
    ensures AfterForts(purses, forts)[p] == Purse(purses[p].vp + FortCount(forts, p), purses[p].wood, purses[p].stone)
  {
    if forts != [] {
      FortsPay(purses, forts[..|forts| - 1], p);
    }
  }

  /** At the end of a round every player gets a point per own fort, a wood per own forest and a stone per own mountain;
      in between, ending a turn pays nothing. */
  lemma RoundEndPays(s: State, holder: PlayerId, p: PlayerId)
    requires Inv(s) && p in s.purses
    ensures ExecuteFinishTurn(s, holder).Done? && p in ExecuteFinishTurn(s, holder).state.purses
    ensures var after := ExecuteFinishTurn(s, holder).state;
            after.purses[p] ==
            if after.rounds.round == s.rounds.round then s.purses[p]
            else Purse(s.purses[p].vp + FortCount(s.forts, p), s.purses[p].wood + FlagCount(s.board, s.flags, p, Forest) as real,
                       s.purses[p].stone + FlagCount(s.board, s.flags, p, Mountain) as real)
  {
    hide Inv, Tally, AfterForts, AfterHarvests, FortEvents, HarvestEvents, ClockwiseNext, SeatOf, FlagCount, FortCount;
    FinishKeepsInv(s, holder);
    TallyCounts(s.board, s.flags, p);
    FortsPay(s.purses, s.forts, p);
    HarvestsPay(AfterForts(s.purses, s.forts), Tally(s.board, s.flags), p);
  }

  // ---- Victory ------------------------------------------------------------------------------------

  /** The race is won by the first holder in inventory order to have eighteen points, and by nobody otherwise. */
  lemma {:induction false} RaceWinner(holders: seq<PlayerId>, purses: map<PlayerId, Purse>)
    requires forall p <- holders :: p in purses
    ensures FirstToEighteen(holders, purses).None? <==> forall p <- holders :: purses[p].vp < 18
    ensures FirstToEighteen(holders, purses).Some? ==>
              exists i :: 0 <= i < |holders| && purses[holders[i]].vp >= 18
                          && FirstToEighteen(holders, purses).value == Victory(Some(holders[i]), ReachedGoal)
                          && forall j :: 0 <= j < i ==> purses[holders[j]].vp < 18
  {
    if holders != [] {
      assert holders[0] in holders;
      RaceWinner(holders[1..], purses);
      if purses[holders[0]].vp < WIN_VP && FirstToEighteen(holders[1..], purses).Some? {
        var rest := holders[1..];
        var i :| 0 <= i < |rest| && purses[rest[i]].vp >= WIN_VP
                 && FirstToEighteen(rest, purses).value == Victory(Some(rest[i]), ReachedGoal)
                 && forall j :: 0 <= j < i ==> purses[rest[j]].vp < WIN_VP;
        assert holders[i + 1] == rest[i];
        forall j | 0 <= j < i + 1 ensures purses[holders[j]].vp < WIN_VP {
          assert j > 0 ==> holders[j] == rest[j - 1];
        }
      }
    }
  }

  /** The winner so far has the top score, nobody has more, and it is tied exactly when somebody else has as much. */
  ghost predicate Leads(lead: Lead, holders: seq<PlayerId>, purses: map<PlayerId, Purse>)
    requires forall p <- holders :: p in purses
  {
    && lead.winner.Some? && lead.winner.value in holders && purses[lead.winner.value].vp == lead.top
    && (forall p <- holders :: purses[p].vp <= lead.top)
    && (lead.tied <==> exists p <- holders :: p != lead.winner.value && purses[p].vp == lead.top)
  }

  lemma LeadAfter(lead: Lead, init: seq<PlayerId>, last: PlayerId, purses: map<PlayerId, Purse>)
    requires (forall p <- init :: p in purses) && last in purses && last !in init
    requires Leads(lead, init, purses)
    ensures forall p <- init + [last] :: p in purses
    ensures var vp := purses[last].vp;
            Leads(if vp > lead.top then Lead(Some(last), vp, false)
                  else if vp == lead.top then lead.(tied := true) else lead, init + [last], purses)
  {
    var all := init + [last];
    assert forall p :: p in all <==> p in init || p == last;
    assert last in all;
  }

  /** The scan finds the highest score and whether it is shared. */
  lemma {:induction false} LeadIsMaximum(holders: seq<PlayerId>, purses: map<PlayerId, Purse>)
    requires NoDup(holders) && holders != [] && forall p <- holders :: p in purses && purses[p].vp >= 0
    ensures Leads(LeadOf(holders, purses), holders, purses)
  {
    hide Leads;
    var init, last := holders[..|holders| - 1], holders[|holders| - 1];
    assert holders == init + [last] && last !in init;
    if init != [] {
      LeadIsMaximum(init, purses);
      LeadAfter(LeadOf(init, purses), init, last, purses);
    } else {
      OnlyOneLeads(last, purses);
    }
  }

  lemma OnlyOneLeads(p: PlayerId, purses: map<PlayerId, Purse>)
    requires p in purses
    ensures Leads(Lead(Some(p), purses[p].vp, false), [p], purses)
  {
  }

  lemma TilesCounted(board: GameMap<Terrain>)
    requires board.Valid()
    ensures |board.order| == |board.tiles.Keys|
  {
    ElementsCount(board.order);
    assert Elements(board.order) == board.tiles.Keys;
  }

  lemma SmallerSubset(a: set<Coord>, b: set<Coord>)
    requires a <= b
    ensures |a| <= |b| && (|a| == |b| <==> a == b)
  {
    assert b == a + (b - a);
  }

  /** The board is full exactly when every tile carries a flag; the winner is then the only player with the highest
      score, and there is none when two share it. */
  lemma FullBoardWinner(s: State)
    requires Inv(s) && s.holders != []
    ensures forall p <- s.holders :: p in s.purses
    ensures AllTilesClaimed(s).Some? <==> forall c <- s.board.tiles.Keys :: Occupied(s.flags, c)
    ensures AllTilesClaimed(s).Some? ==>
              forall w :: AllTilesClaimed(s).value.winner == Some(w) <==> OnlyTop(s, w)
  {
    hide SeatsOk, OffersOk, FortsOk, LeadOf, OneFlagPerTile;
    LeadIsMaximum(s.holders, s.purses);
    TilesCounted(s.board);
    SmallerSubset(ClaimedTiles(s.flags), s.board.tiles.Keys);
  }

  /** The verdict: the first holder with eighteen points wins, on a full board too; with nobody there yet a full board
      goes to the only player on top, or to nobody, and the game is otherwise undecided. */
  lemma VictoryVerdict(s: State)
    requires Inv(s) && s.holders != []
    ensures forall p <- s.holders :: p in s.purses
    ensures (forall p <- s.holders :: s.purses[p].vp < 18) ==>
              && (Evaluate(s).Some? <==> forall c <- s.board.tiles.Keys :: Occupied(s.flags, c))
              && (Evaluate(s).Some? ==> !Evaluate(s).value.reason.ReachedGoal?
                                        && forall w :: Evaluate(s).value.winner == Some(w) <==> OnlyTop(s, w))
    ensures (exists p <- s.holders :: s.purses[p].vp >= 18) ==>
              exists i :: 0 <= i < |s.holders| && s.purses[s.holders[i]].vp >= 18
                          && Evaluate(s) == Some(Victory(Some(s.holders[i]), ReachedGoal))
                          && forall j :: 0 <= j < i ==> s.purses[s.holders[j]].vp < 18
  {
    hide Inv, FirstToEighteen, LeadOf, Occupied;
    FullBoardWinner(s);
    RaceWinner(s.holders, s.purses);
  }

  ghost predicate OnlyTop(s: State, w: PlayerId)
    requires forall p <- s.holders :: p in s.purses
  {
    w in s.holders && forall p <- s.holders :: p != w ==> s.purses[p].vp < s.purses[w].vp
  }

  // ---- Setup -----------------------------------------------------------------------------------------

  ghost predicate HomesOn(board: GameMap<Terrain>, n: nat) {
    forall c <- StartingCoords(n) :: c in board.tiles
  }

  /** What holds when the first n players have got their home tiles. */
  ghost predicate SetUpTo(s: State, players: seq<Player>, n: nat)
    requires n <= |players| && n <= |StartingCoords(|players|)|
  {
    && PursesOk(s.purses, s.holders, RosterIds(players))
    && FlagsOk(s.flags, s.board, RosterIds(players))
    && s.flags == HomeFlags(players, StartingCoords(|players|), n)
  }

  function HomeFlags(players: seq<Player>, coords: seq<Coord>, n: nat): (flags: seq<Flag>)
    requires n <= |players| && n <= |coords|
    ensures |flags| == n && forall i :: 0 <= i < n ==> flags[i] == Flag(players[i].id, coords[i])
  {
    seq(n, i requires 0 <= i < n => Flag(players[i].id, coords[i]))
  }

  lemma NextHome(players: seq<Player>, coords: seq<Coord>, n: nat)
    requires 0 < n <= |players| && n <= |coords| && NoDup(coords)
    ensures !Occupied(HomeFlags(players, coords, n - 1), coords[n - 1])
    ensures HomeFlags(players, coords, n) ==
            HomeFlags(players, coords, n - 1) + [Flag(players[n - 1].id, coords[n - 1])]
  {
  }

  lemma PlaceHomeFrame(s: State, p: PlayerId, home: Coord)
    requires p in s.purses
    ensures var r := PlaceHome(s, p, home);
            r == s.(flags := r.flags, purses := r.purses, homes := r.homes)
  {
  }

  lemma PlacingNext(s: State, players: seq<Player>, n: nat)
    requires 0 < n <= |players| && n <= |StartingCoords(|players|)|
    requires HomesOn(s.board, |players|) && SetUpTo(s, players, n - 1) && players[n - 1].id in s.purses
    ensures SetUpTo(PlaceHome(s, players[n - 1].id, StartingCoords(|players|)[n - 1]), players, n)
  {
    hide PursesOk, FlagsOk, StartingCoords, HomeFlags, Gain, PutFlag, Occupied, NoDup, TerrainVp, Distance, RosterIds;
    var coords := StartingCoords(|players|);
    var p, home := players[n - 1].id, coords[n - 1];
    assert home in coords;
    IdIsListed(players, n - 1);
    GainKeepsHomes(s, players, p, TerrainVp(s.board.tiles[home]));
    NextHome(players, coords, n);
    NewFlag(s.flags, s.board, RosterIds(players), Flag(p, home));
  }

  lemma IdIsListed(players: seq<Player>, i: nat)
    requires i < |players|
    ensures players[i].id in RosterIds(players)
  {
    assert players[i] in players;
  }

  lemma GainKeepsHomes(s: State, players: seq<Player>, p: PlayerId, vp: nat)
    requires PursesOk(s.purses, s.holders, RosterIds(players)) && p in s.purses
    ensures PursesOk(Gain(s.purses, p, vp, 0.0, 0.0), s.holders, RosterIds(players))
  {
    hide PursesOk;
    SolventHolder(s.purses, s.holders, RosterIds(players), p);
    GainKeepsPurses(s.purses, s.holders, RosterIds(players), p, vp, 0.0, 0.0);
  }

  lemma {:induction false} PlacedIsSetUp(s: State, players: seq<Player>, n: nat)
    requires n <= |players| && n <= |StartingCoords(|players|)| && forall p <- players :: p.id in s.purses
    requires HomesOn(s.board, |players|) && SetUpTo(s, players, 0)
    ensures SetUpTo(Placed(s, players, n), players, n)
    ensures var r := Placed(s, players, n); r == s.(flags := r.flags, purses := r.purses, homes := r.homes)
  {
    hide SetUpTo, StartingCoords, PlaceHome, HomesOn;
    if n > 0 {
      PlacedIsSetUp(s, players, n - 1);
      PlaceHomeFrame(Placed(s, players, n - 1), players[n - 1].id, StartingCoords(|players|)[n - 1]);
      PlacingNext(Placed(s, players, n - 1), players, n);
    }
  }

  lemma FreshIsSetUp(players: seq<Player>, board: GameMap<Terrain>, rng: bv32)
    requires players != [] && Roster(players) && board.Valid()
    ensures SetUpTo(Fresh(players, board, rng), players, 0)
  {
    hide SortBySeat, ActiveSortedBySeat, StartingCoords, TerrainVp, Distance;
    var s := Fresh(players, board, rng);
    forall p ensures p in RosterIds(players) <==> p in s.purses {
      if p in s.purses {
        var i :| 0 <= i < |players| && players[i].id == p;
        assert players[i] in players;
      }
    }
  }

  lemma SeatsAtStart(players: seq<Player>, board: GameMap<Terrain>, rng: bv32)
    requires Roster(players) && players != [] && forall p <- players :: p.id.text != ""
    ensures var s := Fresh(players, board, rng);
            SeatsOk(s.roster, s.rounds) && RosterIds(s.roster) == RosterIds(players)
  {
    Seated(players);
    hide Roster, ActiveSortedBySeat, SortBySeat;
    var s := Fresh(players, board, rng);
    forall p | p in s.roster ensures p.status == Active && p.id.text != "" {
      assert p.id in RosterIds(players);
    }
    var n: nat :| LowestActive(s.roster, n) && s.roster[n].id == TurnHolder(s);
    assert s.roster[n] in s.roster;
  }

  /** Setup establishes the invariant; the flags are the home tiles, one per player, in the order passed in. */
  lemma SetupIsOk(players: seq<Player>, board: GameMap<Terrain>, rng: bv32)
    requires Roster(players) && 2 <= |players| <= 4 && forall p <- players :: p.id.text != ""
    requires board.Valid() && HomesOn(board, |players|)
    ensures Inv(Setup(players, board, rng)) && SetUpTo(Setup(players, board, rng), players, |players|)
  {
    hide SeatsOk, PursesOk, FlagsOk, FortsOk, OffersOk, Roster, StartingCoords, Placed, ActiveSortedBySeat, SortBySeat,
         HomesOn, RosterIds, HomeFlags, Distance, NoDup;
    assert |StartingCoords(|players|)| == |players|;
    FreshIsSetUp(players, board, rng);
    SeatsAtStart(players, board, rng);
    NothingOffered(RosterIds(players), Setup(players, board, rng).flags);
    assert forall p <- players :: p.id in IdsOf(players);
    PlacedIsSetUp(Fresh(players, board, rng), players, |players|);
  }

  /** The first n players have their home tile and the points for its terrain, the others nothing yet. */
  ghost predicate PaidUpTo(s: State, players: seq<Player>, coords: seq<Coord>, n: nat)
    requires n <= |players| && n <= |coords|
  {
    forall i :: 0 <= i < |players| ==> PaidFor(s, players[i].id, if i < n then Some(coords[i]) else None)
  }

  predicate PaidFor(s: State, p: PlayerId, home: Option<Coord>) {
    match home
    case None => p in s.purses && s.purses[p] == Purse(0, 0.0, 0.0)
    case Some(c) => HomePaid(s, p, c)
  }

  predicate HomePaid(s: State, p: PlayerId, home: Coord) {
    && home in s.board.tiles && p in s.purses && p in s.homes && s.homes[p] == home
    && s.purses[p] == Purse(match s.board.tiles[home] case Grass => 1 case Forest => 2 case Mountain => 3, 0.0, 0.0)
  }

  lemma {:induction false} PlacedPays(s: State, players: seq<Player>, n: nat)
    requires n <= |players| && n <= |StartingCoords(|players|)| && Roster(players) && forall p <- players :: p.id in s.purses
    requires HomesOn(s.board, |players|) && PaidUpTo(s, players, StartingCoords(|players|), 0)
    ensures PaidUpTo(Placed(s, players, n), players, StartingCoords(|players|), n) && Placed(s, players, n).board == s.board
  {
    hide StartingCoords, Roster, PaidUpTo, PlaceHome, Distance, NoDup;
    if n > 0 {
      PlacedPays(s, players, n - 1);
      var coords, before := StartingCoords(|players|), Placed(s, players, n - 1);
      assert coords[n - 1] in coords;
      NextIsPaid(before, players, coords, n);
    }
  }

  lemma NextIsPaid(s: State, players: seq<Player>, coords: seq<Coord>, n: nat)
    requires 0 < n <= |players| && n <= |coords| && Roster(players)
    requires PaidUpTo(s, players, coords, n - 1) && coords[n - 1] in s.board.tiles && players[n - 1].id in s.purses
    ensures var after := PlaceHome(s, players[n - 1].id, coords[n - 1]);
            PaidUpTo(after, players, coords, n) && after.board == s.board
  {
    hide Roster, PlaceHome, PaidFor;
    var p, home := players[n - 1].id, coords[n - 1];
    var after := PlaceHome(s, p, home);
    forall i | 0 <= i < |players| ensures PaidFor(after, players[i].id, if i < n then Some(coords[i]) else None) {
      assert PaidFor(s, players[i].id, if i < n - 1 then Some(coords[i]) else None);
      if i == n - 1 {
        HomeIsPaid(s, p, home);
      } else {
        DistinctIds(players, i, n - 1);
        OthersStay(s, p, home, players[i].id, if i < n then Some(coords[i]) else None);
      }
    }
    HomeKeepsBoard(s, p, home);
  }

  lemma HomeKeepsBoard(s: State, p: PlayerId, home: Coord)
    requires p in s.purses
    ensures PlaceHome(s, p, home).board == s.board
  {
  }

  lemma HomeIsPaid(s: State, p: PlayerId, home: Coord)
    requires PaidFor(s, p, None) && home in s.board.tiles
    ensures PaidFor(PlaceHome(s, p, home), p, Some(home))
  {
    hide PutFlag;
  }

  lemma OthersStay(s: State, p: PlayerId, home: Coord, q: PlayerId, other: Option<Coord>)
    requires PaidFor(s, q, other) && p in s.purses && q != p
    ensures PaidFor(PlaceHome(s, p, home), q, other)
  {
    hide PutFlag;
  }

  lemma DistinctIds(players: seq<Player>, i: nat, j: nat)
    requires Roster(players) && i < |players| && j < |players| && i != j
    ensures players[i].id != players[j].id
  {
  }

  /** After setup everybody holds the points of its home tile and nothing else, in the order passed in; the lowest seat
      has the first turn of the first round; no fort stands and no offer is open. */
  lemma SetupPays(players: seq<Player>, board: GameMap<Terrain>, rng: bv32)
    requires Roster(players) && 2 <= |players| <= 4 && board.Valid() && HomesOn(board, |players|)
    ensures var s := Setup(players, board, rng);
            && |StartingCoords(|players|)| == |players| == |s.holders|
            && (forall i :: 0 <= i < |players| ==>
                  s.holders[i] == players[i].id && HomePaid(s, players[i].id, StartingCoords(|players|)[i]))
            && s.forts == [] && s.offers == [] && s.lastOfferId == 0 && s.rng == rng && s.board == board && s.rounds.round == 1
            && (exists n: nat :: LowestActive(s.roster, n) && s.roster[n].id == TurnHolder(s))
  {
    hide StartingCoords, Roster, Placed, ActiveSortedBySeat, SortBySeat, HomesOn, RosterIds, HomePaid, SetUpTo, Distance, NoDup;
    assert |StartingCoords(|players|)| == |players|;
    var s := Fresh(players, board, rng);
    Seated(players);
    FreshIsSetUp(players, board, rng);
    assert forall p <- players :: p.id in IdsOf(players);
    NothingPaid(players, board, rng);
    PlacedPays(s, players, |players|);
    PlacedIsSetUp(s, players, |players|);
  }

  lemma NothingPaid(players: seq<Player>, board: GameMap<Terrain>, rng: bv32)
    requires players != []
    ensures PaidUpTo(Fresh(players, board, rng), players, StartingCoords(|players|), 0)
  {
    hide StartingCoords, ActiveSortedBySeat, SortBySeat;
    forall i | 0 <= i < |players| ensures players[i].id in IdsOf(players) {
      assert IdsOf(players)[i] == players[i].id;
    }
  }

  lemma NothingOffered(ids: set<PlayerId>, flags: seq<Flag>)
    ensures FortsOk([], flags) && OffersOk([], 0, ids)
  {
  }

  lemma FrontierBoardIsOk(seed: bv32, n: nat)
    ensures FrontierBoard(seed).Valid() && HomesOn(FrontierBoard(seed), n)
  {
    hide FrontierBoard, Distance, Coords, TilesOf;
    EveryFrontierBoardHasTheSameMix(seed);
    forall c | c in StartingCoords(n) ensures c in FrontierBoard(seed).tiles {
      assert Distance(Coord(0, 0), c) == 3;
    }
  }

  // ---- Runs ------------------------------------------------------------------------------------------

  /** The state after a run of commands and all events along the way; a rejected command changes nothing. */
  function Play(s: State, cs: seq<Command>): Outcome {
    if cs == [] then Done(s, [])
    else
      match Play(s, cs[..|cs| - 1])
      case Threw => Threw
      case Done(before, events) =>
        var c := cs[|cs| - 1];
        if Validate(before, c).Some? then Done(before, events)
        else match Execute(before, c)
             case Done(after, more) => Done(after, events + more)
             case Threw => Threw
  }

  /** No run throws, the invariant holds throughout, and every ware is fully accounted for by the events. */
  lemma {:induction false} RunsKeepInv(s: State, cs: seq<Command>, w: Ware)
    requires Inv(s)
    ensures Play(s, cs).Done? && Inv(Play(s, cs).state)
    ensures Total(Play(s, cs).state, w) == Total(s, w) + RealSum(MintedFn(w), Play(s, cs).events)
  {
    hide Inv, Validate, Execute, Total;
    if cs != [] {
      var init, c := cs[..|cs| - 1], cs[|cs| - 1];
      RunsKeepInv(s, init, w);
      var before := Play(s, init).state;
      if Validate(before, c).None? {
        AcceptedActionKeepsInv(before, c);
        ActionMintsItsEvents(before, c, w);
        RealSumConcat(MintedFn(w), Play(s, init).events, Execute(before, c).events);
      }
    }
  }

  /** For every seed, every seating of 2 to 4 players and every run of commands whatsoever. */
  lemma EveryReachableStateIsOk(players: seq<Player>, seed: bv32, cs: seq<Command>)
    requires Roster(players) && 2 <= |players| <= 4 && forall p <- players :: p.id.text != ""
    ensures var end := Play(Setup(players, FrontierBoard(seed), seed), cs);
            end.Done? && Inv(end.state)
  {
    hide Inv, FrontierBoard, Setup, Play, HomesOn, Roster, Total, SetUpTo;
    FrontierBoardIsOk(seed, |players|);
    SetupIsOk(players, FrontierBoard(seed), seed);
    RunsKeepInv(Setup(players, FrontierBoard(seed), seed), cs, VpWare);
  }

  // ---- Turns ------------------------------------------------------------------------------------------

  /** Both dice are fair up to the last word: a face falls exactly when the generator's word, the first or the second after
      the state, lies in that face's sixth of the 32-bit words. */
  lemma DiceByWord(x: bv32, face: nat)
    requires 1 <= face <= 6
    ensures Die1(x) == face <==> (face - 1) * 0x1_0000_0000 <= 6 * Word(Step(x)) < face * 0x1_0000_0000
    ensures Die2(x) == face <==> (face - 1) * 0x1_0000_0000 <= 6 * Word(Step(Step(x))) < face * 0x1_0000_0000
  {
    hide Step, Word;
    Sixth(Word(Step(x)), face);
    Sixth(Word(Step(Step(x))), face);
  }

  lemma Sixth(w: nat, face: nat)
    requires w < 0x1_0000_0000 && 1 <= face <= 6
    ensures 1 + w * 6 / 0x1_0000_0000 == face <==> (face - 1) * 0x1_0000_0000 <= 6 * w < face * 0x1_0000_0000
  {
  }

  /** A claim is worth its terrain and up to two points more, by the sum of two dice, and brings the terrain's resource;
      the leap, if there was one, is spent. */
  lemma ClaimAwards(s: State, p: PlayerId, tile: Coord)
    requires Inv(s) && p == TurnHolder(s) && ValidateClaim(s, p, tile).None?
    ensures ExecuteClaim(s, p, tile).Done? && p in s.purses && p in ExecuteClaim(s, p, tile).state.purses
    ensures var after := ExecuteClaim(s, p, tile).state;
            var terrain, roll := s.board.tiles[tile], Die1(s.rng) + Die2(s.rng);
            var worth := match terrain case Grass => 1 case Forest => 2 case Mountain => 3;
            var bonus := if roll < 7 then 0 else if roll < 10 then 1 else 2;
            && 2 <= roll <= 12 && after.rng == Step(Step(s.rng))
            && ExecuteClaim(s, p, tile).events ==
               [TileClaimed(p, tile, terrain, worth + bonus, Die1(s.rng), Die2(s.rng), bonus,
                            match terrain case Grass => None case Forest => Some(Wood) case Mountain => Some(Stone))]
            && after.purses[p].vp == s.purses[p].vp + worth + bonus
            && after.purses[p].wood - s.purses[p].wood == (if terrain == Forest then 1.0 else 0.0)
            && after.purses[p].stone - s.purses[p].stone == (if terrain == Mountain then 1.0 else 0.0)
            && (forall q :: q != p && q in s.purses ==> q in after.purses && after.purses[q] == s.purses[q])
            && TileOwner(after.flags, tile) == Some(p) && !Raised(after, LEAP) && Raised(after, CLAIMED)
  {
    hide Inv, Draw, Step, HasTerritory, Borders, PutFlag, TileOwner, Occupied;
    GuardPassed(s, Some(p));
    DiceInRange(s.rng);
    ClaimedFlag(s, p, tile);
    LastFlagOwns(s.flags, Flag(p, tile));
  }

  lemma ClaimedFlag(s: State, p: PlayerId, tile: Coord)
    requires ValidateClaim(s, p, tile).None?
    ensures !Occupied(s.flags, tile) && PutFlag(s.flags, Flag(p, tile)) == s.flags + [Flag(p, tile)]
  {
    hide HasTerritory, Borders;
  }

  lemma {:induction false} LastFlagOwns(flags: seq<Flag>, f: Flag)
    requires !Occupied(flags, f.tile)
    ensures TileOwner(flags + [f], f.tile) == Some(f.owner)
  {
    if flags != [] {
      assert (flags + [f])[1..] == flags[1..] + [f];
      assert flags[0] in flags;
      assert forall x <- flags[1..] :: x in flags;
      LastFlagOwns(flags[1..], f);
    }
  }

  function Claimed(s: State): nat {
    if Raised(s, CLAIMED) then 1 else 0
  }

  lemma ActionCountsClaims(s: State, c: Command)
    requires Inv(s) && Validate(s, c).None? && !c.action.FinishTurn? && Execute(s, c).Done?
    ensures |Execute(s, c).state.flags| - |s.flags| == Claimed(Execute(s, c).state) - Claimed(s)
  {
    hide Inv, Draw, Step, HasTerritory, Borders, PutFlag, TileOwner, Occupied, FindOffer, WithoutOffer, OffersBy,
         AfterDeal, PutFort, Gain, TerrainVp;
    if c.action.ClaimTile? {
      ClaimedFlag(s, c.player.value, c.action.tile);
    }
  }

  /** Whatever else happens in it, leaps included, a turn sees at most one claim: none if one has been made. */
  lemma {:induction false} OneClaimPerTurn(s: State, cs: seq<Command>)
    requires Inv(s) && forall c <- cs :: !c.action.FinishTurn?
    ensures Play(s, cs).Done?
    ensures |Play(s, cs).state.flags| == |s.flags| + Claimed(Play(s, cs).state) - Claimed(s)
  {
    hide Inv, Validate, Execute, Claimed;
    RunsKeepInv(s, cs, VpWare);
    if cs != [] {
      var init, c := cs[..|cs| - 1], cs[|cs| - 1];
      assert c in cs && forall x <- init :: x in cs;
      OneClaimPerTurn(s, init);
      RunsKeepInv(s, init, VpWare);
      var before := Play(s, init).state;
      if Validate(before, c).None? {
        AcceptedActionKeepsInv(before, c);
        ActionCountsClaims(before, c);
      }
    }
  }
}
