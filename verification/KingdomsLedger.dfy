/** Round ends on the books: what each tile brings in, and that the events of a round end account for every stock. */
module KingdomsLedger {
  import opened Collections
  import opened Hex
  import opened Board
  import opened KingdomsMap
  import opened Rounds
  import opened Connectivity
  import opened KingdomsState
  import opened KingdomsEconomy
  import opened KingdomsRules
  import opened KingdomsInvariant
  import opened KingdomsConquest
  import opened KingdomsBattle
  import opened KingdomsRun
  import opened KingdomsVerdicts

  // ---- What a tile brings in ------------------------------------------------------------------

  lemma {:induction false} KindsOfOne(order: seq<PieceId>, at: map<PieceId, Piece>, tile: Coord, id: PieceId)
    requires NoDup(order) && id in at && at[id].tile == tile && !IsUnit(at[id].kind)
    requires forall x <- at.Keys :: at[x].tile == tile && !IsUnit(at[x].kind) ==> x == id
    ensures KindsOn(order, at, [], tile) == if id in order then [at[id].kind] else []
  {
    hide IsUnit;
    if order != [] {
      var init, last := order[..|order| - 1], order[|order| - 1];
      assert order == init + [last] && last !in init;
      KindsOfOne(init, at, tile, id);
    }
  }

  lemma {:induction false} KindsOfNone(order: seq<PieceId>, at: map<PieceId, Piece>, tile: Coord)
    requires forall x <- at.Keys :: at[x].tile == tile ==> IsUnit(at[x].kind)
    ensures KindsOn(order, at, [], tile) == []
  {
    if order != [] {
      KindsOfNone(order[..|order| - 1], at, tile);
    }
  }

  /** Some piece of the kind stands on the tile. */
  predicate Stands(s: State, tile: Coord, k: Kind) {
    Standing(s.pieces, tile, k) != {}
  }

  /** The kinds income reads off a tile: none, or the one structure on it. */
  lemma KindsStanding(s: State, tile: Coord)
    requires Inv(s)
    ensures |KindsAt(LandOf(s), tile)| <= 1
    ensures forall k :: !IsUnit(k) ==> (Stands(s, tile, k) <==> KindsAt(LandOf(s), tile) == [k])
  {
    hide Inv, StructureOnTile, KindsOn, IsUnit;
    PiecesValid(s);
    NoMortgage(s);
    OnlyStructure(s, tile);
    StructureFound(s, tile);
    var ps, found := s.pieces, StructureOnTile(s.pieces, tile, Structures);
    if found.Some? {
      KindsOfOne(ps.order, ps.at, tile, found.value);
      assert found.value in Standing(ps, tile, ps.at[found.value].kind);
    } else {
      KindsOfNone(ps.order, ps.at, tile);
    }
  }

  lemma NoMortgage(s: State)
    requires Inv(s)
    ensures s.mortgaged == []
  {
    hide BoardOk, RosterOk, LandOk, PiecesOk, CapitalsOk, StocksOk, LoyaltyOk, LimitsOk, NoDup;
  }

  /** A tile brings its economic value in gold, twice that with a city, one more with a capital base; two of its resource,
      three with a farm; and two more of what it was developed for, its resource or else that of its terrain. */
  lemma TileBrings(s: State, c: Coord, res: Resource)
    requires Inv(s) && c in s.board.tiles
    ensures var land, tile := LandOf(s), s.board.tiles[c];
            var unlocked := match tile.terrain case Plains => Food case Forest => Wood case Hills => Iron case Mountain => Iron;
            && GoldAt(land, c) == tile.economicValue * (if Stands(s, c, City) then 2 else 1) + (if Stands(s, c, CapitalBase) then 1 else 0)
            && YieldAt(land, c, res) == (if tile.resource == Some(res) then (if Stands(s, c, Farm) then 3 else 2) else 0)
            && DevelopmentAt(land, c, res) ==
               if c in s.developed && (if tile.resource.Some? then tile.resource.value else unlocked) == res then 2 else 0
  {
    hide Inv, KindsOn, Stands, IsUnit;
    KindsStanding(s, c);
    StructureKinds();
    IncomeOfFew(s.board.tiles[c], KindsAt(LandOf(s), c));
  }

  lemma StructureKinds()
    ensures !IsUnit(City) && !IsUnit(CapitalBase) && !IsUnit(Farm)
  {
  }

  lemma IncomeOfFew(tile: Tile, kinds: seq<Kind>)
    requires |kinds| <= 1
    ensures var income := IncomeOfTile(tile, kinds);
            && income.gold == tile.economicValue * (if kinds == [City] then 2 else 1) + (if kinds == [CapitalBase] then 1 else 0)
            && income.resource == tile.resource
            && income.amount == if tile.resource.None? then 0 else if kinds == [Farm] then 3 else 2
  {
    hide IncomeOfTile;
    if kinds == [] {
      IncomeOfNone(tile);
    } else {
      assert kinds == [kinds[0]];
      IncomeOfOne(tile, kinds[0]);
    }
  }

  lemma IncomeOfNone(tile: Tile)
    ensures IncomeOfTile(tile, []) ==
            TileIncome(tile.economicValue, tile.resource, if tile.resource.None? then 0 else 2)
  {
  }

  lemma IncomeOfOne(tile: Tile, k: Kind)
    ensures IncomeOfTile(tile, [k]) ==
            TileIncome(tile.economicValue * (if k == City then 2 else 1) + (if k == CapitalBase then 1 else 0), tile.resource,
                       if tile.resource.None? then 0 else if k == Farm then 3 else 2)
  {
    assert [k][..0] == [];
    FarmMultiplier([k]);
    var v := tile.economicValue;
    assert GoldFlat([k]) == if k == CapitalBase then 1 else 0;
    assert GoldMultiplier([k]) == if k == City then 2.0 else 1.0;
    assert v as real * GoldMultiplier([k]) == (v * if k == City then 2 else 1) as real;
  }

  // ---- The books of a round end ------------------------------------------------------------------

  /** What an event of a round end books for a player. */
  function Booked(e: Event, p: PlayerId): Stock {
    match e
    case IncomeCollected(q, income) => if q == p then income else Stock(0, 0, 0, 0)
    case FoodConsumed(q, eaten, _) => if q == p then Stock(0, -eaten, 0, 0) else Stock(0, 0, 0, 0)
    case FoodPurchased(q, amount, gold) => if q == p then Stock(0, amount, 0, -gold) else Stock(0, 0, 0, 0)
    case _ => Stock(0, 0, 0, 0)
  }

  function Books(events: seq<Event>, p: PlayerId): Stock {
    if events == [] then Stock(0, 0, 0, 0)
    else Plus(Books(events[..|events| - 1], p), Booked(events[|events| - 1], p))
  }

  lemma {:induction false} BooksConcat(a: seq<Event>, b: seq<Event>, p: PlayerId)
    ensures Books(a + b, p) == Plus(Books(a, p), Books(b, p))
  {
    if b == [] {
      assert a + b == a;
    } else {
      assert (a + b)[..|a + b| - 1] == a + b[..|b| - 1];
      BooksConcat(a, b[..|b| - 1], p);
    }
  }

  lemma BooksOne(e: Event, p: PlayerId)
    ensures Books([e], p) == Booked(e, p)
  {
    assert [e][..0] == [];
  }

  /** How a player's own cycle changes its stock. */
  ghost function Change(s: State, p: PlayerId): Stock {
    if p !in s.stocks then Stock(0, 0, 0, 0)
    else Minus(Cycle(s.stocks[p], Income(LandOf(s), p), FoodCost(LandOf(s), p)), s.stocks[p])
  }

  ghost predicate Solvent(s: State, p: PlayerId) {
    p in s.stocks && NonNegative(s.stocks[p]) && NonNegative(Income(LandOf(s), p))
  }

  /** One player's part of a round end, on its own books and on nobody else's. */
  lemma CycleBalances(s: State, p: PlayerId, q: PlayerId)
    requires Solvent(s, p)
    ensures Books(CycleEvents(s, p), q) == if q == p then Change(s, p) else Stock(0, 0, 0, 0)
  {
    hide Income, FoodCost, OldestCity, Books, FoodEvents, Eat, LandOf, CycleEvents, Collect;
    var income, cost := Income(LandOf(s), p), FoodCost(LandOf(s), p);
    var held := Collect(s.stocks[p], income);
    var first := [IncomeCollected(p, income)];
    SolventCycle(s, p);
    BooksOne(IncomeCollected(p, income), q);
    if cost > 0 {
      FoodBalances(p, held, cost, q);
      BooksConcat(first, FoodEvents(p, held, cost), q);
    } else {
      NothingEaten(held);
      assert first + [] == first;
    }
  }

  lemma SolventCycle(s: State, p: PlayerId)
    requires Solvent(s, p)
    ensures var income, cost := Income(LandOf(s), p), FoodCost(LandOf(s), p);
            var held := Collect(s.stocks[p], income);
            && NonNegative(held) && held == Plus(s.stocks[p], income)
            && CycleEvents(s, p) == [IncomeCollected(p, income)] + if cost > 0 then FoodEvents(p, held, cost) else []
  {
    hide Income, FoodCost, OldestCity, FoodEvents, LandOf;
    CycleNeverOverdraws(s.stocks[p], Income(LandOf(s), p), FoodCost(LandOf(s), p));
  }

  lemma NothingEaten(held: Stock)
    ensures Eat(held, 0) == held
  {
  }

  lemma FoodBalances(p: PlayerId, held: Stock, cost: nat, q: PlayerId)
    requires cost > 0 && NonNegative(held)
    ensures Books(FoodEvents(p, held, cost), q) == if q == p then Minus(Eat(held, cost), held) else Stock(0, 0, 0, 0)
  {
    hide Books;
    var eaten := FoodConsumed(p, Min(held.food, cost), cost);
    BooksOne(eaten, q);
    var bought := Purchased(held.gold, cost - held.food);
    if bought > 0 {
      var paid := FoodPurchased(p, bought, 3 * bought);
      BooksOne(paid, q);
      BooksConcat([eaten], [paid], q);
      assert FoodEvents(p, held, cost) == [eaten] + [paid];
    } else {
      assert FoodEvents(p, held, cost) == [eaten];
    }
  }

  /** Players one after the other: everybody listed gets its own cycle booked, nobody else anything. */
  lemma {:induction false} RoundBalances(s: State, ps: seq<PlayerId>, q: PlayerId)
    requires NobodyInDebt(s) && NoDup(ps) && forall p <- ps :: Solvent(s, p)
    ensures Books(RoundEvents(s, ps), q) == if q in ps then Change(s, q) else Stock(0, 0, 0, 0)
  {
    hide *;
    if ps == [] {
      NothingBooked(s, q);
    } else {
      var init, p := ps[..|ps| - 1], ps[|ps| - 1];
      assert ps == init + [p];
      InitIsDistinct(ps);
      RoundBalances(s, init, q);
      MidRound(s, init, p);
      LastBooks(s, ps, q);
      CycleBalances(ProcessPlayers(s, init), p, q);
      PlusNothing(Books(RoundEvents(s, init), q), Books(CycleEvents(ProcessPlayers(s, init), p), q));
    }
  }

  lemma PlusNothing(a: Stock, b: Stock)
    ensures a == Stock(0, 0, 0, 0) ==> Plus(a, b) == b
    ensures b == Stock(0, 0, 0, 0) ==> Plus(a, b) == a
  {
  }

  lemma LastBooks(s: State, ps: seq<PlayerId>, q: PlayerId)
    requires ps != []
    ensures var init, p := ps[..|ps| - 1], ps[|ps| - 1];
            Books(RoundEvents(s, ps), q) ==
            Plus(Books(RoundEvents(s, init), q), Books(CycleEvents(ProcessPlayers(s, init), p), q))
  {
    hide Books, CycleEvents, ProcessPlayers;
    var init, p := ps[..|ps| - 1], ps[|ps| - 1];
    BooksConcat(RoundEvents(s, init), CycleEvents(ProcessPlayers(s, init), p), q);
  }

  lemma InitIsDistinct(ps: seq<PlayerId>)
    requires NoDup(ps)
    ensures ps != [] ==> NoDup(ps[..|ps| - 1]) && ps[|ps| - 1] !in ps[..|ps| - 1]
  {
  }

  /** What a player's cycle reads is untouched by the cycles before it. */
  lemma MidRound(s: State, init: seq<PlayerId>, p: PlayerId)
    requires NobodyInDebt(s) && NoDup(init) && p !in init && Solvent(s, p)
    ensures Solvent(ProcessPlayers(s, init), p) && Change(ProcessPlayers(s, init), p) == Change(s, p)
  {
    hide Income, FoodCost, Cycle;
    RoundEndIsSimultaneous(s, init);
  }

  lemma NothingBooked(s: State, q: PlayerId)
    ensures Books(RoundEvents(s, []), q) == Stock(0, 0, 0, 0)
  {
  }

  lemma {:induction false} DisconnectionsBookNothing(s: State, ps: seq<PlayerId>, q: PlayerId)
    ensures Books(Disconnections(s, ps), q) == Stock(0, 0, 0, 0)
  {
    hide Supplied, OwnedTiles;
    if ps != [] {
      var p := ps[|ps| - 1];
      var cutOff := OwnedTiles(s.ownership, p) - Supplied(LandOf(s), p);
      DisconnectionsBookNothing(s, ps[..|ps| - 1], q);
      if cutOff != {} {
        BooksOne(TerritoryDisconnected(p, cutOff), q);
        BooksConcat(Disconnections(s, ps[..|ps| - 1]), [TerritoryDisconnected(p, cutOff)], q);
      } else {
        assert Disconnections(s, ps) == Disconnections(s, ps[..|ps| - 1]);
      }
    }
  }

  /** The stock of every player after a turn is ended is its stock before plus what the events book for it: income taken in,
      food eaten, food bought and gold paid for it.  Nothing is booked in the middle of a round. */
  lemma EventsAccountForStocks(s: State, p: PlayerId, q: PlayerId)
    requires Inv(s) && q in s.stocks
    ensures ExecuteFinishTurn(s, p).Done? && q in ExecuteFinishTurn(s, p).state.stocks
    ensures ExecuteFinishTurn(s, p).state.stocks[q] == Plus(s.stocks[q], Books(ExecuteFinishTurn(s, p).events, q))
  {
    hide Inv, EndTurn, RoundEnd, Recovered, Books, ActiveIds, Booked;
    FinishKeepsInv(s, p);
    var (rounds, newRound) := EndTurn(s.rounds, s.roster, COMMAND_PHASE).value;
    var ended := TurnEnded(p, rounds.turn.activePlayer, newRound, rounds.round);
    BooksOne(ended, q);
    TurnBooksNothing(ended, q);
    if newRound {
      var turned := s.(moved := [], attackedFrom := [], rounds := rounds);
      TurnedKeepsInv(s, rounds, newRound);
      RoundEndSettles(turned);
      RoundBooks(turned, q);
      BooksConcat([ended], RoundEnd(turned).1, q);
    }
  }

  lemma TurnBooksNothing(e: Event, q: PlayerId)
    requires e.TurnEnded? || e.RoundEnded?
    ensures Booked(e, q) == Stock(0, 0, 0, 0)
  {
  }

  lemma RoundBooks(s: State, q: PlayerId)
    requires Inv(s) && q in s.stocks
    ensures q in SettledStocks(s, ActiveIds(s.roster))
    ensures Books(RoundEnd(s).1, q) == Minus(SettledStocks(s, ActiveIds(s.roster))[q], s.stocks[q])
  {
    hide Inv, Books, RoundEvents, Disconnections, ProcessPlayers, ActiveInSeatOrder, Booked, ActiveIds, Solvent, NoDup,
         LandOf, Cycle, Income, FoodCost, NobodyInDebt;
    SeatOrderIsSolvent(s);
    var ps := ActiveInSeatOrder(s.roster);
    RoundBalances(s, ps, q);
    RoundEventsBooked(s, ps, ProcessPlayers(s, ps), q);
    assert q in ps <==> q in ActiveIds(s.roster);
  }

  lemma RoundEventsBooked(s: State, ps: seq<PlayerId>, after: State, q: PlayerId)
    ensures Books(RoundEvents(s, ps) + Disconnections(after, ps) + [RoundEnded(s.rounds.round)], q) == Books(RoundEvents(s, ps), q)
  {
    hide Books, RoundEvents, Disconnections, Booked;
    var ended := RoundEnded(s.rounds.round);
    DisconnectionsBookNothing(after, ps, q);
    BooksOne(ended, q);
    TurnBooksNothing(ended, q);
    BooksConcat(RoundEvents(s, ps), Disconnections(after, ps), q);
    BooksConcat(RoundEvents(s, ps) + Disconnections(after, ps), [ended], q);
  }

  lemma SeatOrderIsSolvent(s: State)
    requires Inv(s)
    ensures var ps := ActiveInSeatOrder(s.roster);
            && NobodyInDebt(s) && NoDup(ps) && (forall p :: p in ps <==> p in ActiveIds(s.roster))
            && forall p <- ps :: Solvent(s, p)
  {
    hide BoardOk, LandOk, PiecesOk, CapitalsOk, LoyaltyOk, TrackersOk, LimitsOk, ActiveInSeatOrder, Income, Roster, NoDup;
    RosterFromOk(s.roster, TurnHolder(s));
    SeatOrderIsDistinct(s.roster);
    SeatOrderListsActive(s.roster);
    ActiveAreInRoster(s.roster);
    SolventFromOk(s);
    var ps := ActiveInSeatOrder(s.roster);
    forall p ensures p in ps <==> p in ActiveIds(s.roster) {
      assert p in ps <==> p in (set x | x in ps);
    }
    forall p | p in ps ensures Solvent(s, p) {
      IncomeIsSolvent(s, p);
    }
  }

  lemma IncomeIsSolvent(s: State, p: PlayerId)
    requires Inv(s)
    ensures NonNegative(Income(LandOf(s), p))
  {
    hide RosterOk, LandOk, PiecesOk, CapitalsOk, StocksOk, LoyaltyOk, TrackersOk, LimitsOk, Income, NonNegative;
    IncomeIsNonNegative(LandOf(s), p);
  }

  // ---- What the events of a round end say ------------------------------------------------------------

  /** The tiles a player owns and does not supply. */
  ghost function CutOff(s: State, p: PlayerId): set<Coord> {
    set t | t in s.ownership && s.ownership[t] == p && !OnSupplyLine(s, p, t)
  }

  /** What all of a player's armies and cities eat. */
  function MealsOf(s: State, p: PlayerId): nat {
    FedWithout(s.pieces, p, {})
  }

  /** An event of a round end tells what it should: the income of a player still in, its whole upkeep and how much of it was
      eaten, food bought at three gold, and the tiles of a player that are cut off. */
  ghost predicate Tells(s: State, e: Event) {
    match e
    case IncomeCollected(p, income) => p in ActiveIds(s.roster) && income == Income(LandOf(s), p)
    case FoodConsumed(p, eaten, cost) => p in ActiveIds(s.roster) && cost == MealsOf(s, p) > 0 && 0 <= eaten <= cost
    case FoodPurchased(p, amount, gold) => p in ActiveIds(s.roster) && amount > 0 && gold == 3 * amount
    case TerritoryDisconnected(p, tiles) => p in ActiveIds(s.roster) && tiles == CutOff(s, p) != {}
    case _ => false
  }

  ghost predicate AllTell(s: State, events: seq<Event>) {
    forall e <- events :: Tells(s, e)
  }

  lemma CycleTells(s: State, p: PlayerId)
    requires Solvent(s, p) && p in ActiveIds(s.roster) && ValidPieces(s.pieces) && s.mortgaged == []
    ensures AllTell(s, CycleEvents(s, p)) && IncomeCollected(p, Income(LandOf(s), p)) in CycleEvents(s, p)
    ensures MealsOf(s, p) > 0 ==> exists eaten :: FoodConsumed(p, eaten, MealsOf(s, p)) in CycleEvents(s, p)
  {
    hide Income, FoodCost, ActiveIds, Supplied, CycleEvents, Collect, MealsOf, CutOff;
    SolventCycle(s, p);
    UpkeepOfArmies(s, p);
    var income, cost := Income(LandOf(s), p), FoodCost(LandOf(s), p);
    var held := Collect(s.stocks[p], income);
    var first := IncomeCollected(p, income);
    assert first in [first];
    if cost > 0 {
      var food := FoodEvents(p, held, cost);
      assert food[0] == FoodConsumed(p, Min(held.food, cost), cost);
      assert food[0] in [first] + food;
      forall e | e in food ensures Tells(s, e) {
      }
    }
  }

  lemma UpkeepOfArmies(s: State, p: PlayerId)
    requires ValidPieces(s.pieces) && s.mortgaged == []
    ensures FoodCost(LandOf(s), p) == MealsOf(s, p)
  {
    hide FoodCost, FedWithout, ValidPieces, Elements;
    UpkeepByKinds(LandOf(s), p);
    NoElements(s.mortgaged);
  }

  lemma TellingReads(s: State, t: State, e: Event)
    requires LandOf(t) == LandOf(s) && t.roster == s.roster
    ensures Tells(t, e) <==> Tells(s, e)
    ensures forall p :: CutOff(t, p) == CutOff(s, p)
  {
    hide ActiveIds, Supplied, LineBetween, Meals;
    forall p, c ensures OnSupplyLine(t, p, c) <==> OnSupplyLine(s, p, c) {
    }
    forall p ensures CutOff(t, p) == CutOff(s, p) {
    }
  }

  lemma {:induction false} RoundTells(s: State, ps: seq<PlayerId>)
    requires NobodyInDebt(s) && NoDup(ps) && ValidPieces(s.pieces) && s.mortgaged == []
    requires forall p <- ps :: Solvent(s, p) && p in ActiveIds(s.roster)
    ensures AllTell(s, RoundEvents(s, ps))
    ensures forall p <- ps :: IncomeCollected(p, Income(LandOf(s), p)) in RoundEvents(s, ps)
    ensures forall p <- ps :: MealsOf(s, p) > 0 ==> exists eaten :: FoodConsumed(p, eaten, MealsOf(s, p)) in RoundEvents(s, ps)
  {
    hide Income, ActiveIds, Solvent, NobodyInDebt, NoDup, ValidPieces, CycleEvents, ProcessPlayers, Tells, MealsOf;
    if ps != [] {
      var init, p := ps[..|ps| - 1], ps[|ps| - 1];
      assert ps == init + [p];
      InitIsDistinct(ps);
      RoundTells(s, init);
      var mid := ProcessPlayers(s, init);
      MidRound(s, init, p);
      SameMidLand(s, init);
      CycleTells(mid, p);
      forall e | e in CycleEvents(mid, p) ensures Tells(s, e) {
        TellingReads(s, mid, e);
      }
      SameMeals(s, mid, p);
    }
  }

  lemma SameMeals(s: State, t: State, p: PlayerId)
    requires LandOf(t) == LandOf(s)
    ensures MealsOf(t, p) == MealsOf(s, p)
  {
  }

  lemma SameMidLand(s: State, init: seq<PlayerId>)
    requires NobodyInDebt(s) && NoDup(init)
    ensures var mid := ProcessPlayers(s, init);
            LandOf(mid) == LandOf(s) && mid.roster == s.roster && mid.pieces == s.pieces && mid.mortgaged == s.mortgaged
  {
    hide Income, FoodCost, Cycle;
    RoundEndIsSimultaneous(s, init);
  }

  lemma CutOffIsUnsupplied(s: State, p: PlayerId)
    ensures OwnedTiles(s.ownership, p) - Supplied(LandOf(s), p) == CutOff(s, p)
  {
    hide Supplied, OnSupplyLine;
    forall t ensures t in Supplied(LandOf(s), p) <==> OnSupplyLine(s, p, t) {
      SuppliedIsOnLine(s, p, t);
    }
  }

  lemma {:induction false} DisconnectionsTell(s: State, ps: seq<PlayerId>)
    requires forall p <- ps :: p in ActiveIds(s.roster)
    ensures AllTell(s, Disconnections(s, ps))
    ensures forall p <- ps :: CutOff(s, p) != {} ==> TerritoryDisconnected(p, CutOff(s, p)) in Disconnections(s, ps)
  {
    hide ActiveIds, CutOff, Supplied, OwnedTiles;
    if ps != [] {
      var init, p := ps[..|ps| - 1], ps[|ps| - 1];
      assert ps == init + [p];
      DisconnectionsTell(s, init);
      CutOffIsUnsupplied(s, p);
    }
  }

  /** Ending a turn reports the new holder and whether a new round begins.  At a round end it goes on to report, truly, the
      income of every player still in, the upkeep of everybody who has any, all tiles cut off, and last the round; no city
      is ever mortgaged. */
  lemma RoundEndReports(s: State, p: PlayerId)
    requires Inv(s)
    ensures var o := ExecuteFinishTurn(s, p);
            && o.Done? && o.events != []
            && var newRound := o.state.rounds.round != s.rounds.round;
               && o.events[0] == TurnEnded(p, TurnHolder(o.state), newRound, o.state.rounds.round)
               && (!newRound ==> o.events[1..] == [])
               && (newRound ==>
                     && |o.events| >= 2 && o.events[|o.events| - 1] == RoundEnded(o.state.rounds.round)
                     && var told := o.events[1..|o.events| - 1];
                        && AllTell(s, told)
                        && forall q <- ActiveIds(s.roster) ::
                             && IncomeCollected(q, Income(LandOf(s), q)) in told
                             && (MealsOf(s, q) > 0 ==> exists eaten :: FoodConsumed(q, eaten, MealsOf(s, q)) in told)
                             && (CutOff(s, q) != {} ==> TerritoryDisconnected(q, CutOff(s, q)) in told))
  {
    hide Inv, EndTurn, Recovered, ActiveIds, RoundEvents, Disconnections, ProcessPlayers, Income, MealsOf, CutOff, Tells,
         AllTell, ActiveInSeatOrder;
    FinishKeepsInv(s, p);
    var (rounds, newRound) := EndTurn(s.rounds, s.roster, COMMAND_PHASE).value;
    RoundRises(s);
    if newRound {
      var turned := s.(moved := [], attackedFrom := [], rounds := rounds);
      TurnedKeepsInv(s, rounds, newRound);
      RoundEndSettles(turned);
      TurnedTells(s, turned);
      var ps := ActiveInSeatOrder(turned.roster);
      var told := RoundEvents(turned, ps) + Disconnections(ProcessPlayers(turned, ps), ps);
      assert ExecuteFinishTurn(s, p).events[1..] == told + [RoundEnded(rounds.round)];
      assert ExecuteFinishTurn(s, p).events[1..|ExecuteFinishTurn(s, p).events| - 1] == told;
    }
  }

  lemma RoundRises(s: State)
    requires EndTurn(s.rounds, s.roster, COMMAND_PHASE).Some?
    ensures var r := EndTurn(s.rounds, s.roster, COMMAND_PHASE).value; r.0.round != s.rounds.round <==> r.1
  {
    hide ClockwiseNext, SeatOf;
  }

  lemma TurnedTells(s: State, turned: State)
    requires Inv(turned) && LandOf(turned) == LandOf(s) && turned.roster == s.roster
    ensures var ps := ActiveInSeatOrder(turned.roster);
            var told := RoundEvents(turned, ps) + Disconnections(ProcessPlayers(turned, ps), ps);
            && AllTell(s, told)
            && forall q <- ActiveIds(s.roster) ::
                 && IncomeCollected(q, Income(LandOf(s), q)) in told
                 && (MealsOf(s, q) > 0 ==> exists eaten :: FoodConsumed(q, eaten, MealsOf(s, q)) in told)
                 && (CutOff(s, q) != {} ==> TerritoryDisconnected(q, CutOff(s, q)) in told)
  {
    hide Inv, ActiveIds, RoundEvents, Disconnections, ProcessPlayers, Income, MealsOf, CutOff, Tells, ActiveInSeatOrder,
         Solvent, NobodyInDebt, NoDup, ValidPieces;
    SeatOrderIsSolvent(turned);
    PiecesValid(turned);
    NoMortgage(turned);
    var ps := ActiveInSeatOrder(turned.roster);
    RoundTells(turned, ps);
    var after := ProcessPlayers(turned, ps);
    SameMidLand(turned, ps);
    DisconnectionsTell(after, ps);
    forall e | e in RoundEvents(turned, ps) ensures Tells(s, e) {
      TellingReads(s, turned, e);
    }
    forall e | e in Disconnections(after, ps) ensures Tells(s, e) {
      TellingReads(s, after, e);
    }
    forall q | q in ActiveIds(s.roster) ensures MealsOf(turned, q) == MealsOf(s, q) && CutOff(after, q) == CutOff(s, q) {
      SameMeals(s, turned, q);
      TellingReads(s, after, RoundEnded(0));
    }
  }

  /** A mortgage is reported exactly when it is made, in debt or not. */
  lemma MortgageIsReported(s: State, p: PlayerId, id: PieceId)
    requires p in s.stocks
    ensures CityMortgaged(p, id) in CycleEvents(s, p) <==> ProcessPlayer(s, p).mortgaged == s.mortgaged + [id]
  {
    hide Income, FoodCost, OldestCity, Cycle, FoodEvents, LandOf;
    var income, cost := Income(LandOf(s), p), FoodCost(LandOf(s), p);
    FoodIsNoMortgage(p, Collect(s.stocks[p], income), cost);
    assert s.mortgaged != s.mortgaged + [id] by { assert |s.mortgaged + [id]| == |s.mortgaged| + 1; }
    forall other ensures s.mortgaged + [other] == s.mortgaged + [id] <==> other == id {
      assert (s.mortgaged + [other])[|s.mortgaged|] == other && (s.mortgaged + [id])[|s.mortgaged|] == id;
    }
  }

  lemma FoodIsNoMortgage(p: PlayerId, held: Stock, cost: nat)
    ensures forall e <- FoodEvents(p, held, cost) :: !e.CityMortgaged?
  {
  }
}
