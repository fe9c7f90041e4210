/**
 * The Frontier view: the server's projection of its state, and the browser's reducer that keeps a copy of it up to
 * date by folding events.
 */
module FrontierClient {
  import opened Collections
  import opened Hex
  import opened Board
  import opened Random
  import opened Rounds
  import opened FrontierMap
  import opened FrontierRules
  import opened FrontierInvariant
  import opened FrontierMarket
  import opened FrontierRun

  datatype TileView = TileView(coord: Coord, terrain: Terrain, claimedBy: Option<PlayerId>)

  /** A count on the screen, or None where the arithmetic has ended in something that is no number. */
  type Count = Option<real>

  datatype PlayerView = PlayerView(id: PlayerId, seat: int, vp: int, wood: Count, stone: Count, isActive: bool)

  datatype View = View(ended: bool, tiles: seq<TileView>, players: seq<PlayerView>, current: PlayerId,
                       winner: Option<PlayerId>, reason: Option<Reason>, homes: map<PlayerId, Coord>,
                       forts: seq<Fort>, offers: seq<Offer>, round: nat)

  // ---- The server's projection ---------------------------------------------------------------

  /** The claim map keeps the last flag entered for a tile. */
  function Claimant(flags: seq<Flag>, tile: Coord): Option<PlayerId> {
    if flags == [] then None
    else if flags[|flags| - 1].tile == tile then Some(flags[|flags| - 1].owner)
    else Claimant(flags[..|flags| - 1], tile)
  }

  function Tiles(board: GameMap<Terrain>, flags: seq<Flag>): (r: seq<TileView>)
    requires board.Valid()
  {
    seq(|board.order|, i requires 0 <= i < |board.order| =>
      TileView(board.order[i], TerrainAt(board, i), Claimant(flags, board.order[i])))
  }

  function TerrainAt(board: GameMap<Terrain>, i: nat): Terrain
    requires board.Valid() && i < |board.order|
  {
    assert board.order[i] in board.order;
    board.tiles[board.order[i]]
  }

  function Look(purses: map<PlayerId, Purse>, p: PlayerId): Purse {
    if p in purses then purses[p] else Purse(0, 0.0, 0.0)
  }

  function Entry(purses: map<PlayerId, Purse>, active: PlayerId, p: Player): PlayerView {
    var b := Look(purses, p.id);
    PlayerView(p.id, p.seat, b.vp, Some(b.wood), Some(b.stone), p.id == active)
  }

  function Entries(purses: map<PlayerId, Purse>, active: PlayerId, players: seq<Player>): (r: seq<PlayerView>)
    ensures |r| == |players| && forall i :: 0 <= i < |r| ==> r[i] == Entry(purses, active, players[i])
  {
    seq(|players|, i requires 0 <= i < |players| => Entry(purses, active, players[i]))
  }

  function BuildView(s: State, players: seq<Player>, victory: Option<Victory>): View
    requires s.board.Valid()
  {
    View(victory.Some?, Tiles(s.board, s.flags), Entries(s.purses, TurnHolder(s), players), TurnHolder(s),
         if victory.Some? then victory.value.winner else None,
         if victory.Some? then Some(victory.value.reason) else None,
         s.homes, s.forts, s.offers, s.rounds.round)
  }

  lemma {:induction false} ClaimantHasFlag(flags: seq<Flag>, tile: Coord)
    requires OneFlagPerTile(flags)
    ensures forall p :: Claimant(flags, tile) == Some(p) <==> Flag(p, tile) in flags
  {
    if flags != [] {
      var init, last := flags[..|flags| - 1], flags[|flags| - 1];
      assert flags == init + [last];
      ClaimantHasFlag(init, tile);
      if last.tile == tile {
        assert forall f <- init :: f.tile != tile;
      }
    }
  }

  /** What the view shows: every tile with its terrain and the player whose flag stands on it, every player with seat and
      inventory and whether it has the turn, and the homes, forts, offers, round and result as they are. */
  lemma ViewShowsTable(s: State, players: seq<Player>, victory: Option<Victory>)
    requires Inv(s) && s.board.Valid() && forall p <- players :: p.id in s.purses
    ensures var v := BuildView(s, players, victory);
            && v.current == s.rounds.turn.activePlayer
            && |v.tiles| == |s.board.order| && |v.players| == |players|
            && (forall i :: 0 <= i < |v.tiles| ==>
                  && v.tiles[i].coord == s.board.order[i] && v.tiles[i].coord in s.board.tiles
                  && v.tiles[i].terrain == s.board.tiles[v.tiles[i].coord]
                  && forall p :: v.tiles[i].claimedBy == Some(p) <==> Flag(p, v.tiles[i].coord) in s.flags)
            && (forall i :: 0 <= i < |players| ==>
                  var pl, purse := v.players[i], s.purses[players[i].id];
                  && pl.id == players[i].id && pl.seat == players[i].seat && pl.vp == purse.vp && pl.wood == Some(purse.wood)
                  && pl.stone == Some(purse.stone) && (pl.isActive <==> pl.id == v.current))
            && v.homes == s.homes && v.forts == s.forts && v.offers == s.offers && v.round == s.rounds.round
            && (v.ended <==> victory.Some?)
            && (victory.Some? ==> v.winner == victory.value.winner && v.reason == Some(victory.value.reason))
            && (victory.None? ==> v.winner == None && v.reason == None)
  {
    hide SeatsOk, PursesOk, FortsOk, OffersOk, Claimant;
    var v := BuildView(s, players, victory);
    forall i | 0 <= i < |v.tiles|
      ensures v.tiles[i].coord == s.board.order[i] && v.tiles[i].coord in s.board.tiles
      ensures v.tiles[i].terrain == s.board.tiles[v.tiles[i].coord]
      ensures forall p :: v.tiles[i].claimedBy == Some(p) <==> Flag(p, v.tiles[i].coord) in s.flags
    {
      assert s.board.order[i] in s.board.order;
      ClaimantHasFlag(s.flags, s.board.order[i]);
    }
  }

  // ---- The browser's reducer -----------------------------------------------------------------------

  /** What arrives at the browser: the snapshot, the game's own events, and the end of the game. */
  datatype Message = Started(view: View) | Played(event: Event) | Ended(victory: Victory)

  /** Arithmetic with a missing field, or with what is already no number, gives no number. */
  function Added(c: Count, q: Quantity): Count {
    if c.Some? && q.Some? then Some(c.value + q.value) else None
  }

  function Less(c: Count, q: Quantity): Count {
    if c.Some? && q.Some? then Some(c.value - q.value) else None
  }

  /** The larger of the count and zero; what is no number stays none. */
  function Max0(c: Count): Count {
    if c.Some? && c.value < 0.0 then Some(0.0) else c
  }

  function Changed(players: seq<PlayerView>, id: PlayerId, u: PlayerView -> PlayerView): (r: seq<PlayerView>)
    ensures |r| == |players| && forall i :: 0 <= i < |r| ==> r[i] == if players[i].id == id then u(players[i]) else players[i]
  {
    seq(|players|, i requires 0 <= i < |players| => if players[i].id == id then u(players[i]) else players[i])
  }

  function WithClaim(tiles: seq<TileView>, tile: Coord, p: PlayerId): (r: seq<TileView>)
    ensures |r| == |tiles|
  {
    seq(|tiles|, i requires 0 <= i < |tiles| =>
      if tiles[i].coord == tile then tiles[i].(claimedBy := Some(p)) else tiles[i])
  }

  function Plus(vp: int, wood: Quantity, stone: Quantity): PlayerView -> PlayerView {
    (pl: PlayerView) => pl.(vp := pl.vp + vp, wood := Added(pl.wood, wood), stone := Added(pl.stone, stone))
  }

  function OnlyVp(vp: int): PlayerView -> PlayerView {
    (pl: PlayerView) => pl.(vp := pl.vp + vp)
  }

  /** Spending stops at zero. */
  function TradeIn(paid: Resource): PlayerView -> PlayerView {
    (pl: PlayerView) =>
      if paid == Wood then pl.(vp := pl.vp + 1, wood := Max0(Less(pl.wood, Some(2.0))))
      else pl.(stone := Max0(Less(pl.stone, Some(2.0))))
  }

  function SpendBoth(wood: Quantity, stone: Quantity): PlayerView -> PlayerView {
    (pl: PlayerView) => pl.(wood := Max0(Less(pl.wood, wood)), stone := Max0(Less(pl.stone, stone)))
  }

  /** The accepter pays and receives; failing that, the offerer receives. */
  function SettledEntry(pl: PlayerView, accepter: PlayerId, o: Offer): PlayerView {
    if pl.id == accepter then
      pl.(wood := Added(Less(pl.wood, o.wantWood), o.giveWood), stone := Added(Less(pl.stone, o.wantStone), o.giveStone))
    else if pl.id == o.from then pl.(wood := Added(pl.wood, o.wantWood), stone := Added(pl.stone, o.wantStone))
    else pl
  }

  function Settled(players: seq<PlayerView>, accepter: PlayerId, o: Offer): (r: seq<PlayerView>)
    ensures |r| == |players| && forall i :: 0 <= i < |r| ==> r[i] == SettledEntry(players[i], accepter, o)
  {
    seq(|players|, i requires 0 <= i < |players| => SettledEntry(players[i], accepter, o))
  }

  function TurnPassed(players: seq<PlayerView>, next: PlayerId): (r: seq<PlayerView>)
    ensures |r| == |players| && forall i :: 0 <= i < |r| ==> r[i] == players[i].(isActive := players[i].id == next)
  {
    seq(|players|, i requires 0 <= i < |players| => players[i].(isActive := players[i].id == next))
  }

  function ApplyPlayed(v: View, e: Event): View {
    match e
    case TileClaimed(p, tile, _, vp, _, _, _, resource) =>
      v.(tiles := WithClaim(v.tiles, tile, p),
         players := Changed(v.players, p, Plus(vp, Some(Drop(resource, Wood)), Some(Drop(resource, Stone)))))
    case TileIncome(p, wood, stone) => v.(players := Changed(v.players, p, Plus(0, Some(wood as real), Some(stone as real))))
    case Traded(p, paid) => v.(players := Changed(v.players, p, TradeIn(paid)))
    case Fortified(p, tile) =>
      v.(forts := PutFort(v.forts, tile, p), players := Changed(v.players, p, SpendBoth(Some(2.0), Some(1.0))))
    case FortIncome(p, _) => v.(players := Changed(v.players, p, OnlyVp(1)))
    case OfferPosted(p, o) =>
      v.(offers := v.offers + [o], players := Changed(v.players, p, SpendBoth(o.giveWood, o.giveStone)))
    case OfferAccepted(p, o) =>
      v.(offers := WithoutOffer(v.offers, o.id), players := Settled(v.players, p, o))
    case OfferCancelled(p, o) =>
      v.(offers := WithoutOffer(v.offers, o.id), players := Changed(v.players, p, Plus(0, o.giveWood, o.giveStone)))
    case TurnEnded(_, next) => v.(current := next, players := TurnPassed(v.players, next))
    case RoundEnded(_) => v
  }

  function ApplyEvent(view: Option<View>, m: Message): Option<View> {
    match m
    case Started(snapshot) => Some(snapshot)
    case Played(e) => if view.None? then None else Some(ApplyPlayed(view.value, e))
    case Ended(victory) =>
      if view.None? then None
      else Some(view.value.(ended := true, winner := victory.winner, reason := Some(victory.reason)))
  }

  function Fold(v: View, events: seq<Event>): View {
    if events == [] then v else ApplyPlayed(Fold(v, events[..|events| - 1]), events[|events| - 1])
  }

  function FoldMessages(view: Option<View>, ms: seq<Message>): Option<View> {
    if ms == [] then view else ApplyEvent(FoldMessages(view, ms[..|ms| - 1]), ms[|ms| - 1])
  }

  // ---- Fields that are there -----------------------------------------------------------------------------

  predicate GivesNamed(o: Offer) { o.giveWood.Some? && o.giveStone.Some? }

  predicate WantsNamed(o: Offer) { o.wantWood.Some? && o.wantStone.Some? }

  /** The event carries every number the reducer computes with. */
  predicate Legible(e: Event) {
    match e
    case OfferPosted(_, o) => GivesNamed(o)
    case OfferAccepted(_, o) => GivesNamed(o) && WantsNamed(o)
    case OfferCancelled(_, o) => GivesNamed(o)
    case _ => true
  }

  predicate AllLegible(events: seq<Event>) {
    forall e <- events :: Legible(e)
  }

  // ---- Agreement, part by part ---------------------------------------------------------------------------

  /** Equal in every field but the round, which the browser never updates. */
  ghost predicate Agrees(v: View, s: State, players: seq<Player>, victory: Option<Victory>) {
    s.board.Valid() && v == BuildView(s, players, victory).(round := v.round)
  }

  lemma {:induction false} FoldConcat(v: View, a: seq<Event>, b: seq<Event>)
    ensures Fold(v, a + b) == Fold(Fold(v, a), b)
  {
    if b == [] {
      assert a + b == a;
    } else {
      assert (a + b)[..|a + b| - 1] == a + b[..|b| - 1];
      FoldConcat(v, a, b[..|b| - 1]);
    }
  }

  lemma FoldOne(v: View, e: Event)
    ensures Fold(v, [e]) == ApplyPlayed(v, e)
  {
    assert [e][..0] == [];
  }

  /** A change to one player's purse shows up in that player's entry and nowhere else. */
  lemma ChangeShows(before: map<PlayerId, Purse>, after: map<PlayerId, Purse>, active: PlayerId,
                    players: seq<Player>, p: PlayerId, u: PlayerView -> PlayerView)
    requires forall q :: q != p ==> Look(before, q) == Look(after, q)
    requires forall x: Player :: x.id == p ==> u(Entry(before, active, x)) == Entry(after, active, x)
    ensures Changed(Entries(before, active, players), p, u) == Entries(after, active, players)
  {
  }

  lemma GainShows(purses: map<PlayerId, Purse>, active: PlayerId, players: seq<Player>, p: PlayerId,
                  vp: int, wood: real, stone: real)
    requires p in purses
    ensures Changed(Entries(purses, active, players), p, Plus(vp, Some(wood), Some(stone))) ==
            Entries(Gain(purses, p, vp, wood, stone), active, players)
  {
    ChangeShows(purses, Gain(purses, p, vp, wood, stone), active, players, p, Plus(vp, Some(wood), Some(stone)));
  }

  lemma PointsShow(purses: map<PlayerId, Purse>, active: PlayerId, players: seq<Player>, p: PlayerId, vp: int)
    requires p in purses
    ensures Changed(Entries(purses, active, players), p, OnlyVp(vp)) ==
            Entries(Gain(purses, p, vp, 0.0, 0.0), active, players)
  {
    ChangeShows(purses, Gain(purses, p, vp, 0.0, 0.0), active, players, p, OnlyVp(vp));
  }

  /** With enough in the purse, stopping at zero changes nothing. */
  lemma SpendShows(purses: map<PlayerId, Purse>, active: PlayerId, players: seq<Player>, p: PlayerId,
                   wood: real, stone: real)
    requires p in purses && 0.0 <= wood <= purses[p].wood && 0.0 <= stone <= purses[p].stone
    ensures Changed(Entries(purses, active, players), p, SpendBoth(Some(wood), Some(stone))) ==
            Entries(Gain(purses, p, 0, -wood, -stone), active, players)
  {
    ChangeShows(purses, Gain(purses, p, 0, -wood, -stone), active, players, p, SpendBoth(Some(wood), Some(stone)));
  }

  lemma EntrySettles(purses: map<PlayerId, Purse>, active: PlayerId, x: Player, p: PlayerId, o: Offer)
    requires p in purses && o.from in purses && o.from != p && FairOffer(o) && GivesNamed(o) && WantsNamed(o)
    ensures SettledEntry(Entry(purses, active, x), p, o) == Entry(AfterDeal(purses, p, o), active, x)
  {
  }

  lemma SettlementShows(purses: map<PlayerId, Purse>, active: PlayerId, players: seq<Player>, p: PlayerId, o: Offer)
    requires p in purses && o.from in purses && o.from != p && FairOffer(o) && GivesNamed(o) && WantsNamed(o)
    ensures Settled(Entries(purses, active, players), p, o) == Entries(AfterDeal(purses, p, o), active, players)
  {
    hide AfterDeal, SettledEntry, Entry, FairOffer;
    forall i | 0 <= i < |players|
      ensures SettledEntry(Entry(purses, active, players[i]), p, o) == Entry(AfterDeal(purses, p, o), active, players[i])
    {
      EntrySettles(purses, active, players[i], p, o);
    }
  }

  lemma ClaimShows(board: GameMap<Terrain>, flags: seq<Flag>, f: Flag)
    requires board.Valid()
    ensures WithClaim(Tiles(board, flags), f.tile, f.owner) == Tiles(board, flags + [f])
  {
    forall c ensures Claimant(flags + [f], c) == if c == f.tile then Some(f.owner) else Claimant(flags, c) {
      assert (flags + [f])[..|flags|] == flags;
    }
  }

  lemma TurnShows(purses: map<PlayerId, Purse>, active: PlayerId, next: PlayerId, players: seq<Player>)
    ensures TurnPassed(Entries(purses, active, players), next) == Entries(purses, next, players)
  {
  }

  lemma PayShows(v: View, purses: map<PlayerId, Purse>, active: PlayerId, players: seq<Player>, e: Event)
    requires e.FortIncome? || e.TileIncome?
    requires v.players == Entries(purses, active, players) && e.player in purses
    ensures ApplyPlayed(v, e) ==
            v.(players := Entries(if e.FortIncome? then Gain(purses, e.player, 1, 0.0, 0.0)
                                  else Gain(purses, e.player, 0, e.wood as real, e.stone as real), active, players))
  {
    hide Entries, Changed, Gain;
    if e.FortIncome? {
      PointsShow(purses, active, players, e.player, 1);
    } else {
      GainShows(purses, active, players, e.player, 0, e.wood as real, e.stone as real);
    }
  }

  lemma {:induction false} FortIncomeShows(v: View, purses: map<PlayerId, Purse>, active: PlayerId, players: seq<Player>,
                                           forts: seq<Fort>)
    requires v.players == Entries(purses, active, players)
    ensures Fold(v, FortEvents(purses, forts)) == v.(players := Entries(AfterForts(purses, forts), active, players))
  {
    hide Entries, ApplyPlayed, Gain, Fold;
    if forts != [] {
      var init, f := forts[..|forts| - 1], forts[|forts| - 1];
      FortIncomeShows(v, purses, active, players, init);
      if f.owner in purses {
        var e := FortIncome(f.owner, f.tile);
        FoldConcat(v, FortEvents(purses, init), [e]);
        FoldOne(Fold(v, FortEvents(purses, init)), e);
        PayShows(Fold(v, FortEvents(purses, init)), AfterForts(purses, init), active, players, e);
      } else {
        assert FortEvents(purses, forts) == FortEvents(purses, init);
      }
    } else {
      NothingYet(v);
    }
  }

  lemma {:induction false} TileIncomeShows(v: View, purses: map<PlayerId, Purse>, active: PlayerId, players: seq<Player>,
                                           harvests: seq<Harvest>)
    requires v.players == Entries(purses, active, players)
    ensures Fold(v, HarvestEvents(purses, harvests)) ==
            v.(players := Entries(AfterHarvests(purses, harvests), active, players))
  {
    hide Entries, ApplyPlayed, Gain, Fold;
    if harvests != [] {
      var init, y := harvests[..|harvests| - 1], harvests[|harvests| - 1];
      TileIncomeShows(v, purses, active, players, init);
      if y.owner in purses {
        var e := TileIncome(y.owner, y.wood, y.stone);
        FoldConcat(v, HarvestEvents(purses, init), [e]);
        FoldOne(Fold(v, HarvestEvents(purses, init)), e);
        PayShows(Fold(v, HarvestEvents(purses, init)), AfterHarvests(purses, init), active, players, e);
      } else {
        assert HarvestEvents(purses, harvests) == HarvestEvents(purses, init);
      }
    } else {
      NothingYet(v);
    }
  }

  // ---- Agreement, action by action -------------------------------------------------------------------------

  lemma FinishShows(s: State, p: PlayerId, players: seq<Player>, v: View)
    requires Inv(s) && Agrees(v, s, players, None) && ExecuteFinishTurn(s, p).Done?
    ensures Agrees(Fold(v, ExecuteFinishTurn(s, p).events), ExecuteFinishTurn(s, p).state, players, None)
  {
    hide Inv, EndTurn, Tally, AfterForts, AfterHarvests, FortEvents, HarvestEvents, Entries, Tiles, TurnPassed, Fold;
    var (rounds, newRound) := EndTurn(s.rounds, s.roster, TURN_PHASE).value;
    var next := rounds.turn.activePlayer;
    var ended := TurnEnded(p, next);
    var v1 := ApplyPlayed(v, ended);
    TurnShows(s.purses, TurnHolder(s), next, players);
    FoldOne(v, ended);
    if newRound {
      var re, fe := RoundEnded(s.rounds.round), FortEvents(s.purses, s.forts);
      var harvests := Tally(s.board, s.flags);
      var he := HarvestEvents(s.purses, harvests);
      FoldConcat(v, [ended, re] + fe, he);
      FoldConcat(v, [ended, re], fe);
      FoldConcat(v, [ended], [re]);
      assert [ended, re] == [ended] + [re];
      FoldOne(v1, re);
      FortIncomeShows(v1, s.purses, next, players, s.forts);
      var mid := AfterForts(s.purses, s.forts);
      EventsReadKeys(mid, s.purses, harvests);
      TileIncomeShows(v1.(players := Entries(mid, next, players)), mid, next, players, harvests);
    }
  }

  lemma ClaimActionShows(s: State, p: PlayerId, tile: Coord, players: seq<Player>, v: View)
    requires Inv(s) && Agrees(v, s, players, None) && ValidateClaim(s, p, tile).None? && ExecuteClaim(s, p, tile).Done?
    ensures Agrees(Fold(v, ExecuteClaim(s, p, tile).events), ExecuteClaim(s, p, tile).state, players, None)
  {
    hide SeatsOk, PursesOk, FortsOk, OffersOk, FlagsOk, Draw, Step, Occupied, HasTerritory, Borders, PutFlag, Entries, Tiles,
         Changed, WithClaim, Gain, Fold;
    var out := ExecuteClaim(s, p, tile);
    var e := out.events[0];
    FoldOne(v, e);
    ClaimedFlag(s, p, tile);
    ClaimShows(s.board, s.flags, Flag(p, tile));
    var resource := TerrainResource(s.board.tiles[tile]);
    GainShows(s.purses, TurnHolder(s), players, p, e.vp, Drop(resource, Wood), Drop(resource, Stone));
  }

  lemma TradeActionShows(s: State, p: PlayerId, resource: Option<Resource>, players: seq<Player>, v: View)
    requires Agrees(v, s, players, None) && ExecuteTrade(s, p, resource).Done?
    ensures Agrees(Fold(v, ExecuteTrade(s, p, resource).events), ExecuteTrade(s, p, resource).state, players, None)
  {
    hide Entries, Tiles, Changed, Gain, Fold, TradeIn;
    FoldOne(v, ExecuteTrade(s, p, resource).events[0]);
    TradePays(s.purses, TurnHolder(s), players, p, resource.value);
  }

  lemma TradePays(purses: map<PlayerId, Purse>, active: PlayerId, players: seq<Player>, p: PlayerId, paid: Resource)
    requires p in purses && 2.0 <= if paid == Wood then purses[p].wood else purses[p].stone
    ensures Changed(Entries(purses, active, players), p, TradeIn(paid)) ==
            Entries(if paid == Wood then Gain(purses, p, 1, -2.0, 0.0) else Gain(purses, p, 0, 0.0, -2.0), active, players)
  {
    var after := if paid == Wood then Gain(purses, p, 1, -2.0, 0.0) else Gain(purses, p, 0, 0.0, -2.0);
    ChangeShows(purses, after, active, players, p, TradeIn(paid));
  }

  lemma FortifyActionShows(s: State, p: PlayerId, tile: Coord, players: seq<Player>, v: View)
    requires Agrees(v, s, players, None) && ExecuteFortify(s, p, tile).Done?
    ensures Agrees(Fold(v, ExecuteFortify(s, p, tile).events), ExecuteFortify(s, p, tile).state, players, None)
  {
    hide Entries, Tiles, Changed, Gain, Fold, SpendBoth, PutFort;
    FoldOne(v, Fortified(p, tile));
    SpendShows(s.purses, TurnHolder(s), players, p, 2.0, 1.0);
  }

  lemma PostActionShows(s: State, p: PlayerId, gw: Quantity, gs: Quantity, ww: Quantity, ws: Quantity,
                        players: seq<Player>, v: View)
    requires Agrees(v, s, players, None) && ValidatePost(s, p, gw, gs, ww, ws).None?
    requires ExecutePost(s, p, gw, gs, ww, ws).Done? && gw.Some? && gs.Some?
    ensures Agrees(Fold(v, ExecutePost(s, p, gw, gs, ww, ws).events), ExecutePost(s, p, gw, gs, ww, ws).state, players, None)
  {
    hide Entries, Tiles, Changed, Gain, Fold, SpendBoth, OffersBy;
    FoldOne(v, OfferPosted(p, Offer(s.lastOfferId + 1, p, gw, gs, ww, ws)));
    SpendShows(s.purses, TurnHolder(s), players, p, gw.value, gs.value);
  }

  lemma AcceptActionShows(s: State, p: PlayerId, id: nat, players: seq<Player>, v: View)
    requires Inv(s) && Agrees(v, s, players, None) && ValidateAccept(s, p, id).None? && ExecuteAccept(s, p, id).Done?
    requires AllLegible(ExecuteAccept(s, p, id).events)
    ensures Agrees(Fold(v, ExecuteAccept(s, p, id).events), ExecuteAccept(s, p, id).state, players, None)
  {
    hide Inv, Entries, Tiles, Settled, Gain, Fold, FindOffer, WithoutOffer;
    var o := FindOffer(s.offers, id).value;
    OfferIsFair(s, id);
    FoldOne(v, OfferAccepted(p, o));
    assert Legible(ExecuteAccept(s, p, id).events[0]);
    SettlementShows(s.purses, TurnHolder(s), players, p, o);
  }

  lemma CancelActionShows(s: State, p: PlayerId, id: nat, players: seq<Player>, v: View)
    requires Inv(s) && Agrees(v, s, players, None) && ExecuteCancel(s, p, id).Done?
    requires AllLegible(ExecuteCancel(s, p, id).events)
    ensures Agrees(Fold(v, ExecuteCancel(s, p, id).events), ExecuteCancel(s, p, id).state, players, None)
  {
    hide Inv, Entries, Tiles, Changed, Gain, Fold, FindOffer, WithoutOffer;
    var o := FindOffer(s.offers, id).value;
    OfferIsFair(s, id);
    FoldOne(v, OfferCancelled(p, o));
    assert Legible(ExecuteCancel(s, p, id).events[0]);
    GainShows(s.purses, TurnHolder(s), players, p, 0, o.giveWood.value, o.giveStone.value);
  }

  /** Folding the events of an accepted action over an agreeing view gives an agreeing view, if the numbers the browser
      needs are all there. */
  lemma ActionShows(s: State, c: Command, players: seq<Player>, v: View)
    requires Inv(s) && Validate(s, c).None? && Agrees(v, s, players, None)
    requires Execute(s, c).Done? ==> AllLegible(Execute(s, c).events)
    ensures Execute(s, c).Done? && Agrees(Fold(v, Execute(s, c).events), Execute(s, c).state, players, None)
  {
    hide Inv, Guard, ValidateClaim, ValidateTrade, ValidateFortify, ValidatePost, ValidateAccept, ValidateCancel,
         ExecuteClaim, ExecuteFinishTurn, ExecuteTrade, ExecuteFortify, ExecutePost, ExecuteAccept, ExecuteCancel, Agrees, Fold;
    AcceptedActionKeepsInv(s, c);
    var p := c.player.value;
    match c.action
    case ClaimTile(tile) => ClaimActionShows(s, p, tile, players, v);
    case FinishTurn => FinishShows(s, p, players, v);
    case Trade(resource) => TradeActionShows(s, p, resource, players, v);
    case Fortify(tile) => FortifyActionShows(s, p, tile, players, v);
    case PostOffer(gw, gs, ww, ws) =>
      PostedIsNamed(s, p, gw, gs, ww, ws);
      PostActionShows(s, p, gw, gs, ww, ws, players, v);
    case AcceptOffer(id) => AcceptActionShows(s, p, id, players, v);
    case CancelOffer(id) => CancelActionShows(s, p, id, players, v);
  }

  lemma PostedIsNamed(s: State, p: PlayerId, gw: Quantity, gs: Quantity, ww: Quantity, ws: Quantity)
    requires ExecutePost(s, p, gw, gs, ww, ws).Done? && AllLegible(ExecutePost(s, p, gw, gs, ww, ws).events)
    ensures gw.Some? && gs.Some?
  {
    assert Legible(ExecutePost(s, p, gw, gs, ww, ws).events[0]);
  }

  // ---- Agreement over a run ---------------------------------------------------------------------------------

  lemma {:induction false} RunShows(s: State, cs: seq<Command>, players: seq<Player>, v: View)
    requires Inv(s) && Agrees(v, s, players, None)
    requires Play(s, cs).Done? ==> AllLegible(Play(s, cs).events)
    ensures Play(s, cs).Done? && Agrees(Fold(v, Play(s, cs).events), Play(s, cs).state, players, None)
  {
    hide Inv, Validate, Execute, Agrees, Fold;
    RunsKeepInv(s, cs, VpWare);
    if cs != [] {
      var init, c := cs[..|cs| - 1], cs[|cs| - 1];
      RunShows(s, init, players, v);
      RunsKeepInv(s, init, VpWare);
      var before := Play(s, init).state;
      if Validate(before, c).None? {
        ActionShows(before, c, players, Fold(v, Play(s, init).events));
        AcceptedActionKeepsInv(before, c);
        FoldConcat(v, Play(s, init).events, Execute(before, c).events);
      }
    } else {
      NothingYet(v);
    }
  }

  lemma NothingYet(v: View)
    ensures Fold(v, []) == v
  {
  }

  function Stream(snapshot: View, events: seq<Event>, victory: Option<Victory>): seq<Message> {
    [Started(snapshot)] + Messages(events) + if victory.Some? then [Ended(victory.value)] else []
  }

  function Messages(events: seq<Event>): (r: seq<Message>)
    ensures |r| == |events| && forall i :: 0 <= i < |r| ==> r[i] == Played(events[i])
  {
    seq(|events|, i requires 0 <= i < |events| => Played(events[i]))
  }

  lemma {:induction false} StreamFolds(view: Option<View>, snapshot: View, events: seq<Event>)
    ensures FoldMessages(view, [Started(snapshot)] + Messages(events)) == Some(Fold(snapshot, events))
  {
    var ms := [Started(snapshot)] + Messages(events);
    if events == [] {
      assert ms[..|ms| - 1] == [];
    } else {
      var init := events[..|events| - 1];
      StreamFolds(view, snapshot, init);
      assert ms[..|ms| - 1] == [Started(snapshot)] + Messages(init);
    }
  }

  // ---- Missing numbers ---------------------------------------------------------------------------------------

  predicate GarbledEntry(pl: PlayerView) {
    pl.wood.None? || pl.stone.None?
  }

  /** Some player's goods are no number. */
  predicate Garbled(v: View) {
    exists pl <- v.players :: GarbledEntry(pl)
  }

  predicate Shows(v: View, p: PlayerId) {
    exists pl <- v.players :: pl.id == p
  }

  predicate IsSubject(e: Event, p: PlayerId) {
    !e.RoundEnded? && e.player == p
  }

  predicate ShowsSubject(v: View, e: Event) {
    !e.RoundEnded? && Shows(v, e.player)
  }

  /** What an event does to one entry. */
  function Stepped(pl: PlayerView, e: Event): PlayerView {
    match e
    case TileClaimed(p, _, _, vp, _, _, _, resource) =>
      if pl.id == p then Plus(vp, Some(Drop(resource, Wood)), Some(Drop(resource, Stone)))(pl) else pl
    case TileIncome(p, wood, stone) => if pl.id == p then Plus(0, Some(wood as real), Some(stone as real))(pl) else pl
    case Traded(p, paid) => if pl.id == p then TradeIn(paid)(pl) else pl
    case Fortified(p, _) => if pl.id == p then SpendBoth(Some(2.0), Some(1.0))(pl) else pl
    case FortIncome(p, _) => if pl.id == p then OnlyVp(1)(pl) else pl
    case OfferPosted(p, o) => if pl.id == p then SpendBoth(o.giveWood, o.giveStone)(pl) else pl
    case OfferAccepted(p, o) => SettledEntry(pl, p, o)
    case OfferCancelled(p, o) => if pl.id == p then Plus(0, o.giveWood, o.giveStone)(pl) else pl
    case TurnEnded(_, next) => pl.(isActive := pl.id == next)
    case RoundEnded(_) => pl
  }

  lemma EveryEntrySteps(v: View, e: Event)
    ensures |ApplyPlayed(v, e).players| == |v.players|
    ensures forall i :: 0 <= i < |v.players| ==> ApplyPlayed(v, e).players[i] == Stepped(v.players[i], e)
  {
    hide Plus, TradeIn, SpendBoth, OnlyVp, SettledEntry, WithClaim, PutFort, WithoutOffer;
  }

  /** What is no number stays none, and an event short of a number leaves its player without one. */
  lemma EntryGarbles(pl: PlayerView, e: Event)
    ensures Stepped(pl, e).id == pl.id
    ensures GarbledEntry(pl) ==> GarbledEntry(Stepped(pl, e))
    ensures !Legible(e) && IsSubject(e, pl.id) ==> GarbledEntry(Stepped(pl, e))
  {
  }

  lemma EventGarbles(v: View, e: Event)
    ensures forall p :: Shows(v, p) ==> Shows(ApplyPlayed(v, e), p)
    ensures Garbled(v) ==> Garbled(ApplyPlayed(v, e))
    ensures !Legible(e) && ShowsSubject(v, e) ==> Garbled(ApplyPlayed(v, e))
  {
    hide ApplyPlayed, Stepped, GarbledEntry, Legible;
    EveryEntrySteps(v, e);
    var after := ApplyPlayed(v, e).players;
    forall i | 0 <= i < |v.players|
      ensures after[i] in after && after[i].id == v.players[i].id
      ensures GarbledEntry(v.players[i]) ==> GarbledEntry(after[i])
      ensures !Legible(e) && IsSubject(e, v.players[i].id) ==> GarbledEntry(after[i])
    {
      EntryGarbles(v.players[i], e);
    }
  }

  lemma {:induction false} FoldGarbles(v: View, events: seq<Event>)
    requires forall e <- events :: Legible(e) || ShowsSubject(v, e)
    ensures forall p :: Shows(v, p) ==> Shows(Fold(v, events), p)
    ensures !AllLegible(events) ==> Garbled(Fold(v, events))
  {
    hide Legible, Shows, Garbled, ApplyPlayed;
    if events != [] {
      var init, last := events[..|events| - 1], events[|events| - 1];
      assert events == init + [last];
      assert forall e :: e in events <==> e in init || e == last;
      FoldGarbles(v, init);
      EventGarbles(Fold(v, init), last);
    }
  }

  lemma {:induction false} IncomeIsLegible(purses: map<PlayerId, Purse>, forts: seq<Fort>, harvests: seq<Harvest>)
    ensures AllLegible(FortEvents(purses, forts)) && AllLegible(HarvestEvents(purses, harvests))
    decreases |forts| + |harvests|
  {
    if forts != [] {
      IncomeIsLegible(purses, forts[..|forts| - 1], harvests);
    } else if harvests != [] {
      IncomeIsLegible(purses, forts, harvests[..|harvests| - 1]);
    }
  }

  /** Only the player acting can be the subject of an event short of a number. */
  lemma IllegibleIsActor(s: State, c: Command)
    requires Execute(s, c).Done? && c.player.Some?
    ensures forall e <- Execute(s, c).events :: Legible(e) || IsSubject(e, c.player.value)
  {
    hide EndTurn, Tally, AfterForts, AfterHarvests, FortEvents, HarvestEvents, Draw, Step, PutFlag, PutFort, FindOffer,
         WithoutOffer, Gain, AfterDeal;
    IncomeIsLegible(s.purses, s.forts, Tally(s.board, s.flags));
  }

  lemma {:induction false} IllegibleIsPlayer(s: State, cs: seq<Command>)
    requires Inv(s)
    ensures Play(s, cs).Done?
    ensures forall e <- Play(s, cs).events :: Legible(e) || (!e.RoundEnded? && e.player in RosterIds(s.roster))
  {
    hide Inv, Validate, Execute, Legible, RosterIds;
    RunsKeepInv(s, cs, VpWare);
    if cs != [] {
      var init, c := cs[..|cs| - 1], cs[|cs| - 1];
      IllegibleIsPlayer(s, init);
      RunsKeepInv(s, init, VpWare);
      RosterStays(s, init);
      var before := Play(s, init).state;
      if Validate(before, c).None? {
        AcceptedActionKeepsInv(before, c);
        ActorIsPlayer(before, c);
        IllegibleIsActor(before, c);
      }
    }
  }

  lemma ActorIsPlayer(s: State, c: Command)
    requires Inv(s) && Validate(s, c).None?
    ensures c.player.Some? && c.player.value in RosterIds(s.roster)
  {
    hide Inv, ValidateClaim, ValidateTrade, ValidateFortify, ValidatePost, ValidateAccept, ValidateCancel;
    GuardPassed(s, c.player);
  }

  lemma ProjectionIsNumeric(s: State, players: seq<Player>, victory: Option<Victory>)
    requires s.board.Valid()
    ensures !Garbled(BuildView(s, players, victory))
  {
    hide Tiles;
  }

  ghost predicate Covers(players: seq<Player>, roster: seq<Player>) {
    RosterIds(roster) <= RosterIds(players)
  }

  lemma EverybodyIsShown(s: State, players: seq<Player>)
    requires s.board.Valid() && Covers(players, s.roster)
    ensures forall p <- RosterIds(s.roster) :: Shows(BuildView(s, players, None), p)
  {
    hide Tiles;
    var v := BuildView(s, players, None);
    forall p | p in RosterIds(s.roster) ensures Shows(v, p) {
      assert p in RosterIds(players);
      var i :| 0 <= i < |players| && players[i].id == p;
      assert v.players[i] in v.players;
    }
  }

  /** What the fold over snapshot and events comes to: the projection if every number was there, and otherwise a view in
      which some player's goods are no number. */
  lemma FoldOutcome(s: State, cs: seq<Command>, players: seq<Player>)
    requires Inv(s) && s.board.Valid() && Covers(players, s.roster)
    ensures Play(s, cs).Done? && Play(s, cs).state.board.Valid()
    ensures var v := Fold(BuildView(s, players, None), Play(s, cs).events);
            if AllLegible(Play(s, cs).events)
            then v == BuildView(Play(s, cs).state, players, None).(round := s.rounds.round)
            else Garbled(v)
  {
    hide Inv, Play, Fold, Tiles, Entries, Legible, Shows, Garbled, RosterIds, Covers;
    var snapshot := BuildView(s, players, None);
    RunsKeepInv(s, cs, VpWare);
    BoardStays(Play(s, cs).state);
    if AllLegible(Play(s, cs).events) {
      RunShows(s, cs, players, snapshot);
      FoldKeepsRound(snapshot, Play(s, cs).events);
    } else {
      EverybodyIsShown(s, players);
      IllegibleIsPlayer(s, cs);
      FoldGarbles(snapshot, Play(s, cs).events);
    }
  }

  lemma BoardStays(s: State)
    requires Inv(s)
    ensures s.board.Valid()
  {
    hide SeatsOk, PursesOk, FortsOk, OffersOk, OneFlagPerTile;
  }

  /** Whatever the browser showed before: after the snapshot, the events of any run, and the end of the game if there
      was one, it shows what the server would project for the players in the order they were passed in, in every field
      except the round, which stays what the snapshot said - exactly when no event of the run was short of a number. */
  lemma BrowserAgreesWithServer(s: State, cs: seq<Command>, players: seq<Player>, victory: Option<Victory>,
                                shown: Option<View>)
    requires Inv(s) && s.board.Valid() && Covers(players, s.roster)
    ensures Play(s, cs).Done? && Play(s, cs).state.board.Valid()
    ensures FoldMessages(shown, Stream(BuildView(s, players, None), Play(s, cs).events, victory)) ==
            Some(BuildView(Play(s, cs).state, players, victory).(round := s.rounds.round))
            <==> AllLegible(Play(s, cs).events)
    ensures !AllLegible(Play(s, cs).events) ==>
              Scrambled(FoldMessages(shown, Stream(BuildView(s, players, None), Play(s, cs).events, victory)))
  {
    hide Inv, Play, Fold, FoldMessages, Tiles, Entries, AllLegible, Covers, GarbledEntry;
    var snapshot := BuildView(s, players, None);
    FoldOutcome(s, cs, players);
    ProjectionIsNumeric(Play(s, cs).state, players, victory);
    StreamFolds(shown, snapshot, Play(s, cs).events);
    var ms := [Started(snapshot)] + Messages(Play(s, cs).events);
    if victory.Some? {
      LastMessage(shown, ms, Ended(victory.value));
    } else {
      assert ms + [] == ms;
    }
  }

  predicate Scrambled(view: Option<View>) {
    view.Some? && Garbled(view.value)
  }

  lemma LastMessage(view: Option<View>, ms: seq<Message>, m: Message)
    ensures FoldMessages(view, ms + [m]) == ApplyEvent(FoldMessages(view, ms), m)
  {
    assert (ms + [m])[..|ms|] == ms;
  }

  lemma {:induction false} FoldKeepsRound(v: View, events: seq<Event>)
    ensures Fold(v, events).round == v.round
  {
    hide Changed, WithClaim, Settled, TurnPassed, WithoutOffer, PutFort;
    if events != [] {
      FoldKeepsRound(v, events[..|events| - 1]);
    }
  }

  // ---- The order of the players --------------------------------------------------------------------------------

  lemma {:induction false} SortedStays(players: seq<Player>)
    requires StrictlyBySeat(players)
    ensures SortBySeat(players) == players
  {
    if players != [] {
      SortedStays(players[1..]);
      assert players == [players[0]] + players[1..];
    }
  }

  lemma SameEntriesSameSeats(purses: map<PlayerId, Purse>, active: PlayerId, a: seq<Player>, b: seq<Player>)
    requires Entries(purses, active, a) == Entries(purses, active, b)
    ensures |a| == |b| && forall i :: 0 <= i < |a| ==> a[i].seat == b[i].seat
  {
    var va, vb := Entries(purses, active, a), Entries(purses, active, b);
    forall i | 0 <= i < |a| ensures a[i].seat == b[i].seat {
      assert va[i] == vb[i];
    }
  }

  /** Listing the players by seat or in the order passed in gives the same view exactly when they were passed in by seat. */
  lemma ListingsAgreeIffSeated(s: State, players: seq<Player>, victory: Option<Victory>)
    requires s.board.Valid() && Roster(players) && s.roster == WithStatus(SortBySeat(players), Active)
    ensures BuildView(s, s.roster, victory) == BuildView(s, players, victory) <==> StrictlyBySeat(players)
    ensures BuildView(s, s.roster, victory) ==
            BuildView(s, players, victory).(players := Entries(s.purses, TurnHolder(s), s.roster))
  {
    hide Tiles;
    SortIsStrict(players);
    hide SortBySeat;
    var active := TurnHolder(s);
    if StrictlyBySeat(players) {
      SortedStays(players);
      assert Entries(s.purses, active, s.roster) == Entries(s.purses, active, players);
    }
    if BuildView(s, s.roster, victory) == BuildView(s, players, victory) {
      SameEntriesSameSeats(s.purses, active, s.roster, players);
    }
  }

  lemma {:induction false} RosterStays(s: State, cs: seq<Command>)
    requires Play(s, cs).Done?
    ensures Play(s, cs).state.roster == s.roster && Play(s, cs).state.holders == s.holders
  {
    hide Validate;
    if cs != [] {
      var before, c := Play(s, cs[..|cs| - 1]), cs[|cs| - 1];
      RosterStays(s, cs[..|cs| - 1]);
      if Validate(before.state, c).None? {
        ActionKeepsSeats(before.state, c);
      }
    }
  }

  lemma ActionKeepsSeats(s: State, c: Command)
    requires Execute(s, c).Done?
    ensures Execute(s, c).state.roster == s.roster && Execute(s, c).state.holders == s.holders
  {
    hide EndTurn, Tally, AfterForts, AfterHarvests, FortEvents, HarvestEvents, Draw, Step, PutFlag, PutFort, FindOffer,
         WithoutOffer, Gain;
  }

  // ---- Every game from setup -------------------------------------------------------------------------------------

  /** The browser's view after snapshot, events and result is the projection of the final state for the players listed in
      the given order, in every field except the round. */
  ghost predicate AgreesInOrder(s: State, players: seq<Player>, lineup: seq<Player>, cs: seq<Command>,
                                victory: Option<Victory>)
  {
    && s.board.Valid() && Play(s, cs).Done? && Play(s, cs).state.board.Valid()
    && FoldMessages(None, Stream(BuildView(s, players, None), Play(s, cs).events, victory)) ==
       Some(BuildView(Play(s, cs).state, lineup, victory).(round := s.rounds.round))
  }

  /** A game that has just been set up. */
  ghost predicate Opening(s: State, players: seq<Player>) {
    && Inv(s) && s.board.Valid() && Roster(players) && s.roster == WithStatus(SortBySeat(players), Active)
    && RosterIds(s.roster) == RosterIds(players) && s.rounds.round == 1 && s.offers == []
  }

  /** For the players in the order they were passed in, the browser agrees exactly when no event was short of a number. */
  lemma BrowserAgreesIffLegible(s: State, players: seq<Player>, cs: seq<Command>, victory: Option<Victory>)
    requires Opening(s, players)
    ensures Play(s, cs).Done?
    ensures AgreesInOrder(s, players, players, cs, victory) <==> AllLegible(Play(s, cs).events)
  {
    hide Inv, Play, BuildView, FoldMessages, Stream, AllLegible, Roster, SortBySeat, RosterIds;
    BrowserAgreesWithServer(s, cs, players, victory, None);
  }

  /** For the players by seat, as every later snapshot lists them, it agrees exactly when moreover the players were passed
      in by seat. */
  lemma SnapshotsAgreeIffSeated(s: State, players: seq<Player>, cs: seq<Command>, victory: Option<Victory>)
    requires Opening(s, players)
    ensures Play(s, cs).Done? && Play(s, cs).state.roster == s.roster
    ensures AgreesInOrder(s, players, Play(s, cs).state.roster, cs, victory) <==>
            AllLegible(Play(s, cs).events) && StrictlyBySeat(players)
  {
    hide Inv, Play, BuildView, FoldMessages, Stream, AllLegible, Roster, SortBySeat, RosterIds, StrictlyBySeat, Garbled;
    BrowserAgreesWithServer(s, cs, players, victory, None);
    RosterStays(s, cs);
    var end := Play(s, cs).state;
    ProjectionIsNumeric(end, s.roster, victory);
    ListingsAgreeIffSeated(end, players, victory);
    DifferOnlyInRound(end, players, victory, s.rounds.round);
  }

  lemma DifferOnlyInRound(s: State, players: seq<Player>, victory: Option<Victory>, round: nat)
    requires s.board.Valid()
    ensures BuildView(s, s.roster, victory).(round := round) == BuildView(s, players, victory).(round := round) <==>
            BuildView(s, s.roster, victory) == BuildView(s, players, victory)
    ensures Garbled(BuildView(s, s.roster, victory).(round := round)) == Garbled(BuildView(s, s.roster, victory))
  {
    hide Tiles, Entries;
  }

  lemma SetupOpens(players: seq<Player>, seed: bv32)
    requires Roster(players) && 2 <= |players| <= 4 && forall p <- players :: p.id.text != ""
    ensures Opening(Setup(players, FrontierBoard(seed), seed), players)
  {
    hide Inv, FrontierBoard, HomesOn, Roster, StartingCoords, SetUpTo, RosterIds, SortBySeat, ActiveSortedBySeat, Placed;
    var board := FrontierBoard(seed);
    FrontierBoardIsOk(seed, |players|);
    SetupIsOk(players, board, seed);
    Seated(players);
    assert forall p <- players :: p.id in IdsOf(players);
    PlacedKeepsTable(Fresh(players, board, seed), players, |players|);
  }

  lemma {:induction false} PlacedKeepsTable(s: State, players: seq<Player>, n: nat)
    requires n <= |players| && n <= |StartingCoords(|players|)| && forall p <- players :: p.id in s.purses
    ensures var r := Placed(s, players, n);
            r.rounds == s.rounds && r.board == s.board && r.roster == s.roster && r.offers == s.offers
  {
    hide StartingCoords;
    if n > 0 {
      PlacedKeepsTable(s, players, n - 1);
    }
  }

  /** The browser agrees for the players in the order passed in exactly when no event was short of a number, and with what a
      fresh snapshot shows exactly when moreover the players were passed in by seat. */
  ghost predicate AgreesExactlyWhen(s: State, players: seq<Player>, cs: seq<Command>, victory: Option<Victory>) {
    && Play(s, cs).Done?
    && (AgreesInOrder(s, players, players, cs, victory) <==> AllLegible(Play(s, cs).events))
    && (ShowsAfter(s, players, cs, victory) <==> AllLegible(Play(s, cs).events) && StrictlyBySeat(players))
  }

  /** From setup on every seed, over every run: both agreements, each with its exact condition. */
  lemma EveryBrowserAgrees(players: seq<Player>, seed: bv32, cs: seq<Command>, victory: Option<Victory>)
    requires Roster(players) && 2 <= |players| <= 4 && forall p <- players :: p.id.text != ""
    ensures AgreesExactlyWhen(Setup(players, FrontierBoard(seed), seed), players, cs, victory)
  {
    hide Opening, Setup, FrontierBoard, AgreesInOrder, AllLegible, StrictlyBySeat, Roster, Play;
    SetupOpens(players, seed);
    var s := Setup(players, FrontierBoard(seed), seed);
    BrowserAgreesIffLegible(s, players, cs, victory);
    SnapshotsAgreeIffSeated(s, players, cs, victory);
  }

  // ---- When every number is there -----------------------------------------------------------------------------------

  predicate Named(o: Offer) { GivesNamed(o) && WantsNamed(o) }

  predicate NamedPost(c: Command) {
    match c.action
    case PostOffer(gw, gs, ww, ws) => gw.Some? && gs.Some? && ww.Some? && ws.Some?
    case _ => true
  }

  lemma NamedActionIsLegible(s: State, c: Command)
    requires Execute(s, c).Done? && NamedPost(c) && forall o <- s.offers :: Named(o)
    ensures AllLegible(Execute(s, c).events) && forall o <- Execute(s, c).state.offers :: Named(o)
  {
    hide EndTurn, Tally, AfterForts, AfterHarvests, FortEvents, HarvestEvents, Draw, Step, PutFlag, PutFort, FindOffer,
         WithoutOffer, Gain, AfterDeal;
    IncomeIsLegible(s.purses, s.forts, Tally(s.board, s.flags));
  }

  /** If every post of a run names all four quantities, every event is legible. */
  lemma {:induction false} NamedPostsAreLegible(s: State, cs: seq<Command>)
    requires (forall o <- s.offers :: Named(o)) && forall c <- cs :: NamedPost(c)
    ensures Play(s, cs).Done? ==>
              AllLegible(Play(s, cs).events) && forall o <- Play(s, cs).state.offers :: Named(o)
  {
    hide Validate, Execute, Named, NamedPost, Legible;
    if cs != [] {
      var init, c := cs[..|cs| - 1], cs[|cs| - 1];
      assert c in cs && forall x <- init :: x in cs;
      NamedPostsAreLegible(s, init);
      if Play(s, init).Done? && Validate(Play(s, init).state, c).None? && Execute(Play(s, init).state, c).Done? {
        NamedActionIsLegible(Play(s, init).state, c);
      }
    }
  }

  lemma IndexedIsSeated(players: seq<Player>)
    requires forall i :: 0 <= i < |players| ==> players[i].seat == i
    ensures StrictlyBySeat(players)
  {
  }

  /** After the run the browser shows what a fresh snapshot would, in every field except the round. */
  ghost predicate ShowsAfter(s: State, players: seq<Player>, cs: seq<Command>, victory: Option<Victory>) {
    Play(s, cs).Done? && AgreesInOrder(s, players, Play(s, cs).state.roster, cs, victory)
  }

  /** Games as the host opens them, with player i on seat i, and posts that name all four quantities: the browser shows
      what a fresh snapshot would, in every field except the round. */
  lemma HostedGamesAgree(players: seq<Player>, seed: bv32, cs: seq<Command>, victory: Option<Victory>)
    requires Roster(players) && 2 <= |players| <= 4 && forall p <- players :: p.id.text != ""
    requires forall i :: 0 <= i < |players| ==> players[i].seat == i
    requires forall c <- cs :: NamedPost(c)
    ensures ShowsAfter(Setup(players, FrontierBoard(seed), seed), players, cs, victory)
  {
    hide Setup, FrontierBoard, AgreesInOrder, AllLegible, StrictlyBySeat, Roster, Play, NamedPost, Inv;
    IndexedIsSeated(players);
    SetupOpens(players, seed);
    NamedPostsAreLegible(Setup(players, FrontierBoard(seed), seed), cs);
    EveryBrowserAgrees(players, seed, cs, victory);
  }

  // ---- Where they part ---------------------------------------------------------------------------------------------

  /** Two players passed in against the order of their seats: the very first later snapshot lists them the other way. */
  lemma UnsortedPlayersDisagree(seed: bv32)
    ensures var players := [Player(PlayerId("a"), 1, Active), Player(PlayerId("b"), 0, Active)];
            var s := Setup(players, FrontierBoard(seed), seed);
            Roster(players) && Play(s, []).Done? && !ShowsAfter(s, players, [], None)
  {
    hide Setup, FrontierBoard, AgreesInOrder, AllLegible, Play;
    var players := [Player(PlayerId("a"), 1, Active), Player(PlayerId("b"), 0, Active)];
    assert players[0].seat > players[1].seat;
    assert players[0].id.text == "a" && players[1].id.text == "b";
    EveryBrowserAgrees(players, seed, [], None);
  }

  /** The holder of the turn posts an offer without any field.  The validator lets it through, and from then on the browser
      has no number for the goods of that player. */
  lemma EmptyPostGarbles(players: seq<Player>, seed: bv32)
    requires Roster(players) && 2 <= |players| <= 4 && forall p <- players :: p.id.text != ""
    ensures var s := Setup(players, FrontierBoard(seed), seed);
            var post := Command(Some(TurnHolder(s)), PostOffer(None, None, None, None));
            Validate(s, post).None? && !AgreesInOrder(s, players, players, [post], None)
  {
    hide Setup, FrontierBoard, AgreesInOrder, Roster, Inv;
    SetupOpens(players, seed);
    var s := Setup(players, FrontierBoard(seed), seed);
    GuardPassed(s, Some(TurnHolder(s)));
    var post := Command(Some(TurnHolder(s)), PostOffer(None, None, None, None));
    EveryBrowserAgrees(players, seed, [post], None);
    PlayOne(s, post);
    assert !Legible(Execute(s, post).events[0]);
  }

  lemma PlayOne(s: State, c: Command)
    requires Validate(s, c).None? && Execute(s, c).Done?
    ensures Play(s, [c]) == Execute(s, c)
  {
    hide Validate, Execute;
    assert [c][..0] == [];
    assert Play(s, []) == Done(s, []);
    assert [] + Execute(s, c).events == Execute(s, c).events;
  }
}
