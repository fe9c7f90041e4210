/** Frontier played through the game loop: journal, numbering and browser agree in every session. */
module FrontierEngine {
  import opened Collections
  import opened Board
  import opened Random
  import opened Rounds
  import opened FrontierMap
  import opened FrontierRules
  import opened FrontierInvariant
  import opened FrontierRun
  import opened FrontierClient
  import GameCore

  type Rules = GameCore.Rules<State, Command, Event, Victory, Error>
  type Core = GameCore.Core<State, Command, Event, Victory>

  function Executed(s: State, c: Command): GameCore.Executed<State, Event> {
    match Execute(s, c)
    case Done(after, events) => GameCore.Done(after, events)
    case Threw => GameCore.Threw
  }

  function Won(s: State): Option<Victory> {
    if forall p <- s.holders :: p in s.purses then Evaluate(s) else None
  }

  function Scenario(): Rules {
    GameCore.Rules((s, c) => Validate(s, c), (s, c) => Executed(s, c), s => Won(s))
  }

  ghost function Invariant(): State -> bool {
    s => Inv(s)
  }

  lemma ScenarioIsSound()
    ensures GameCore.Sound(Scenario(), Invariant())
  {
    hide Inv, Validate, Execute;
    forall s, c | Inv(s) && Validate(s, c).None? ensures Executed(s, c).Done? && Inv(Executed(s, c).state) {
      AcceptedActionKeepsInv(s, c);
    }
  }

  ghost predicate FaithfulSession(initial: State, cs: seq<Command>) {
    var end := GameCore.Session(Scenario(), GameCore.Begin(initial), cs);
    end.Some? && Inv(end.value.state) && GameCore.Faithful(Scenario(), initial, end.value)
  }

  lemma SessionFrom(initial: State, cs: seq<Command>)
    requires Inv(initial)
    ensures FaithfulSession(initial, cs)
  {
    hide Inv, GameCore.Faithful, GameCore.Sound, Scenario, GameCore.Session;
    ScenarioIsSound();
    GameCore.SoundSessionsRun(Scenario(), Invariant(), initial, cs);
    GameCore.SessionIsFaithful(Scenario(), initial, cs);
  }

  /** In every session on every board no submission crashes, the invariant holds, the journal replays to the current
      state (generator included), events are numbered 1, 2, 3, ..., and nothing but the journaled events and at most
      one game-ended went out. */
  lemma EverySessionIsFaithful(players: seq<Player>, seed: bv32, cs: seq<Command>)
    requires Roster(players) && 2 <= |players| <= 4 && forall p <- players :: p.id.text != ""
    ensures FaithfulSession(Setup(players, FrontierBoard(seed), seed), cs)
  {
    hide FrontierBoard, Inv, HomesOn, Roster, SetUpTo, Setup, FaithfulSession, StartingCoords;
    FrontierBoardIsOk(seed, |players|);
    SetupIsOk(players, FrontierBoard(seed), seed);
    SessionFrom(Setup(players, FrontierBoard(seed), seed), cs);
  }

  // ---- What the browser makes of everything that went out ------------------------------------------

  function MessageOf(e: GameCore.Stamped<Event, Victory>): Message {
    match e.body
    case Played(event) => FrontierClient.Played(event)
    case GameEnded(v) => FrontierClient.Ended(v)
  }

  function Sent(heard: seq<GameCore.Stamped<Event, Victory>>): (r: seq<Message>)
    ensures |r| == |heard| && forall i :: 0 <= i < |r| ==> r[i] == MessageOf(heard[i])
  {
    seq(|heard|, i requires 0 <= i < |heard| => MessageOf(heard[i]))
  }

  function Verdict(core: Core): Option<Victory> {
    if core.status == GameCore.Ended then Won(core.state) else None
  }

  /** Every game event that went out carries the numbers the browser needs. */
  ghost predicate AllSentLegible(heard: seq<GameCore.Stamped<Event, Victory>>) {
    forall e <- heard :: e.body.Played? ==> Legible(e.body.event)
  }

  /** The browser shows all players and, if every event was legible, the projection of the current state, the result of the
      game included; otherwise it shows goods that are no number. */
  ghost predicate InStep(core: Core, snapshot: View, players: seq<Player>) {
    && Inv(core.state) && core.state.board.Valid()
    && (core.status == GameCore.Ended ==> Won(core.state).Some?)
    && var shown := FoldMessages(None, [Started(snapshot)] + Sent(core.heard));
       && shown.Some?
       && (forall p <- RosterIds(core.state.roster) :: Shows(shown.value, p))
       && if AllSentLegible(core.heard)
          then shown.value == BuildView(core.state, players, Verdict(core)).(round := snapshot.round)
          else Garbled(shown.value)
  }

  lemma {:induction false} MessagesFold(v: Option<View>, ms: seq<Message>, events: seq<Event>)
    requires FoldMessages(v, ms).Some?
    ensures FoldMessages(v, ms + Messages(events)) == Some(Fold(FoldMessages(v, ms).value, events))
  {
    if events == [] {
      assert ms + Messages(events) == ms;
    } else {
      var init := events[..|events| - 1];
      MessagesFold(v, ms, init);
      var all := ms + Messages(events);
      assert all[..|all| - 1] == ms + Messages(init);
    }
  }

  lemma SentStamped(heard: seq<GameCore.Stamped<Event, Victory>>, events: seq<Event>, from: nat)
    ensures Sent(heard + GameCore.Stamp(events, from)) == Sent(heard) + Messages(events)
  {
  }

  lemma SentLast(heard: seq<GameCore.Stamped<Event, Victory>>, last: GameCore.Stamped<Event, Victory>)
    ensures Sent(heard + [last]) == Sent(heard) + [MessageOf(last)]
  {
  }

  lemma HeardLegible(heard: seq<GameCore.Stamped<Event, Victory>>, events: seq<Event>, from: nat)
    ensures AllSentLegible(heard + GameCore.Stamp(events, from)) <==> AllSentLegible(heard) && AllLegible(events)
  {
    var stamped := GameCore.Stamp<Event, Victory>(events, from);
    if AllSentLegible(heard + stamped) {
      forall e | e in heard ensures e.body.Played? ==> Legible(e.body.event) {
        assert e in heard + stamped;
      }
      forall e | e in events ensures Legible(e) {
        var i :| 0 <= i < |events| && events[i] == e;
        assert stamped[i] in heard + stamped;
      }
    }
    if AllSentLegible(heard) && AllLegible(events) {
      forall e | e in stamped ensures e.body.Played? ==> Legible(e.body.event) {
        var i :| 0 <= i < |stamped| && stamped[i] == e;
        assert events[i] in events;
      }
    }
  }

  lemma EndIsLegible(heard: seq<GameCore.Stamped<Event, Victory>>, last: GameCore.Stamped<Event, Victory>)
    requires last.body.GameEnded?
    ensures AllSentLegible(heard + [last]) <==> AllSentLegible(heard)
  {
    assert forall e :: e in heard + [last] <==> e in heard || e == last;
  }

  lemma EndShows(v: View, victory: Victory)
    ensures var after := ApplyEvent(Some(v), FrontierClient.Ended(victory)).value;
            (forall p :: Shows(v, p) ==> Shows(after, p)) && (Garbled(v) ==> Garbled(after))
  {
  }

  /** The view after the events of one accepted command. */
  lemma EventsKeepInStep(s: State, c: Command, players: seq<Player>, shown: View, legible: bool)
    requires Inv(s) && s.board.Valid() && Validate(s, c).None?
    requires forall p <- RosterIds(s.roster) :: Shows(shown, p)
    requires if legible then shown == BuildView(s, players, None).(round := shown.round) else Garbled(shown)
    ensures Execute(s, c).Done? && Inv(Execute(s, c).state) && Execute(s, c).state.board.Valid()
    ensures var after, v := Execute(s, c).state, Fold(shown, Execute(s, c).events);
            && (forall p <- RosterIds(after.roster) :: Shows(v, p))
            && (if legible && AllLegible(Execute(s, c).events)
                then v == BuildView(after, players, None).(round := shown.round) else Garbled(v))
  {
    hide Inv, Validate, Execute, Fold, Shows, Garbled, RosterIds, AllLegible, Tiles, Entries, GameMap.Valid, Legible;
    AcceptedActionKeepsInv(s, c);
    ActionKeepsSeats(s, c);
    BoardStays(Execute(s, c).state);
    ActorIsPlayer(s, c);
    IllegibleIsActor(s, c);
    var events := Execute(s, c).events;
    SubjectsShown(shown, events, c.player.value);
    FoldGarbles(shown, events);
    FoldStaysGarbled(shown, events);
    if legible && AllLegible(events) {
      ActionShows(s, c, players, shown);
      FoldKeepsRound(shown, events);
    }
  }

  lemma SubjectsShown(shown: View, events: seq<Event>, p: PlayerId)
    requires Shows(shown, p) && forall e <- events :: Legible(e) || IsSubject(e, p)
    ensures forall e <- events :: Legible(e) || ShowsSubject(shown, e)
  {
    hide Legible, Shows;
  }

  lemma {:induction false} FoldStaysGarbled(v: View, events: seq<Event>)
    ensures Garbled(v) ==> Garbled(Fold(v, events))
  {
    hide Garbled, ApplyPlayed, Legible, Shows;
    if events != [] {
      FoldStaysGarbled(v, events[..|events| - 1]);
      EventGarbles(Fold(v, events[..|events| - 1]), events[|events| - 1]);
    }
  }

  lemma SubmissionKeepsInStep(core: Core, c: Command, snapshot: View, players: seq<Player>)
    requires InStep(core, snapshot, players) && core.status != GameCore.Ended
    requires GameCore.Respond(Scenario(), core, c).Accepted?
    ensures InStep(GameCore.Respond(Scenario(), core, c).core, snapshot, players)
  {
    hide Inv, Validate, Execute, FoldMessages, Sent, Messages, Fold, GameCore.Stamp, Tiles, Entries, GameMap.Valid, Won,
         Shows, Garbled, RosterIds, AllLegible, AllSentLegible;
    var shown := FoldMessages(None, [Started(snapshot)] + Sent(core.heard)).value;
    EventsKeepInStep(core.state, c, players, shown, AllSentLegible(core.heard));
    var events := Execute(core.state, c).events;
    MessagesFold(None, [Started(snapshot)] + Sent(core.heard), events);
    SentStamped(core.heard, events, core.nextSeq);
    HeardLegible(core.heard, events, core.nextSeq);
    FoldKeepsRound(shown, events);
    var after := GameCore.Respond(Scenario(), core, c).core;
    var head := [Started(snapshot)] + Sent(core.heard) + Messages(events);
    assert [Started(snapshot)] + (Sent(core.heard) + Messages(events)) == head;
    if after.status == GameCore.Ended {
      var last := after.heard[|after.heard| - 1];
      SentLast(core.heard + GameCore.Stamp(events, core.nextSeq), last);
      EndIsLegible(core.heard + GameCore.Stamp(events, core.nextSeq), last);
      LastMessage(None, head, MessageOf(last));
      EndShows(Fold(shown, events), last.body.victory);
      assert [Started(snapshot)] + (Sent(core.heard) + Messages(events) + [MessageOf(last)]) == head + [MessageOf(last)];
    }
  }

  lemma {:induction false} BrowserStaysInStep(initial: State, cs: seq<Command>, players: seq<Player>)
    requires Inv(initial) && initial.board.Valid() && Covers(players, initial.roster)
    requires GameCore.Session(Scenario(), GameCore.Begin(initial), cs).Some?
    ensures InStep(GameCore.Session(Scenario(), GameCore.Begin(initial), cs).value,
                   BuildView(initial, players, None), players)
  {
    hide InStep, BuildView, Scenario, GameCore.Respond, Inv, Covers;
    if cs == [] {
      SnapshotInStep(initial, players);
    } else {
      BrowserStaysInStep(initial, cs[..|cs| - 1], players);
      var core := GameCore.Session(Scenario(), GameCore.Begin(initial), cs[..|cs| - 1]).value;
      if core.status != GameCore.Ended && GameCore.Respond(Scenario(), core, cs[|cs| - 1]).Accepted? {
        SubmissionKeepsInStep(core, cs[|cs| - 1], BuildView(initial, players, None), players);
      }
    }
  }

  lemma SnapshotInStep(initial: State, players: seq<Player>)
    requires Inv(initial) && initial.board.Valid() && Covers(players, initial.roster)
    ensures InStep(GameCore.Begin(initial), BuildView(initial, players, None), players)
  {
    hide Inv, Tiles, Entries, Shows, Covers;
    EverybodyIsShown(initial, players);
    var snapshot := BuildView(initial, players, None);
    var none: seq<GameCore.Stamped<Event, Victory>> := [];
    assert [Started(snapshot)] + Sent(none) == [Started(snapshot)];
    assert [Started(snapshot)][..0] == [];
  }

  /** In every session: the game-started snapshot and everything heard since, folded by the browser, is the projection of
      the current state in every field except the round, win or draw included, exactly when every event was legible. */
  lemma BrowserAgreesInSession(initial: State, cs: seq<Command>, players: seq<Player>)
    requires Inv(initial) && initial.board.Valid() && Covers(players, initial.roster)
    requires GameCore.Session(Scenario(), GameCore.Begin(initial), cs).Some?
    ensures var core := GameCore.Session(Scenario(), GameCore.Begin(initial), cs).value;
            var snapshot := BuildView(initial, players, None);
            && core.state.board.Valid()
            && (FoldMessages(None, [Started(snapshot)] + Sent(core.heard)) ==
                Some(BuildView(core.state, players, Verdict(core)).(round := snapshot.round))
                <==> AllSentLegible(core.heard))
  {
    hide BuildView, Scenario, GameCore.Session, Inv, Covers, Shows, Garbled, RosterIds, AllSentLegible, FoldMessages, Sent,
         Verdict;
    BrowserStaysInStep(initial, cs, players);
    var core := GameCore.Session(Scenario(), GameCore.Begin(initial), cs).value;
    SameRoundNumeric(core.state, players, Verdict(core), BuildView(initial, players, None).round);
  }

  lemma SameRoundNumeric(s: State, players: seq<Player>, victory: Option<Victory>, round: nat)
    requires s.board.Valid()
    ensures !Garbled(BuildView(s, players, victory).(round := round))
  {
    ProjectionIsNumeric(s, players, victory);
  }
}
