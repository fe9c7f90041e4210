/** Kingdoms played through the game loop. */
module KingdomsEngine {
  import opened Collections
  import opened Board
  import opened KingdomsMap
  import opened Rounds
  import opened KingdomsState
  import opened KingdomsRules
  import opened KingdomsInvariant
  import opened KingdomsRun
  import GameCore

  type Rules = GameCore.Rules<State, Command, Event, Victory, Error>

  ghost function Executed(s: State, c: Command): GameCore.Executed<State, Event> {
    match Execute(s, c)
    case Done(after, events) => GameCore.Done(after, events)
    case Threw => GameCore.Threw
  }

  ghost function Scenario(): Rules {
    GameCore.Rules((s, c) => Validate(s, c), (s, c) => Executed(s, c), (s: State) => LastPlayerStanding(s.roster))
  }

  ghost function Invariant(): State -> bool {
    s => Inv(s)
  }

  lemma ScenarioIsSound()
    ensures GameCore.Sound(Scenario(), Invariant())
  {
    hide Inv, Validate, Execute;
    forall s, c | Inv(s) && Validate(s, c).None? ensures Executed(s, c).Done? && Inv(Executed(s, c).state) {
      AcceptedActionKeepsInv(s, c);
    }
  }

  type Core = GameCore.Core<State, Command, Event, Victory>

  /** One player is left, and the last thing that went out is that this player has won. */
  ghost predicate Announced(end: Core) {
    exists w :: ActiveIds(end.state.roster) == {w} && end.heard != []
                && end.heard[|end.heard| - 1].body == GameCore.GameEnded(Victory(Some(w)))
  }

  ghost predicate FaithfulSession(initial: State, cs: seq<Command>) {
    var end := GameCore.Session(Scenario(), GameCore.Begin(initial), cs);
    && end.Some? && Inv(end.value.state) && GameCore.Faithful(Scenario(), initial, end.value)
    && (end.value.status == GameCore.Ended ==> Announced(end.value))
  }

  /** In every session no submission crashes, the invariant holds and the journal is faithful; a session that has ended
      has exactly one player left, who is the winner announced by the last event. */
  lemma EverySessionIsFaithful(players: seq<Player>, seed: seq<bv16>, rng: bv32, cs: seq<Command>)
    requires Roster(players) && 2 <= |players| <= 4 && forall p <- players :: p.id.text != ""
    ensures FaithfulSession(Setup(players, KingdomsBoard(seed), rng), cs)
  {
    hide KingdomsBoard, Inv, BoardOk, CornersOn, Roster, Setup, SetUpTo, StartingCoords, FaithfulSession;
    KingdomsBoardIsOk(seed, |players|);
    SetupIsOk(players, KingdomsBoard(seed), rng);
    SessionFrom(Setup(players, KingdomsBoard(seed), rng), cs);
  }

  lemma SessionFrom(initial: State, cs: seq<Command>)
    requires Inv(initial)
    ensures FaithfulSession(initial, cs)
  {
    hide Inv, GameCore.Faithful, GameCore.Sound, Scenario, GameCore.Session, Announced;
    ScenarioIsSound();
    GameCore.SoundSessionsRun(Scenario(), Invariant(), initial, cs);
    GameCore.SessionIsFaithful(Scenario(), initial, cs);
    var end := GameCore.Session(Scenario(), GameCore.Begin(initial), cs).value;
    if end.status == GameCore.Ended {
      EndedHasWinner(initial, end);
    }
  }

  lemma EndedHasWinner(initial: State, end: Core)
    requires GameCore.Faithful(Scenario(), initial, end) && end.status == GameCore.Ended && Inv(end.state)
    ensures Announced(end)
  {
    hide Inv, GameCore.Replay, GameCore.Journaled, LastPlayerStanding;
    VictoryIsLastSurvivor(end.state);
    var v := LastPlayerStanding(end.state.roster).value;
    assert v.winner.Some?;
    var w := v.winner.value;
    assert LastPlayerStanding(end.state.roster) == Some(Victory(Some(w)));
  }
}
