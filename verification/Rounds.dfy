/**
 * The roster, the clockwise and snake turn orders, and the round manager.
 */
module Rounds {
  import opened Collections

  datatype PlayerId = PlayerId(text: string)

  datatype Status = Active | Eliminated

  datatype Player = Player(id: PlayerId, seat: int, status: Status)

  ghost predicate Roster(players: seq<Player>) {
    && (forall i, j :: 0 <= i < j < |players| ==> players[i].id != players[j].id)
    && SeatsApart(players)
  }

  function RosterIds(roster: seq<Player>): set<PlayerId> {
    set p | p in roster :: p.id
  }

  function ActiveIds(roster: seq<Player>): set<PlayerId> {
    set p | p in roster && p.status == Active :: p.id
  }

  function IdsOf(players: seq<Player>): seq<PlayerId> {
    Mapped((p: Player) => p.id, players)
  }

  // ---- Seating order ------------------------------------------------------------

  function ActiveOnly(players: seq<Player>): (r: seq<Player>)
    ensures forall p :: p in r <==> p in players && p.status == Active
  {
    if players == [] then []
    else if players[0].status == Active then [players[0]] + ActiveOnly(players[1..])
    else ActiveOnly(players[1..])
  }

  /** Inserts before the first player seated no lower, so that equal seats keep their order. */
  function InsertBySeat(p: Player, sorted: seq<Player>): (r: seq<Player>)
    ensures forall x :: x in r <==> x == p || x in sorted
  {
    if sorted == [] then [p]
    else if p.seat <= sorted[0].seat then [p] + sorted
    else [sorted[0]] + InsertBySeat(p, sorted[1..])
  }

  /** The stable sort by seat. */
  function SortBySeat(players: seq<Player>): (r: seq<Player>)
    ensures forall x :: x in r <==> x in players
  {
    if players == [] then [] else InsertBySeat(players[0], SortBySeat(players[1..]))
  }

  function ActiveSortedBySeat(players: seq<Player>): (r: seq<Player>)
    ensures forall p :: p in r <==> p in players && p.status == Active
  {
    SortBySeat(ActiveOnly(players))
  }

  ghost predicate SeatsApart(players: seq<Player>) {
    forall i, j :: 0 <= i < j < |players| ==> players[i].seat != players[j].seat
  }

  lemma HeadSeatIsApart(players: seq<Player>)
    requires SeatsApart(players) && players != []
    ensures SeatsApart(players[1..])
    ensures forall x <- players[1..] :: x.seat != players[0].seat
  {
    forall x | x in players[1..] ensures x.seat != players[0].seat {
      var k :| 0 <= k < |players| - 1 && players[1..][k] == x;
      assert players[k + 1] == x;
    }
  }

  ghost predicate StrictlyBySeat(s: seq<Player>) {
    forall i, j :: 0 <= i < j < |s| ==> s[i].seat < s[j].seat
  }

  lemma {:induction false} InsertKeepsOrder(p: Player, s: seq<Player>)
    requires StrictlyBySeat(s) && forall x <- s :: x.seat != p.seat
    ensures StrictlyBySeat(InsertBySeat(p, s))
  {
    if s != [] && p.seat > s[0].seat {
      InsertKeepsOrder(p, s[1..]);
      var rest := InsertBySeat(p, s[1..]);
      forall j | 0 <= j < |rest| ensures s[0].seat < rest[j].seat {
        assert rest[j] in rest;
      }
    }
  }

  lemma {:induction false} SortIsStrict(players: seq<Player>)
    requires SeatsApart(players)
    ensures StrictlyBySeat(SortBySeat(players))
  {
    if players != [] {
      HeadSeatIsApart(players);
      hide SeatsApart;
      SortIsStrict(players[1..]);
      InsertKeepsOrder(players[0], SortBySeat(players[1..]));
    }
  }

  lemma {:induction false} ActiveOnlyKeepsSeatsApart(players: seq<Player>)
    requires SeatsApart(players)
    ensures SeatsApart(ActiveOnly(players))
  {
    if players != [] {
      HeadSeatIsApart(players);
      ActiveOnlyKeepsSeatsApart(players[1..]);
      var rest := ActiveOnly(players[1..]);
      forall j | 0 <= j < |rest| ensures players[0].seat != rest[j].seat {
        assert rest[j] in players[1..];
      }
    }
  }

  lemma ActiveIsStrictlySorted(players: seq<Player>)
    requires Roster(players)
    ensures StrictlyBySeat(ActiveSortedBySeat(players))
  {
    ActiveOnlyKeepsSeatsApart(players);
    SortIsStrict(ActiveOnly(players));
  }

  /** The first position holding the id, or -1. */
  function FindIndex(players: seq<Player>, id: PlayerId): (i: int)
    ensures -1 <= i < |players|
    ensures i >= 0 ==> players[i].id == id
    ensures i == -1 ==> forall p <- players :: p.id != id
  {
    if players == [] then -1
    else if players[0].id == id then 0
    else
      var i := FindIndex(players[1..], id);
      if i < 0 then -1 else i + 1
  }

  function SeatOf(players: seq<Player>, id: PlayerId, missing: int): int {
    var i := FindIndex(players, id);
    if i < 0 then missing else players[i].seat
  }

  // ---- Clockwise order ------------------------------------------------------------

  function ClockwiseInitial(players: seq<Player>): seq<PlayerId> {
    IdsOf(ActiveSortedBySeat(players))
  }

  /** None stands for the exception raised when nobody is left. */
  function ClockwiseNext(current: PlayerId, players: seq<Player>): Option<PlayerId> {
    var active := ActiveSortedBySeat(players);
    if active == [] then None
    else if |active| == 1 then Some(active[0].id)
    else
      var idx := FindIndex(active, current);
      if idx == -1 then Some(active[0].id)
      else Some(active[(idx + 1) % |active|].id)
  }

  ghost predicate LowestActive(players: seq<Player>, n: nat) {
    && n < |players| && players[n].status == Active
    && forall j :: 0 <= j < |players| && players[j].status == Active ==> players[n].seat <= players[j].seat
  }

  ghost predicate NobodyAfter(players: seq<Player>, seat: int) {
    forall j :: 0 <= j < |players| && players[j].status == Active ==> players[j].seat <= seat
  }

  ghost predicate NextAfter(players: seq<Player>, seat: int, n: nat) {
    && n < |players| && players[n].status == Active && seat < players[n].seat
    && forall j :: 0 <= j < |players| && players[j].status == Active && seat < players[j].seat ==>
                     players[n].seat <= players[j].seat
  }

  lemma {:induction false} RosterSeatsAreIds(players: seq<Player>, p: Player, q: Player)
    requires Roster(players) && p in players && q in players && p.id == q.id
    ensures p == q
  {
  }

  lemma FindInSorted(players: seq<Player>, a: seq<Player>, m: nat)
    requires Roster(players) && StrictlyBySeat(a) && m < |a|
    requires forall p <- a :: p in players
    ensures FindIndex(a, a[m].id) == m
  {
    assert a[m] in a;
    var i := FindIndex(a, a[m].id);
    RosterSeatsAreIds(players, a[i], a[m]);
  }

  lemma CyclicIndex(m: nat, n: nat)
    requires m < n
    ensures (m + 1) % n == if m + 1 < n then m + 1 else 0
  {
  }

  /** In the sorted list of active players, the cyclic successor of a player is the seat successor. */
  lemma CyclicSuccessor(players: seq<Player>, a: seq<Player>, m: nat, k: nat, n: nat)
    requires StrictlyBySeat(a) && m < |a| && k < |players| && n < |players|
    requires forall p :: p in a <==> p in players && p.status == Active
    requires players[k] == a[m]
    requires players[n] == a[if m + 1 < |a| then m + 1 else 0]
    ensures if NobodyAfter(players, players[k].seat) then LowestActive(players, n)
            else NextAfter(players, players[k].seat, n)
  {
    assert players[n] in a;
    forall j | 0 <= j < |players| && players[j].status == Active
      ensures exists i :: 0 <= i < |a| && a[i] == players[j]
    {
      assert players[j] in a;
    }
  }

  /** From an active player the turn goes to the active player on the next higher seat, and wraps to the
      lowest active seat exactly when no higher one is active. */
  lemma ClockwiseIsSeatSuccessor(players: seq<Player>, k: nat) returns (n: nat)
    requires Roster(players) && k < |players| && players[k].status == Active
    ensures n < |players| && ClockwiseNext(players[k].id, players) == Some(players[n].id)
    ensures if NobodyAfter(players, players[k].seat) then LowestActive(players, n)
            else NextAfter(players, players[k].seat, n)
  {
    hide ActiveSortedBySeat, FindIndex, Roster, StrictlyBySeat, ClockwiseNext, NobodyAfter, LowestActive, NextAfter;
    var a := ActiveSortedBySeat(players);
    ActiveIsStrictlySorted(players);
    assert players[k] in a;
    var m: nat :| m < |a| && a[m] == players[k];
    FindInSorted(players, a, m);
    ClockwiseNextAt(players, m);
    var next := a[if m + 1 < |a| then m + 1 else 0];
    assert next in a;
    n :| 0 <= n < |players| && players[n] == next;
    CyclicSuccessor(players, a, m, k, n);
  }

  lemma ClockwiseNextAt(players: seq<Player>, m: nat)
    requires m < |ActiveSortedBySeat(players)|
    requires FindIndex(ActiveSortedBySeat(players), ActiveSortedBySeat(players)[m].id) == m
    ensures var a := ActiveSortedBySeat(players);
            ClockwiseNext(a[m].id, players) == Some(a[if m + 1 < |a| then m + 1 else 0].id)
  {
    hide ActiveSortedBySeat, FindIndex;
    CyclicIndex(m, |ActiveSortedBySeat(players)|);
  }

  /** With somebody active the order never fails and never names an eliminated player. */
  lemma ClockwiseNamesActivePlayer(current: PlayerId, players: seq<Player>)
    ensures ClockwiseNext(current, players).None? <==> forall p <- players :: p.status == Eliminated
    ensures ClockwiseNext(current, players).Some? ==>
              exists p <- players :: p.status == Active && p.id == ClockwiseNext(current, players).value
  {
    var a := ActiveSortedBySeat(players);
    if a == [] {
      forall p | p in players ensures p.status == Eliminated {
        assert p !in a;
      }
    } else {
      assert a[0] in a;
      var idx := FindIndex(a, current);
      var next := if idx == -1 || |a| == 1 then a[0] else a[(idx + 1) % |a|];
      assert next in a;
      assert ClockwiseNext(current, players) == Some(next.id);
    }
  }

  // ---- Round manager ----------------------------------------------------------------

  datatype Turn = Turn(turnNumber: nat, activePlayer: PlayerId, phase: string, flags: map<string, bool>)

  datatype RoundState = RoundState(round: nat, turn: Turn)

  /** The state after the turn ends, and whether a new round began; None is the turn order's exception. */
  function EndTurn(s: RoundState, players: seq<Player>, phase: string): Option<(RoundState, bool)> {
    var current := SeatOf(players, s.turn.activePlayer, -1);
    match ClockwiseNext(s.turn.activePlayer, players)
    case None => None
    case Some(next) =>
      var wrapped := SeatOf(players, next, 0) <= current;
      Some((RoundState(if wrapped then s.round + 1 else s.round,
                       Turn(s.turn.turnNumber + 1, next, phase, map[])), wrapped))
  }

  class RoundManager {
    var currentRound: nat
    var currentTurn: Turn
    const phases: map<string, seq<string>>

    function State(): RoundState
      reads this
    {
      RoundState(currentRound, currentTurn)
    }

    /** The source throws on an unknown initial phase or an empty roster; those are its demands on callers. */
    constructor (players: seq<Player>, phases: map<string, seq<string>>, initialPhase: string)
      requires initialPhase in phases && ActiveSortedBySeat(players) != []
      ensures this.phases == phases
      ensures State() == RoundState(1, Turn(1, ActiveSortedBySeat(players)[0].id, initialPhase, map[]))
    {
      var order := ClockwiseInitial(players);
      this.phases := phases;
      currentRound := 1;
      currentTurn := Turn(1, order[0], initialPhase, map[]);
    }

    method SetPhase(phase: string) returns (ok: bool)
      modifies this`currentTurn
      ensures ok <==> old(currentTurn).phase in phases && phase in phases[old(currentTurn).phase]
      ensures currentTurn == if ok then old(currentTurn).(phase := phase) else old(currentTurn)
    {
      if currentTurn.phase !in phases || phase !in phases[currentTurn.phase] {
        return false;
      }
      currentTurn := currentTurn.(phase := phase);
      ok := true;
    }

    method SetFlag(name: string, value: bool)
      modifies this`currentTurn
      ensures currentTurn == old(currentTurn).(flags := old(currentTurn).flags[name := value])
    {
      currentTurn := currentTurn.(flags := currentTurn.flags[name := value]);
    }

    /** Nothing changes when the turn order throws. */
    method End(players: seq<Player>, phase: string) returns (r: Option<(PlayerId, bool)>)
      modifies this`currentRound, this`currentTurn
      ensures EndTurn(old(State()), players, phase).None? ==> r == None && State() == old(State())
      ensures EndTurn(old(State()), players, phase).Some? ==>
                && State() == EndTurn(old(State()), players, phase).value.0
                && r == Some((currentTurn.activePlayer, EndTurn(old(State()), players, phase).value.1))
    {
      var currentSeat := SeatOf(players, currentTurn.activePlayer, -1);
      var next := ClockwiseNext(currentTurn.activePlayer, players);
      if next.None? {
        return None;
      }
      var nextSeat := SeatOf(players, next.value, 0);
      var wrappedAround := nextSeat <= currentSeat;
      if wrappedAround {
        currentRound := currentRound + 1;
      }
      currentTurn := Turn(currentTurn.turnNumber + 1, next.value, phase, map[]);
      r := Some((next.value, wrappedAround));
    }
  }

  // ---- Player manager ---------------------------------------------------------------

  function WithStatus(players: seq<Player>, status: Status): (r: seq<Player>)
    ensures |r| == |players| && forall i :: 0 <= i < |r| ==> r[i] == players[i].(status := status)
  {
    seq(|players|, i requires 0 <= i < |players| => players[i].(status := status))
  }

  /** The record stored under an id is the last one entered for it. */
  function LastIndex(players: seq<Player>, id: PlayerId): (i: int)
    ensures -1 <= i < |players|
    ensures i >= 0 ==> players[i].id == id
    ensures forall j :: i < j < |players| ==> players[j].id != id
  {
    if players == [] then -1
    else if players[|players| - 1].id == id then |players| - 1
    else LastIndex(players[..|players| - 1], id)
  }

  function EliminateFrom(players: seq<Player>, id: PlayerId): seq<Player> {
    var i := LastIndex(players, id);
    if i < 0 then players else players[i := players[i].(status := Eliminated)]
  }

  predicate IsEliminated(players: seq<Player>, id: PlayerId) {
    var i := LastIndex(players, id);
    i >= 0 && players[i].status == Eliminated
  }

  class PlayerManager {
    var bySeat: seq<Player>

    constructor (players: seq<Player>)
      ensures bySeat == WithStatus(SortBySeat(players), Active)
    {
      bySeat := WithStatus(SortBySeat(players), Active);
    }

    /** ok is false where the source throws for an unknown id. */
    method Eliminate(id: PlayerId) returns (ok: bool)
      modifies this
      ensures ok <==> exists p <- old(bySeat) :: p.id == id
      ensures bySeat == EliminateFrom(old(bySeat), id)
    {
      var i := LastIndex(bySeat, id);
      ok := i >= 0;
      if ok {
        assert bySeat[i] in bySeat;
        bySeat := bySeat[i := bySeat[i].(status := Eliminated)];
      }
    }
  }

  lemma {:induction false} LastIndexReadsIds(players: seq<Player>, after: seq<Player>, id: PlayerId)
    requires |players| == |after| && forall i :: 0 <= i < |players| ==> after[i].id == players[i].id
    ensures LastIndex(players, id) == LastIndex(after, id)
  {
    var i, j := LastIndex(players, id), LastIndex(after, id);
    hide LastIndex;
    assert i == j;
  }

  /** Elimination keeps everybody's id and seat, marks exactly the named player, and is permanent. */
  lemma EliminateMarksOne(players: seq<Player>, id: PlayerId)
    requires Roster(players)
    ensures Progress(players, EliminateFrom(players, id)) && Roster(EliminateFrom(players, id))
    ensures forall other :: IsEliminated(EliminateFrom(players, id), other) <==>
                              IsEliminated(players, other) || (other == id && exists p <- players :: p.id == id)
  {
    var after := EliminateFrom(players, id);
    var k := LastIndex(players, id);
    if k >= 0 {
      assert players[k] in players;
    }
    forall other
      ensures IsEliminated(after, other) <==>
              IsEliminated(players, other) || (other == id && exists p <- players :: p.id == id)
    {
      LastIndexReadsIds(players, after, other);
    }
  }

  /** Same seats, and nobody comes back. */
  ghost predicate Progress(before: seq<Player>, after: seq<Player>) {
    && |before| == |after|
    && forall i :: 0 <= i < |before| ==>
                     && after[i].id == before[i].id && after[i].seat == before[i].seat
                     && (before[i].status == Eliminated ==> after[i].status == Eliminated)
  }

  // ---- Seating ---------------------------------------------------------------------

  lemma {:induction false} SortKeepsLength(players: seq<Player>)
    ensures |SortBySeat(players)| == |players|
  {
    if players != [] {
      SortKeepsLength(players[1..]);
      InsertAddsOne(players[0], SortBySeat(players[1..]));
    }
  }

  lemma {:induction false} InsertAddsOne(p: Player, sorted: seq<Player>)
    ensures |InsertBySeat(p, sorted)| == |sorted| + 1
  {
    if sorted != [] {
      InsertAddsOne(p, sorted[1..]);
    }
  }

  ghost predicate LowestFirst(roster: seq<Player>, holder: PlayerId) {
    exists n: nat :: LowestActive(roster, n) && roster[n].id == holder
  }

  lemma SortedKeepsIds(players: seq<Player>, sorted: seq<Player>)
    requires Roster(players) && StrictlyBySeat(sorted) && forall x :: x in sorted <==> x in players
    ensures Roster(sorted) && RosterIds(sorted) == RosterIds(players)
  {
    forall i, j | 0 <= i < j < |sorted| ensures sorted[i].id != sorted[j].id {
      assert sorted[i] in players && sorted[j] in players;
      if sorted[i].id == sorted[j].id {
        RosterSeatsAreIds(players, sorted[i], sorted[j]);
      }
    }
  }

  lemma StatusKeepsRoster(players: seq<Player>, all: seq<Player>)
    requires Roster(players) && all == WithStatus(players, Active)
    ensures Roster(all) && RosterIds(all) == RosterIds(players) == ActiveIds(all)
  {
    forall p ensures p in RosterIds(all) <==> p in RosterIds(players) {
      if p in RosterIds(players) {
        var i :| 0 <= i < |players| && players[i].id == p;
        assert all[i] in all;
      }
      if p in RosterIds(all) {
        var i :| 0 <= i < |all| && all[i].id == p;
        assert players[i] in players;
      }
    }
  }

  lemma StarterSitsLowest(players: seq<Player>, seated: seq<Player>)
    requires Roster(players) && players != []
    requires seated == WithStatus(SortBySeat(players), Active)
    ensures ActiveSortedBySeat(WithStatus(players, Active)) != []
    ensures LowestFirst(seated, ActiveSortedBySeat(WithStatus(players, Active))[0].id)
  {
    hide ActiveSortedBySeat, Roster, SortBySeat, StrictlyBySeat;
    var all := WithStatus(players, Active);
    var order := ActiveSortedBySeat(all);
    assert all[0] in order;
    StatusKeepsRoster(players, all);
    ActiveIsStrictlySorted(all);
    FirstIsLowest(order);
    assert order[0] in all;
    var k :| 0 <= k < |all| && all[k] == order[0];
    assert players[k] in SortBySeat(players);
    var n: nat :| n < |seated| && SortBySeat(players)[n] == players[k];
    forall j | 0 <= j < |seated| ensures seated[n].seat <= seated[j].seat {
      assert SortBySeat(players)[j] in players;
      var i :| 0 <= i < |players| && players[i] == SortBySeat(players)[j];
      assert all[i] in order;
    }
    assert LowestActive(seated, n);
  }

  lemma FirstIsLowest(order: seq<Player>)
    requires StrictlyBySeat(order) && order != []
    ensures forall p <- order :: order[0].seat <= p.seat
  {
  }

  /** Seating the players: everybody is in the game, and the turn starts with the lowest seat. */
  lemma Seated(players: seq<Player>)
    requires Roster(players) && players != []
    ensures ActiveSortedBySeat(WithStatus(players, Active)) != []
    ensures var seated := WithStatus(SortBySeat(players), Active);
            && Roster(seated) && |seated| == |players|
            && LowestFirst(seated, ActiveSortedBySeat(WithStatus(players, Active))[0].id)
            && RosterIds(seated) == RosterIds(players) == ActiveIds(seated)
  {
    var sorted := SortBySeat(players);
    SortKeepsLength(players);
    SortIsStrict(players);
    SortedKeepsIds(players, sorted);
    StatusKeepsRoster(sorted, WithStatus(sorted, Active));
    StatusKeepsRoster(players, WithStatus(players, Active));
    StarterSitsLowest(players, WithStatus(sorted, Active));
  }

  // ---- Fairness over a run --------------------------------------------------------------

  /** One turn: the round state during it, the position of the player holding it, and the roster at its end. */
  datatype TurnRecord = TurnRecord(state: RoundState, who: nat, roster: seq<Player>)

  /** A run of turns; between one end-turn and the next only players other than the holder drop out. */
  ghost predicate TurnRun(first: seq<Player>, run: seq<TurnRecord>, phase: string) {
    && run != [] && Roster(first)
    && LowestActive(first, run[0].who) && Progress(first, run[0].roster)
    && (forall i :: 0 <= i < |run| ==> HoldsTurn(run[i]))
    && forall i {:trigger FollowsAt(run, i, phase)} :: 0 <= i < |run| - 1 ==> FollowsAt(run, i, phase)
  }

  ghost predicate FollowsAt(run: seq<TurnRecord>, i: int, phase: string)
    requires 0 <= i < |run| - 1
  {
    Follows(run[i], run[i + 1], phase)
  }

  ghost predicate HoldsTurn(t: TurnRecord) {
    && t.who < |t.roster| && t.roster[t.who].status == Active
    && t.state.turn.activePlayer == t.roster[t.who].id
  }

  ghost predicate Follows(t: TurnRecord, u: TurnRecord, phase: string) {
    && Progress(t.roster, u.roster)
    && EndTurn(t.state, t.roster, phase).Some? && EndTurn(t.state, t.roster, phase).value.0 == u.state
  }

  function Seat(t: TurnRecord): int
    requires t.who < |t.roster|
  {
    t.roster[t.who].seat
  }

  lemma ProgressKeepsRoster(before: seq<Player>, after: seq<Player>)
    requires Roster(before) && Progress(before, after)
    ensures Roster(after)
  {
  }

  lemma {:induction false} RunKeepsRoster(first: seq<Player>, run: seq<TurnRecord>, phase: string, i: nat)
    requires TurnRun(first, run, phase) && i < |run|
    ensures Roster(run[i].roster) && Progress(first, run[i].roster)
  {
    hide EndTurn, Roster;
    if i == 0 {
      ProgressKeepsRoster(first, run[0].roster);
    } else {
      RunKeepsRoster(first, run, phase, i - 1);
      assert FollowsAt(run, i - 1, phase);
      ProgressKeepsRoster(run[i - 1].roster, run[i].roster);
    }
  }

  lemma FindInRoster(players: seq<Player>, n: nat)
    requires Roster(players) && n < |players|
    ensures FindIndex(players, players[n].id) == n
  {
    assert players[n] in players;
  }

  /** One end-turn: the round stays and the turn moves to the next higher active seat, or the round counter
      rises by one and the turn moves to the lowest active seat, the latter exactly when nobody sits higher. */
  lemma StepOfTurn(t: TurnRecord, u: TurnRecord, phase: string)
    requires HoldsTurn(t) && HoldsTurn(u) && Follows(t, u, phase) && Roster(t.roster)
    ensures if NobodyAfter(t.roster, Seat(t))
            then u.state.round == t.state.round + 1 && LowestActive(t.roster, u.who) && Seat(u) <= Seat(t)
            else u.state.round == t.state.round && NextAfter(t.roster, Seat(t), u.who) && Seat(t) < Seat(u)
  {
    var n := ClockwiseIsSeatSuccessor(t.roster, t.who);
    FindInRoster(t.roster, t.who);
    FindInRoster(t.roster, n);
    hide ClockwiseNext, NobodyAfter, LowestActive, NextAfter, FindIndex;
    ProgressKeepsRoster(t.roster, u.roster);
    FindInRoster(u.roster, u.who);
    FindInRoster(u.roster, n);
    assert u.who == n;
    hide Roster;
    SuccessorSeats(t.roster, t.who, n);
  }

  lemma SuccessorSeats(players: seq<Player>, k: nat, n: nat)
    requires k < |players| && players[k].status == Active
    ensures NobodyAfter(players, players[k].seat) && LowestActive(players, n) ==> players[n].seat <= players[k].seat
    ensures NextAfter(players, players[k].seat, n) ==> players[k].seat < players[n].seat
  {
  }

  /** Turns lo .. hi make up one whole round. */
  ghost predicate WholeRound(run: seq<TurnRecord>, lo: nat, hi: nat) {
    && lo <= hi < |run| - 1
    && (lo == 0 || run[lo - 1].state.round < run[lo].state.round)
    && (forall i :: lo <= i <= hi ==> run[i].state.round == run[lo].state.round)
    && run[hi].state.round < run[hi + 1].state.round
  }

  lemma {:induction false} SeatsRise(first: seq<Player>, run: seq<TurnRecord>, phase: string, i: nat, j: nat)
    requires TurnRun(first, run, phase) && i < j < |run|
    requires forall k :: i <= k <= j ==> run[k].state.round == run[i].state.round
    ensures run[i].who < |run[i].roster| && run[j].who < |run[j].roster|
    ensures Seat(run[i]) < Seat(run[j])
  {
    hide TurnRun, Roster, LowestActive, NextAfter, NobodyAfter, Progress, EndTurn, Seat;
    StepOfRun(first, run, phase, j - 1);
    if i < j - 1 {
      SeatsRise(first, run, phase, i, j - 1);
    }
  }

  /** Whoever sits no higher than the holder of turn i, and is still in, has had a turn since the round began. */
  lemma {:induction false} LowerSeatsHavePlayed(first: seq<Player>, run: seq<TurnRecord>, phase: string,
                                                lo: nat, i: nat, p: nat) returns (t: nat)
    requires TurnRun(first, run, phase) && lo <= i < |run|
    requires lo == 0 || run[lo - 1].state.round < run[lo].state.round
    requires forall k :: lo <= k <= i ==> run[k].state.round == run[lo].state.round
    requires run[i].who < |run[i].roster|
    requires p < |run[i].roster| && run[i].roster[p].status == Active && run[i].roster[p].seat <= Seat(run[i])
    ensures lo <= t <= i && run[t].who == p
    decreases i
  {
    hide TurnRun, Roster, LowestActive, NextAfter, NobodyAfter, Progress, EndTurn;
    if i == lo {
      FirstOfRound(first, run, phase, lo, p);
      t := i;
    } else {
      StepOfRun(first, run, phase, i - 1);
      StillIn(run[i - 1].roster, run[i].roster, p);
      if run[i - 1].roster[p].seat <= Seat(run[i - 1]) {
        t := LowerSeatsHavePlayed(first, run, phase, lo, i - 1, p);
      } else {
        SomebodyIsAfter(run[i - 1].roster, Seat(run[i - 1]), p);
        RunKeepsRoster(first, run, phase, i - 1);
        NextIsUnique(run[i - 1].roster, run[i].roster, Seat(run[i - 1]), run[i].who, p);
        t := i;
      }
    }
  }

  lemma FirstOfRound(first: seq<Player>, run: seq<TurnRecord>, phase: string, lo: nat, p: nat)
    requires TurnRun(first, run, phase) && lo < |run|
    requires lo == 0 || run[lo - 1].state.round < run[lo].state.round
    requires run[lo].who < |run[lo].roster|
    requires p < |run[lo].roster| && run[lo].roster[p].status == Active && run[lo].roster[p].seat <= Seat(run[lo])
    ensures p == run[lo].who
  {
    hide TurnRun, Roster, LowestActive, NextAfter, NobodyAfter, Progress, EndTurn;
    if lo > 0 {
      RunKeepsRoster(first, run, phase, lo - 1);
      StepOfRun(first, run, phase, lo - 1);
      LowestIsUnique(run[lo - 1].roster, run[lo].roster, run[lo].who, p);
    } else {
      RunOpens(first, run, phase);
      LowestIsUnique(first, run[0].roster, run[0].who, p);
    }
  }

  lemma SomebodyIsAfter(players: seq<Player>, seat: int, p: nat)
    requires p < |players| && players[p].status == Active && seat < players[p].seat
    ensures !NobodyAfter(players, seat)
  {
  }

  lemma StillIn(before: seq<Player>, after: seq<Player>, p: nat)
    requires Progress(before, after) && p < |after| && after[p].status == Active
    ensures p < |before| && before[p].status == Active && before[p].seat == after[p].seat
  {
  }

  lemma StepOfRun(first: seq<Player>, run: seq<TurnRecord>, phase: string, i: nat)
    requires TurnRun(first, run, phase) && i + 1 < |run|
    ensures HoldsTurn(run[i]) && HoldsTurn(run[i + 1]) && Progress(run[i].roster, run[i + 1].roster)
    ensures if NobodyAfter(run[i].roster, Seat(run[i]))
            then run[i + 1].state.round == run[i].state.round + 1
                 && LowestActive(run[i].roster, run[i + 1].who) && Seat(run[i + 1]) <= Seat(run[i])
            else run[i + 1].state.round == run[i].state.round
                 && NextAfter(run[i].roster, Seat(run[i]), run[i + 1].who) && Seat(run[i]) < Seat(run[i + 1])
  {
    hide EndTurn, Roster, LowestActive, NextAfter, NobodyAfter, Progress;
    RunKeepsRoster(first, run, phase, i);
    assert FollowsAt(run, i, phase);
    StepOfTurn(run[i], run[i + 1], phase);
  }

  lemma RunOpens(first: seq<Player>, run: seq<TurnRecord>, phase: string)
    requires TurnRun(first, run, phase)
    ensures Roster(first) && LowestActive(first, run[0].who) && Progress(first, run[0].roster)
    ensures forall i :: 0 <= i < |run| ==> HoldsTurn(run[i])
  {
  }

  lemma LowestIsUnique(before: seq<Player>, after: seq<Player>, n: nat, p: nat)
    requires Roster(before) && Progress(before, after) && LowestActive(before, n)
    requires p < |after| && after[p].status == Active && after[p].seat <= after[n].seat
    ensures p == n
  {
  }

  lemma NextIsUnique(before: seq<Player>, after: seq<Player>, seat: int, n: nat, p: nat)
    requires Roster(before) && Progress(before, after) && NextAfter(before, seat, n)
    requires p < |after| && after[p].status == Active && seat < after[p].seat <= after[n].seat
    ensures p == n
  {
  }

  /** In a whole round, whatever happens to the others, everybody still in at its end took exactly one turn. */
  lemma EverybodyPlaysOncePerRound(first: seq<Player>, run: seq<TurnRecord>, phase: string,
                                   lo: nat, hi: nat, p: nat) returns (t: nat)
    requires TurnRun(first, run, phase) && WholeRound(run, lo, hi)
    requires p < |run[hi].roster| && run[hi].roster[p].status == Active
    ensures lo <= t <= hi && run[t].who == p
    ensures forall other :: lo <= other <= hi && run[other].who == p ==> other == t
  {
    hide TurnRun, Roster, LowestActive, NextAfter, Progress, EndTurn, Seat;
    StepOfRun(first, run, phase, hi);
    LastIsHighest(run[hi].roster, run[hi], p);
    t := LowerSeatsHavePlayed(first, run, phase, lo, hi, p);
    forall other | lo <= other <= hi && run[other].who == p ensures other == t {
      if other != t {
        var a, b := if other < t then other else t, if other < t then t else other;
        SeatsRise(first, run, phase, a, b);
        SeatsStay(first, run, phase, a, b, p);
      }
    }
  }

  lemma LastIsHighest(players: seq<Player>, t: TurnRecord, p: nat)
    requires t.who < |t.roster| && NobodyAfter(players, Seat(t)) && players == t.roster
    requires p < |players| && players[p].status == Active
    ensures players[p].seat <= Seat(t)
  {
  }

  lemma SeatsStay(first: seq<Player>, run: seq<TurnRecord>, phase: string, a: nat, b: nat, p: nat)
    requires TurnRun(first, run, phase) && a < |run| && b < |run|
    requires p < |run[a].roster| && run[a].who == p == run[b].who
    ensures p < |run[b].roster| && Seat(run[a]) == Seat(run[b])
  {
    hide TurnRun, Roster;
    RunKeepsRoster(first, run, phase, a);
    RunKeepsRoster(first, run, phase, b);
  }

  // ---- Snake order --------------------------------------------------------------------------

  /** The player named, None for the exception, and the direction afterwards. */
  function SnakeNext(forward: bool, current: PlayerId, players: seq<Player>): (Option<PlayerId>, bool) {
    var active := ActiveSortedBySeat(players);
    if active == [] then (None, forward)
    else
      var idx := FindIndex(active, current);
      if idx < 0 then (Some(active[0].id), forward)
      else if forward && idx == |active| - 1 then (Some(active[idx].id), false)
      else if !forward && idx == 0 then (Some(active[0].id), true)
      else (Some(active[if forward then idx + 1 else idx - 1].id), forward)
  }

  class SnakeTurnOrder {
    var goingForward: bool

    constructor ()
      ensures goingForward
    {
      goingForward := true;
    }

    method Next(current: PlayerId, players: seq<Player>) returns (next: Option<PlayerId>)
      modifies this
      ensures (next, goingForward) == SnakeNext(old(goingForward), current, players)
      ensures next.None? <==> forall p <- players :: p.status == Eliminated
      ensures next.Some? ==> exists p <- players :: p.status == Active && p.id == next.value
    {
      var active := ActiveSortedBySeat(players);
      if active == [] {
        forall p | p in players ensures p.status == Eliminated {
          assert p !in active;
        }
        return None;
      }
      assert active[0] in active;
      var idx := FindIndex(active, current);
      if idx < 0 {
        return Some(active[0].id);
      }
      if goingForward && idx == |active| - 1 {
        goingForward := false;
        assert active[idx] in active;
        return Some(active[idx].id);
      }
      if !goingForward && idx == 0 {
        goingForward := true;
        return Some(active[0].id);
      }
      var step := if goingForward then idx + 1 else idx - 1;
      assert active[step] in active;
      next := Some(active[step].id);
    }
  }

  /** Feeding the order its own answers, starting from the first active player. */
  function SnakeWalk(players: seq<Player>, t: nat): (PlayerId, bool)
    requires ActiveSortedBySeat(players) != []
  {
    if t == 0 then (ActiveSortedBySeat(players)[0].id, true)
    else
      var (current, forward) := SnakeWalk(players, t - 1);
      var (next, f) := SnakeNext(forward, current, players);
      (next.value, f)
  }

  /** Forward through n places, then back, the ends doubled: period 2n. */
  function SnakePosition(n: nat, t: nat): (i: nat)
    requires n > 0
    ensures i < n
  {
    var m := t % (2 * n);
    if m < n then m else 2 * n - 1 - m
  }

  predicate SnakeForward(n: nat, t: nat)
    requires n > 0
  {
    t % (2 * n) < n
  }

  lemma SnakePositionStep(n: nat, t: nat)
    requires n > 0 && t > 0
    ensures var i, forward := SnakePosition(n, t - 1), SnakeForward(n, t - 1);
            && SnakePosition(n, t) == (if forward then (if i == n - 1 then i else i + 1)
                                       else (if i == 0 then 0 else i - 1))
            && (SnakeForward(n, t) <==> if forward then i < n - 1 else i == 0)
  {
    ModSuccessor(t - 1, 2 * n);
  }

  lemma SnakeNextInSorted(players: seq<Player>, i: nat, forward: bool)
    requires Roster(players) && i < |ActiveSortedBySeat(players)|
    ensures var a := ActiveSortedBySeat(players);
            SnakeNext(forward, a[i].id, players) ==
            if forward then (if i == |a| - 1 then (Some(a[i].id), false) else (Some(a[i + 1].id), true))
            else (if i == 0 then (Some(a[0].id), true) else (Some(a[i - 1].id), false))
  {
    hide ActiveSortedBySeat, FindIndex, Roster, StrictlyBySeat;
    ActiveIsStrictlySorted(players);
    FindInSorted(players, ActiveSortedBySeat(players), i);
  }

  /** Driven by its own answers over fixed players, the snake follows the closed form, ends doubled. */
  lemma {:induction false} SnakeWalkClosedForm(players: seq<Player>, t: nat)
    requires Roster(players) && ActiveSortedBySeat(players) != []
    ensures var a := ActiveSortedBySeat(players);
            SnakeWalk(players, t) == (a[SnakePosition(|a|, t)].id, SnakeForward(|a|, t))
  {
    hide SnakePosition, SnakeForward, SnakeNext, Roster, ActiveSortedBySeat;
    var a := ActiveSortedBySeat(players);
    var n := |a|;
    if t == 0 {
      SnakeStart(n);
    } else {
      SnakePositionStep(n, t);
      SnakeWalkClosedForm(players, t - 1);
      SnakeNextInSorted(players, SnakePosition(n, t - 1), SnakeForward(n, t - 1));
    }
  }

  lemma SnakeStart(n: nat)
    requires n > 0
    ensures SnakePosition(n, 0) == 0 && SnakeForward(n, 0)
  {
  }

  function Times(d: nat, q: nat): nat { d * q }

  lemma ModSuccessor(t: nat, d: nat)
    requires d > 0
    ensures (t + 1) % d == if t % d == d - 1 then 0 else t % d + 1
  {
    hide Times;
    DivisionLaw(t, d);
    TimesNext(d, t / d);
    if t % d == d - 1 {
      RemainderIs(t + 1, d, t / d + 1, 0);
    } else {
      RemainderIs(t + 1, d, t / d, t % d + 1);
    }
  }

  lemma RemainderIs(x: nat, d: nat, q: nat, r: nat)
    requires r < d && x == Times(d, q) + r
    ensures x % d == r
  {
    hide Times;
    var q' := x / d;
    DivisionLaw(x, d);
    TimesNext(d, q);
    TimesNext(d, q');
    if q' < q {
      TimesMonotone(d, q' + 1, q);
    } else if q < q' {
      TimesMonotone(d, q + 1, q');
    }
  }

  lemma DivisionLaw(x: nat, d: nat)
    requires d > 0
    ensures x == Times(d, x / d) + x % d && x % d < d
  {
  }

  lemma TimesNext(d: nat, q: nat)
    ensures Times(d, q + 1) == Times(d, q) + d
  {
  }

  lemma TimesMonotone(d: nat, a: nat, b: nat)
    requires a <= b
    ensures Times(d, a) <= Times(d, b)
  {
  }
}
