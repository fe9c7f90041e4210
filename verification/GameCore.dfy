/**
 * The game loop shared by all scenarios: validate, execute, stamp the events, journal the action, decide victory.
 * A scenario is a record of three functions; neither scenario registers follow-up rules.
 */
module GameCore {
  import opened Collections

  datatype Executed<S, E> = Done(state: S, events: seq<E>) | Threw

  datatype Rules<!S, !A, !E, !V, !R> = Rules(
    validate: (S, A) -> Option<R>, execute: (S, A) -> Executed<S, E>, victory: S -> Option<V>)

  /** What goes out: an event of the game, or its end. */
  datatype Body<E, V> = Played(event: E) | GameEnded(victory: V)

  datatype Stamped<E, V> = Stamped(seqNo: nat, body: Body<E, V>)

  datatype Entry<A, E, V> = Entry(seqNo: nat, action: A, events: seq<Stamped<E, V>>)

  datatype Status = Lobby | InSetup | Playing | Ended

  /** Everything a game owns; `heard` is what a listener to all events has received. */
  datatype Core<S, A, E, V> = Core(
    state: S, status: Status, nextSeq: nat, heard: seq<Stamped<E, V>>, history: seq<Entry<A, E, V>>)

  datatype Response<S, A, E, V, R> =
    | Rejected(error: R)
    | Accepted(core: Core<S, A, E, V>, events: seq<Stamped<E, V>>)
    | Crashed

  function Stamp<E, V>(events: seq<E>, from: nat): (r: seq<Stamped<E, V>>)
    ensures |r| == |events| && forall i :: 0 <= i < |r| ==> r[i] == Stamped(from + i, Played(events[i]))
  {
    seq(|events|, i requires 0 <= i < |events| => Stamped(from + i, Played(events[i])))
  }

  /** Ending a game that has ended already is an illegal transition. */
  function Respond<S, A, E, V, R>(rules: Rules<S, A, E, V, R>, core: Core<S, A, E, V>, action: A): Response<S, A, E, V, R> {
    var error := rules.validate(core.state, action);
    if error.Some? then Rejected(error.value)
    else
      match rules.execute(core.state, action)
      case Threw => Crashed
      case Done(state, events) =>
        var stamped := Stamp<E, V>(events, core.nextSeq);
        var journaled := Core(state, core.status, core.nextSeq + |events|, core.heard + stamped,
                              core.history + [Entry(|core.history| + 1, action, stamped)]);
        match rules.victory(state)
        case None => Accepted(journaled, stamped)
        case Some(v) =>
          if core.status == Ended then Crashed
          else
            var last := Stamped(journaled.nextSeq, GameEnded(v));
            Accepted(journaled.(status := Ended, nextSeq := journaled.nextSeq + 1, heard := journaled.heard + [last]),
                     stamped + [last])
  }

  // ---- The moving parts -----------------------------------------------------------------------

  class GameEventEmitter<E, V> {
    var nextSeq: nat
    var heard: seq<Stamped<E, V>>

    constructor ()
      ensures nextSeq == 1 && heard == []
    {
      nextSeq := 1;
      heard := [];
    }

    method Emit(body: Body<E, V>) returns (stamped: Stamped<E, V>)
      modifies this
      ensures stamped == Stamped(old(nextSeq), body)
      ensures nextSeq == old(nextSeq) + 1 && heard == old(heard) + [stamped]
    {
      stamped := Stamped(nextSeq, body);
      nextSeq := nextSeq + 1;
      heard := heard + [stamped];
    }
  }

  class ActionHistory<A, E, V> {
    var entries: seq<Entry<A, E, V>>

    constructor ()
      ensures entries == []
    {
      entries := [];
    }

    method Append(action: A, events: seq<Stamped<E, V>>) returns (entry: Entry<A, E, V>)
      modifies this
      ensures entry == Entry(|old(entries)| + 1, action, events) && entries == old(entries) + [entry]
    {
      entry := Entry(|entries| + 1, action, events);
      entries := entries + [entry];
    }

    function Since(seqNo: int): seq<Entry<A, E, V>>
      reads this
    {
      After(entries, seqNo)
    }
  }

  function After<A, E, V>(entries: seq<Entry<A, E, V>>, seqNo: int): seq<Entry<A, E, V>> {
    if entries == [] then []
    else
      var rest := After(entries[1..], seqNo);
      if entries[0].seqNo > seqNo then [entries[0]] + rest else rest
  }

  ghost predicate Numbered<A, E, V>(entries: seq<Entry<A, E, V>>, from: nat) {
    forall i :: 0 <= i < |entries| ==> entries[i].seqNo == from + i
  }

  /** With entries numbered in order, asking for those after a number drops exactly that many. */
  lemma {:induction false} SinceIsSuffix<A, E, V>(entries: seq<Entry<A, E, V>>, from: nat, seqNo: nat)
    requires Numbered(entries, from) && from <= seqNo + 1 <= from + |entries|
    ensures After(entries, seqNo) == entries[seqNo + 1 - from..]
  {
    if entries != [] {
      assert Numbered(entries[1..], from + 1);
      if from <= seqNo {
        SinceIsSuffix(entries[1..], from + 1, seqNo);
      } else {
        NothingDropped(entries, seqNo);
      }
    }
  }

  lemma {:induction false} NothingDropped<A, E, V>(entries: seq<Entry<A, E, V>>, seqNo: int)
    requires forall i :: 0 <= i < |entries| ==> entries[i].seqNo > seqNo
    ensures After(entries, seqNo) == entries
  {
    if entries != [] {
      NothingDropped(entries[1..], seqNo);
    }
  }

  class Game<S, A, E, V, R> {
    const rules: Rules<S, A, E, V, R>
    const events: GameEventEmitter<E, V>
    const history: ActionHistory<A, E, V>
    var state: S
    var status: Status

    function Now(): Core<S, A, E, V>
      reads this, events, history
    {
      Core(state, status, events.nextSeq, events.heard, history.entries)
    }

    constructor (rules: Rules<S, A, E, V, R>, state: S, status: Status)
      ensures this.rules == rules && fresh(events) && fresh(history)
      ensures Now() == Core(state, status, 1, [], [])
    {
      this.rules := rules;
      events := new GameEventEmitter();
      history := new ActionHistory();
      this.state := state;
      this.status := status;
    }

    method Start()
      modifies this`status
      ensures status == if old(status) == InSetup then Playing else old(status)
    {
      if status == InSetup {
        status := Playing;
      }
    }

    /** Nothing is promised about a game whose submission crashed. */
    method Submit(action: A) returns (r: Response<S, A, E, V, R>)
      modifies this, events, history
      ensures r == Respond(rules, old(Now()), action)
      ensures r.Rejected? ==> Now() == old(Now())
      ensures r.Accepted? ==> Now() == r.core
    {
      var error := rules.validate(state, action);
      if error.Some? {
        return Rejected(error.value);
      }
      var executed := rules.execute(state, action);
      if executed.Threw? {
        return Crashed;
      }
      state := executed.state;
      var stamped: seq<Stamped<E, V>> := [];
      for i := 0 to |executed.events|
        invariant events.nextSeq == old(events.nextSeq) + i && events.heard == old(events.heard) + stamped
        invariant stamped == Stamp(executed.events[..i], old(events.nextSeq))
        invariant state == executed.state && status == old(status) && history.entries == old(history.entries)
      {
        var e := events.Emit(Played(executed.events[i]));
        stamped := stamped + [e];
        assert stamped == Stamp(executed.events[..i + 1], old(events.nextSeq));
      }
      assert executed.events[..|executed.events|] == executed.events;
      var entry := history.Append(action, stamped);
      var victory := rules.victory(state);
      if victory.Some? {
        if status == Ended {
          return Crashed;
        }
        status := Ended;
        var last := events.Emit(GameEnded(victory.value));
        assert events.heard == old(events.heard) + stamped + [last];
        return Accepted(Now(), stamped + [last]);
      }
      r := Accepted(Now(), stamped);
    }
  }

  // ---- Sessions --------------------------------------------------------------------------------

  /** A game from its start; the engine drops it when it ends, so nothing is submitted after that.  None when a
      submission crashed. */
  function Session<S, A, E, V, R>(rules: Rules<S, A, E, V, R>, start: Core<S, A, E, V>, actions: seq<A>):
      Option<Core<S, A, E, V>>
  {
    if actions == [] then Some(start)
    else
      match Session(rules, start, actions[..|actions| - 1])
      case None => None
      case Some(core) =>
        if core.status == Ended then Some(core)
        else match Respond(rules, core, actions[|actions| - 1])
             case Rejected(_) => Some(core)
             case Accepted(after, _) => Some(after)
             case Crashed => None
  }

  function Begin<S, A, E, V>(state: S): Core<S, A, E, V> {
    Core(state, Playing, 1, [], [])
  }

  /** Executing journaled actions one after the other, each of which must be valid where it is replayed. */
  function Replay<S, A, E, V, R>(rules: Rules<S, A, E, V, R>, state: S, entries: seq<Entry<A, E, V>>): Option<S> {
    if entries == [] then Some(state)
    else
      match Replay(rules, state, entries[..|entries| - 1])
      case None => None
      case Some(s) =>
        var action := entries[|entries| - 1].action;
        if rules.validate(s, action).Some? then None
        else match rules.execute(s, action)
             case Threw => None
             case Done(after, _) => Some(after)
  }

  function Journaled<A, E, V>(entries: seq<Entry<A, E, V>>): seq<Stamped<E, V>> {
    if entries == [] then [] else Journaled(entries[..|entries| - 1]) + entries[|entries| - 1].events
  }

  ghost predicate InOrder<E, V>(events: seq<Stamped<E, V>>) {
    forall i :: 0 <= i < |events| ==> events[i].seqNo == i + 1
  }

  /** The journal replays to the current state; events are numbered 1, 2, 3, ... in the order they went out; entries
      likewise; what went out is what the journal holds, followed by one game-ended event if the game is over; and once
      anything has been done, the game is over exactly if the victory condition holds. */
  ghost predicate Faithful<S, A, E, V, R>(rules: Rules<S, A, E, V, R>, initial: S, core: Core<S, A, E, V>) {
    && Replay(rules, initial, core.history) == Some(core.state)
    && InOrder(core.heard) && core.nextSeq == |core.heard| + 1
    && Numbered(core.history, 1)
    && core.heard == Journaled(core.history) + Ending(rules, core)
    && (forall e <- Journaled(core.history) :: e.body.Played?)
    && (core.history != [] ==> (core.status == Ended <==> rules.victory(core.state).Some?))
    && (core.status == Ended ==> core.history != [])
  }

  function Ending<S, A, E, V, R>(rules: Rules<S, A, E, V, R>, core: Core<S, A, E, V>): seq<Stamped<E, V>> {
    if core.status == Ended && rules.victory(core.state).Some?
    then [Stamped(|Journaled(core.history)| + 1, GameEnded(rules.victory(core.state).value))] else []
  }

  /** A submission is turned down exactly with the validator's error, and what an accepted one answers is what goes out. */
  lemma ResponseTells<S, A, E, V, R>(rules: Rules<S, A, E, V, R>, core: Core<S, A, E, V>, action: A, e: R)
    ensures Respond(rules, core, action) == Rejected(e) <==> rules.validate(core.state, action) == Some(e)
    ensures var r := Respond(rules, core, action);
            r.Accepted? ==> r.core.heard == core.heard + r.events && r.core.history != []
                            && r.core.history[|r.core.history| - 1].action == action
  {
  }

  lemma JournalGrows<A, E, V>(history: seq<Entry<A, E, V>>, entry: Entry<A, E, V>)
    ensures Journaled(history + [entry]) == Journaled(history) + entry.events
  {
    assert (history + [entry])[..|history|] == history;
  }

  lemma ReplayGrows<S, A, E, V, R>(rules: Rules<S, A, E, V, R>, initial: S, history: seq<Entry<A, E, V>>,
                                   entry: Entry<A, E, V>, s: S)
    requires Replay(rules, initial, history) == Some(s)
    requires rules.validate(s, entry.action).None? && rules.execute(s, entry.action).Done?
    ensures Replay(rules, initial, history + [entry]) == Some(rules.execute(s, entry.action).state)
  {
    assert (history + [entry])[..|history|] == history;
  }

  lemma StampedAreInOrder<E, V>(heard: seq<Stamped<E, V>>, events: seq<E>)
    requires InOrder(heard)
    ensures InOrder(heard + Stamp<E, V>(events, |heard| + 1))
  {
  }

  lemma LastInOrder<E, V>(heard: seq<Stamped<E, V>>, last: Stamped<E, V>)
    requires InOrder(heard) && last.seqNo == |heard| + 1
    ensures InOrder(heard + [last])
  {
  }

  /** The journal of a submission that did not end the game before. */
  lemma SubmitIsFaithful<S, A, E, V, R>(rules: Rules<S, A, E, V, R>, initial: S, core: Core<S, A, E, V>, action: A)
    requires Faithful(rules, initial, core) && core.status != Ended
    requires Respond(rules, core, action).Accepted?
    ensures Faithful(rules, initial, Respond(rules, core, action).core)
  {
    hide InOrder, Replay, Journaled, Stamp;
    var executed := rules.execute(core.state, action);
    var stamped := Stamp<E, V>(executed.events, core.nextSeq);
    var entry := Entry(|core.history| + 1, action, stamped);
    var after := Respond(rules, core, action).core;
    assert core.heard + [] == core.heard;
    assert core.heard == Journaled(core.history);
    JournalGrows(core.history, entry);
    ReplayGrows(rules, initial, core.history, entry, core.state);
    StampedAreInOrder(core.heard, executed.events);
    assert forall e <- Journaled(after.history) :: e.body.Played? by {
      forall e | e in Journaled(core.history) + stamped ensures e.body.Played? {
      }
    }
    if after.status == Ended {
      LastInOrder(core.heard + stamped, after.heard[|after.heard| - 1]);
    }
  }

  /** At every point of every session. */
  lemma {:induction false} SessionIsFaithful<S, A, E, V, R>(rules: Rules<S, A, E, V, R>, initial: S, actions: seq<A>)
    requires Session(rules, Begin(initial), actions).Some?
    ensures Faithful(rules, initial, Session(rules, Begin(initial), actions).value)
  {
    hide Respond, Faithful;
    if actions == [] {
      BeginIsFaithful(rules, initial);
    } else {
      SessionIsFaithful(rules, initial, actions[..|actions| - 1]);
      var core := Session(rules, Begin(initial), actions[..|actions| - 1]).value;
      if core.status != Ended && Respond(rules, core, actions[|actions| - 1]).Accepted? {
        SubmitIsFaithful(rules, initial, core, actions[|actions| - 1]);
      }
    }
  }

  lemma BeginIsFaithful<S, A, E, V, R>(rules: Rules<S, A, E, V, R>, initial: S)
    ensures Faithful(rules, initial, Begin(initial))
  {
  }

  /** A state predicate that valid actions keep, and under which they never throw. */
  ghost predicate Sound<S(!new), A(!new), E, V, R>(rules: Rules<S, A, E, V, R>, inv: S -> bool) {
    forall s, a :: inv(s) && rules.validate(s, a).None? ==>
                     rules.execute(s, a).Done? && inv(rules.execute(s, a).state)
  }

  /** Under sound rules no session crashes. */
  lemma {:induction false} SoundSessionsRun<S(!new), A(!new), E, V, R>(rules: Rules<S, A, E, V, R>, inv: S -> bool,
                                                                       initial: S, actions: seq<A>)
    requires Sound(rules, inv) && inv(initial)
    ensures Session(rules, Begin(initial), actions).Some?
    ensures inv(Session(rules, Begin(initial), actions).value.state)
  {
    if actions != [] {
      SoundSessionsRun(rules, inv, initial, actions[..|actions| - 1]);
    }
  }
}
