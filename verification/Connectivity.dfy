/**
 * Supply connectivity: breadth-first search from a capital through owned territory,
 * where a gate bridges one unowned tile.
 */
module Connectivity {
  import opened Collections
  import opened Hex
  import opened Board

  /** Supply passes from t to u: to an adjacent owned tile, or from a gate through one unowned tile. */
  ghost predicate SupplyStep<T>(m: GameMap<T>, owned: set<Coord>, gates: set<Coord>, t: Coord, u: Coord) {
    && t in m.tiles && u in m.tiles && u in owned
    && (IsNeighbour(t, u) || (t in gates && exists pass :: Bridge(m, owned, t, pass, u)))
  }

  ghost predicate Bridge<T>(m: GameMap<T>, owned: set<Coord>, t: Coord, pass: Coord, u: Coord) {
    pass in m.tiles && pass !in owned && IsNeighbour(t, pass) && IsNeighbour(pass, u)
  }

  ghost predicate Closed<T>(m: GameMap<T>, owned: set<Coord>, gates: set<Coord>, s: set<Coord>) {
    forall t, u :: t in s && SupplyStep(m, owned, gates, t, u) ==> u in s
  }

  /** A supply area: holds the capital and is closed under supply. */
  ghost predicate Area<T>(m: GameMap<T>, capital: Coord, owned: set<Coord>, gates: set<Coord>, s: set<Coord>) {
    capital in s && Closed(m, owned, gates, s)
  }

  /** What every supply area of an owned capital contains; nothing when the capital is not owned. */
  ghost function Connected<T>(m: GameMap<T>, capital: Coord, owned: set<Coord>, gates: set<Coord>): set<Coord> {
    if capital !in owned then {}
    else set t | t in owned && forall s: set<Coord> :: Area(m, capital, owned, gates, s) ==> t in s
  }

  /** It is itself a supply area, so it is the least one, and it never leaves owned territory. */
  lemma ConnectedIsLeastArea<T>(m: GameMap<T>, capital: Coord, owned: set<Coord>, gates: set<Coord>, s: set<Coord>)
    requires capital in owned
    ensures Area(m, capital, owned, gates, Connected(m, capital, owned, gates))
    ensures Area(m, capital, owned, gates, s) ==> Connected(m, capital, owned, gates) <= s
    ensures Connected(m, capital, owned, gates) <= owned
  {
    hide SupplyStep;
    var c := Connected(m, capital, owned, gates);
    forall t, u | t in c && SupplyStep(m, owned, gates, t, u) ensures u in c {
      assert u in owned by { StepIsOwned(m, owned, gates, t, u); }
      forall a: set<Coord> | Area(m, capital, owned, gates, a) ensures u in a {
        assert t in a;
      }
    }
  }

  lemma StepIsOwned<T>(m: GameMap<T>, owned: set<Coord>, gates: set<Coord>, t: Coord, u: Coord)
    requires SupplyStep(m, owned, gates, t, u)
    ensures u in owned
  {
  }

  // ---- Supply lines -------------------------------------------------------

  /** A chain of supply steps. */
  ghost predicate SupplyLine<T>(m: GameMap<T>, owned: set<Coord>, gates: set<Coord>, line: seq<Coord>) {
    && line != []
    && forall i :: 0 <= i < |line| - 1 ==> SupplyStep(m, owned, gates, line[i], line[i + 1])
  }

  ghost predicate LineBetween<T>(m: GameMap<T>, owned: set<Coord>, gates: set<Coord>,
                                 line: seq<Coord>, first: Coord, last: Coord) {
    SupplyLine(m, owned, gates, line) && line[0] == first && line[|line| - 1] == last
  }

  lemma {:induction false} LineStaysConnected<T>(m: GameMap<T>, capital: Coord, owned: set<Coord>, gates: set<Coord>,
                                                 line: seq<Coord>)
    requires capital in owned
    requires SupplyLine(m, owned, gates, line) && line[0] == capital
    ensures line[|line| - 1] in Connected(m, capital, owned, gates)
    decreases |line|
  {
    hide SupplyStep;
    ConnectedIsLeastArea(m, capital, owned, gates, {});
    if |line| > 1 {
      var init := line[..|line| - 1];
      assert forall i :: 0 <= i < |init| - 1 ==> SupplyStep(m, owned, gates, line[i], line[i + 1]);
      LineStaysConnected(m, capital, owned, gates, init);
      hide Connected;
      assert SupplyStep(m, owned, gates, line[|line| - 2], line[|line| - 1]);
    }
  }

  /** A tile is connected exactly when some supply line runs to it from the owned capital. */
  lemma ConnectedIffSupplyLine<T>(m: GameMap<T>, capital: Coord, owned: set<Coord>, gates: set<Coord>, tile: Coord)
    ensures tile in Connected(m, capital, owned, gates) <==>
            capital in owned && exists line :: LineBetween(m, owned, gates, line, capital, tile)
  {
    if capital in owned {
      if line :| LineBetween(m, owned, gates, line, capital, tile) {
        LineStaysConnected(m, capital, owned, gates, line);
      }
      if tile in Connected(m, capital, owned, gates) {
        var reached := set t | t in owned && exists line :: LineBetween(m, owned, gates, line, capital, t);
        hide SupplyStep;
        assert LineBetween(m, owned, gates, [capital], capital, capital);
        forall t, u | t in reached && SupplyStep(m, owned, gates, t, u) ensures u in reached {
          StepIsOwned(m, owned, gates, t, u);
          var line :| LineBetween(m, owned, gates, line, capital, t);
          assert LineBetween(m, owned, gates, line + [u], capital, u);
        }
        ConnectedIsLeastArea(m, capital, owned, gates, reached);
      }
    }
  }

  // ---- Monotonicity -------------------------------------------------------

  /** More territory or more gates never cut a tile off, although a gate bridges only unowned tiles:
      a pass-through tile that becomes owned carries the supply itself. */
  lemma ConnectedIsMonotone<T>(m: GameMap<T>, capital: Coord, owned: set<Coord>, gates: set<Coord>,
                               owned': set<Coord>, gates': set<Coord>)
    requires owned <= owned' && gates <= gates'
    ensures Connected(m, capital, owned, gates) <= Connected(m, capital, owned', gates')
  {
    if capital in owned {
      var c' := Connected(m, capital, owned', gates');
      ConnectedIsLeastArea(m, capital, owned', gates', {});
      hide Connected;
      forall t, u | t in c' && SupplyStep(m, owned, gates, t, u) ensures u in c' {
        if !IsNeighbour(t, u) {
          var pass :| Bridge(m, owned, t, pass, u);
          if pass in owned' {
            assert SupplyStep(m, owned', gates', t, pass);
            assert SupplyStep(m, owned', gates', pass, u);
          } else {
            assert Bridge(m, owned', t, pass, u);
            assert SupplyStep(m, owned', gates', t, u);
          }
        } else {
          assert SupplyStep(m, owned', gates', t, u);
        }
      }
      ConnectedIsLeastArea(m, capital, owned, gates, c');
    }
  }

  // ---- The search ---------------------------------------------------------

  predicate Found(visited: set<Coord>, queue: seq<Coord>, t: Coord) {
    t in visited || t in queue
  }

  /** The first k neighbours of a visited tile have been dealt with. */
  ghost predicate Explored<T>(m: GameMap<T>, owned: set<Coord>, gates: set<Coord>, current: Coord,
                              neighbours: seq<Coord>, k: nat, visited: set<Coord>, queue: seq<Coord>)
    requires k <= |neighbours|
  {
    forall i {:trigger neighbours[i]} :: 0 <= i < k ==>
      && (neighbours[i] in owned ==> Found(visited, queue, neighbours[i]))
      && (neighbours[i] !in owned && current in gates ==>
            forall u :: u in m.tiles && u in owned && IsNeighbour(neighbours[i], u) ==> Found(visited, queue, u))
  }

  ghost predicate Settled<T>(m: GameMap<T>, owned: set<Coord>, gates: set<Coord>, t: Coord,
                             visited: set<Coord>, queue: seq<Coord>) {
    forall u :: SupplyStep(m, owned, gates, t, u) ==> Found(visited, queue, u)
  }

  lemma ExploredIsSettled<T>(m: GameMap<T>, owned: set<Coord>, gates: set<Coord>, current: Coord,
                             visited: set<Coord>, queue: seq<Coord>)
    requires m.Valid()
    requires Explored(m, owned, gates, current, NeighboursOf(m, current), |NeighboursOf(m, current)|, visited, queue)
    ensures Settled(m, owned, gates, current, visited, queue)
  {
    hide Found, IsNeighbour;
    var ns := NeighboursOf(m, current);
    forall u | SupplyStep(m, owned, gates, current, u) ensures Found(visited, queue, u) {
      if IsNeighbour(current, u) {
        assert u in ns;
        var i :| 0 <= i < |ns| && ns[i] == u;
      } else {
        var pass :| Bridge(m, owned, current, pass, u);
        assert pass in ns;
        var i :| 0 <= i < |ns| && ns[i] == pass;
      }
    }
  }

  /** The set of connected tiles in the order the search visits them. */
  method GetConnectedTiles<T>(m: GameMap<T>, capital: Coord, owned: set<Coord>, gates: set<Coord>)
    returns (order: seq<Coord>)
    requires m.Valid()
    ensures NoDup(order)
    ensures forall t :: t in order <==> t in Connected(m, capital, owned, gates)
  {
    if capital !in owned {
      return [];
    }
    ghost var goal := Connected(m, capital, owned, gates);
    ConnectedIsLeastArea(m, capital, owned, gates, {});
    hide Connected, SupplyStep, IsNeighbour;
    var visited: set<Coord> := {};
    var queue := [capital];
    order := [];
    while queue != []
      invariant NoDup(order) && forall t :: t in order <==> t in visited
      invariant visited <= goal <= owned
      invariant forall t <- queue :: t in goal
      invariant Found(visited, queue, capital)
      invariant forall t <- visited :: Settled(m, owned, gates, t, visited, queue)
      decreases owned - visited, |queue|
    {
      ghost var queue0 := queue;
      var current := queue[0];
      queue := queue[1..];
      assert queue0 == [current] + queue;
      if current in visited {
        continue;
      }
      NoDupConcat(order, [current]);
      visited, order := visited + {current}, order + [current];
      if current !in m.tiles {
        NoStepOffMap(m, owned, gates, current);
        continue;
      }
      queue := Expand(m, owned, gates, current, visited, queue, goal);
      assert forall t :: Found(visited - {current}, queue0, t) ==> Found(visited, queue, t);
    }
    assert Area(m, capital, owned, gates, visited);
    ConnectedIsLeastArea(m, capital, owned, gates, visited);
  }

  lemma NoStepOffMap<T>(m: GameMap<T>, owned: set<Coord>, gates: set<Coord>, t: Coord)
    requires t !in m.tiles
    ensures forall u :: !SupplyStep(m, owned, gates, t, u)
  {
  }

  /** The body of the search loop: push what the current tile reaches. */
  method Expand<T>(m: GameMap<T>, owned: set<Coord>, gates: set<Coord>, current: Coord,
                   visited: set<Coord>, queue0: seq<Coord>, ghost goal: set<Coord>) returns (queue: seq<Coord>)
    requires m.Valid() && current in m.tiles && current in goal && Closed(m, owned, gates, goal)
    requires forall t <- queue0 :: t in goal
    ensures queue0 <= queue
    ensures forall t <- queue :: t in goal
    ensures Settled(m, owned, gates, current, visited, queue)
  {
    hide Found;
    queue := queue0;
    var neighbours := NeighboursOf(m, current);
    for k := 0 to |neighbours|
      invariant queue0 <= queue
      invariant forall t <- queue :: t in goal
      invariant Explored(m, owned, gates, current, neighbours, k, visited, queue)
    {
      var nid := neighbours[k];
      ghost var before := queue;
      if nid in owned {
        assert SupplyStep(m, owned, gates, current, nid);
        if nid !in visited {
          queue := queue + [nid];
        }
        FoundGrows(visited, before, queue, nid);
      } else if current in gates {
        queue := PushBeyond(m, owned, gates, current, nid, visited, queue, goal);
        FoundGrows(visited, before, queue, nid);
      }
    }
    ExploredIsSettled(m, owned, gates, current, visited, queue);
  }

  lemma FoundGrows(visited: set<Coord>, before: seq<Coord>, after: seq<Coord>, t: Coord)
    requires before <= after
    ensures forall u :: Found(visited, before, u) ==> Found(visited, after, u)
    ensures t in visited || t in after ==> Found(visited, after, t)
  {
  }

  /** Peek one hop through an unowned neighbour of a gate. */
  method PushBeyond<T>(m: GameMap<T>, owned: set<Coord>, gates: set<Coord>, current: Coord, pass: Coord,
                       visited: set<Coord>, queue0: seq<Coord>, ghost goal: set<Coord>) returns (queue: seq<Coord>)
    requires m.Valid() && current in m.tiles && current in goal && Closed(m, owned, gates, goal)
    requires current in gates && pass !in owned && pass in m.tiles && IsNeighbour(current, pass)
    requires forall t <- queue0 :: t in goal
    ensures queue0 <= queue
    ensures forall t <- queue :: t in goal
    ensures forall u :: u in m.tiles && u in owned && IsNeighbour(pass, u) ==> Found(visited, queue, u)
  {
    hide IsNeighbour;
    queue := queue0;
    var beyond := NeighboursOf(m, pass);
    for k := 0 to |beyond|
      invariant queue0 <= queue
      invariant forall t <- queue :: t in goal
      invariant forall i :: 0 <= i < k && beyond[i] in owned ==> Found(visited, queue, beyond[i])
    {
      var u := beyond[k];
      if u in owned && u !in visited {
        assert Bridge(m, owned, current, pass, u);
        assert SupplyStep(m, owned, gates, current, u);
        queue := queue + [u];
      }
    }
  }
}
