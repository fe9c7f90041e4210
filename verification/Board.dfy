/** The game map as an insertion-ordered table of tiles keyed by coordinate. */
module Board {
  import opened Collections
  import opened Hex

  /** `order` is the insertion order of the underlying table; `tiles` its contents. */
  datatype GameMap<+T> = GameMap(order: seq<Coord>, tiles: map<Coord, T>) {

    ghost predicate Valid() {
      NoDup(order) && forall c :: c in order <==> c in tiles
    }
  }

  function EmptyMap<T>(): GameMap<T> {
    GameMap([], map[])
  }

  /** Setting an existing key keeps its place in the order. */
  function Put<T>(m: GameMap<T>, c: Coord, tile: T): GameMap<T> {
    GameMap(if c in m.tiles then m.order else m.order + [c], m.tiles[c := tile])
  }

  lemma PutKeepsValid<T>(m: GameMap<T>, c: Coord, tile: T)
    requires m.Valid()
    ensures Put(m, c, tile).Valid()
    ensures forall x :: x in Put(m, c, tile).order <==> x in m.order || x == c
  {
    if c !in m.tiles {
      NoDupConcat(m.order, [c]);
    }
  }

  /** All tiles adjacent to a coordinate, in table order. */
  function NeighboursOf<T>(m: GameMap<T>, c: Coord): seq<Coord> {
    NeighboursAmong(m.order, c)
  }

  function NeighboursAmong(candidates: seq<Coord>, c: Coord): (r: seq<Coord>)
    ensures forall n :: n in r <==> n in candidates && IsNeighbour(c, n)
  {
    if candidates == [] then []
    else
      var rest := NeighboursAmong(candidates[1..], c);
      if IsNeighbour(c, candidates[0]) then [candidates[0]] + rest else rest
  }
}
