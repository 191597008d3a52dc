/** Where the countries start (war.py:129-152): each start lies at least two
    cells inside the board, no two starts are within three cells of each other
    on both axes, and each country begins with one tile holding one group. */
module Placement {
  import opened Grid
  import opened Rules
  import opened Accounting

  /** The box the start coordinates are drawn from: x in [2, Width - 3] and
      y in [2, Height - 3]. */
  predicate InStartBox(p: Pos)
  {
    2 <= p.x <= Width - 3 && 2 <= p.y <= Height - 3
  }

  /** The too-close test (war.py:139): both offsets are below 4. */
  predicate Near(a: Pos, b: Pos)
  {
    Abs(a.x - b.x) < 4 && Abs(a.y - b.y) < 4
  }

  /** Every start could have been accepted after the earlier ones: it is in the
      box and not near any earlier start. */
  predicate Spread(starts: seq<Pos>)
  {
    forall i :: 0 <= i < |starts| ==>
      InStartBox(starts[i]) && forall j :: 0 <= j < i ==> !Near(starts[j], starts[i])
  }

  /** The acceptance test's second half, `(x, y) not in positions`, never
      rejects a candidate the first half let through, since every position is
      near itself. */
  lemma NotNearMeansNew(positions: seq<Pos>, p: Pos)
    requires forall j :: 0 <= j < |positions| ==> !Near(positions[j], p)
    ensures p !in positions
  {
  }

  /** A board nobody has entered. */
  function EmptyBoard(): (cells: seq<Cell>)
    ensures Shaped(cells) && forall k :: 0 <= k < |cells| ==> cells[k] == Untouched
  {
    seq(Width * Height, _ => Untouched)
  }

  /** The board once the countries 0 .. |starts| - 1 are placed in order, each
      with one group on its start. */
  function StartBoard(starts: seq<Pos>): (cells: seq<Cell>)
    requires forall i :: 0 <= i < |starts| ==> InBounds(starts[i])
    ensures Shaped(cells)
  {
    if starts == [] then EmptyBoard()
    else
      var n := |starts| - 1;
      StartBoard(starts[..n])[Idx(starts[n]) := Tile(Some(n), 1)]
  }

  /** A country just placed on p. */
  function Placed(isPlayer: bool, p: Pos): Country
  {
    Country(isPlayer, 1, 1, 3, [p], false)
  }

  /** On the start board, each start is its country's tile with one group and
      every other cell is untouched. */
  lemma {:induction false} StartBoardCells(starts: seq<Pos>, s: Pos)
    requires Spread(starts) && forall i :: 0 <= i < |starts| ==> InBounds(starts[i])
    requires InBounds(s)
    ensures forall i :: 0 <= i < |starts| && starts[i] == s ==> At(StartBoard(starts), s) == Tile(Some(i), 1)
    ensures s !in starts ==> At(StartBoard(starts), s) == Untouched
  {
    if starts != [] {
      var n := |starts| - 1;
      var prefix := starts[..n];
      assert Spread(prefix);
      StartBoardCells(prefix, s);
      if Idx(s) == Idx(starts[n]) {
        IdxInjective(s, starts[n]);
        forall i | 0 <= i < n ensures starts[i] != s {
          assert !Near(starts[i], starts[n]);
        }
      } else {
        assert forall i :: 0 <= i < n ==> prefix[i] == starts[i];
      }
    }
  }

  /** Each placed country owns exactly its start. */
  lemma {:induction false} StartBoardCounts(starts: seq<Pos>, c: nat)
    requires Spread(starts) && forall i :: 0 <= i < |starts| ==> InBounds(starts[i])
    ensures Owned(StartBoard(starts), c) == if c < |starts| then 1 else 0
  {
    if starts == [] {
      OwnedZero(EmptyBoard(), c);
    } else {
      var n := |starts| - 1;
      var prefix := starts[..n];
      assert Spread(prefix);
      StartBoardCounts(prefix, c);
      NotNearMeansNew(prefix, starts[n]);
      StartBoardCells(prefix, starts[n]);
      OwnedUpdate(StartBoard(prefix), Idx(starts[n]), Tile(Some(n), 1), c);
    }
  }

  /** The game as `initialize_game` leaves it satisfies the bookkeeping. */
  lemma StartAccounted(starts: seq<Pos>, roles: seq<bool>)
    requires Spread(starts) && |roles| == |starts|
    ensures forall i :: 0 <= i < |starts| ==> InBounds(starts[i])
    ensures Inv(World(StartBoard(starts), seq(|starts|, i requires 0 <= i < |starts| => Placed(roles[i], starts[i]))))
  {
    assert forall i :: 0 <= i < |starts| ==> InBounds(starts[i]);
    var w := World(StartBoard(starts), seq(|starts|, i requires 0 <= i < |starts| => Placed(roles[i], starts[i])));
    forall k | 0 <= k < |w.cells| ensures OwnerIn(w.cells[k], |w.countries|) {
      if w.cells[k].Tile? && w.cells[k].owner.Some? {
        OwnedZero(w.cells, w.cells[k].owner.value);
        StartBoardCounts(starts, w.cells[k].owner.value);
      }
    }
    forall i | 0 <= i < |w.countries| ensures Accounted(w, i) {
      StartBoardCounts(starts, i);
    }
  }
}
