/** The battlefield of the conquest game: its size, its cells, the neighbourhoods
    the rules look at, the row-major scans over the board and the count of the
    cells a country owns. */
module Grid {

  /** The window is 1000 by 700 pixels of 40-pixel tiles; the lowest 100 pixels
      are an information strip, so the board is 25 cells wide and 15 high. */
  const ScreenWidth: int := 1000
  const ScreenHeight: int := 700
  const TileSize: int := 40
  const Width: int := ScreenWidth / TileSize
  const Height: int := (ScreenHeight - 100) / TileSize

  datatype Option<T> = None | Some(value: T)

  /** A board coordinate, or a displacement between two coordinates. */
  datatype Pos = Pos(x: int, y: int)

  /** A grid entry. `Untouched` is a cell nobody has entered yet (the source's
      `None`). A `Tile` has an owner and the number of troop groups standing on
      it. An ownerless `Tile(None, _)` stands for what the source's two dead
      branches would leave (a defender emptied by a lost defence, a tile of a
      wiped-out country). Neither branch is ever taken (the dead branch of
      `Rules.Garrison`, `Outcomes.SweepFindsNothing`), so no move from the
      start placement creates one. Every troop group listed on a tile sits at
      that tile's coordinates, so the tile's list is fixed by its length. */
  datatype Cell = Untouched | Tile(owner: Option<nat>, troops: nat)

  function Abs(n: int): nat
  {
    if n < 0 then -n else n
  }

  predicate InBounds(p: Pos)
  {
    0 <= p.x < Width && 0 <= p.y < Height
  }

  /** The board is kept row by row: cell (x, y) is entry y * Width + x. */
  function Idx(p: Pos): (k: nat)
    requires InBounds(p)
    ensures k < Width * Height
  {
    assert Width == 25 && Height == 15;
    p.y * Width + p.x
  }

  lemma IdxInjective(p: Pos, q: Pos)
    requires InBounds(p) && InBounds(q) && Idx(p) == Idx(q)
    ensures p == q
  {
    assert Width == 25;
  }

  predicate Shaped(cells: seq<Cell>)
  {
    |cells| == Width * Height
  }

  function At(cells: seq<Cell>, p: Pos): Cell
    requires Shaped(cells) && InBounds(p)
  {
    cells[Idx(p)]
  }

  function Shift(p: Pos, d: Pos): Pos
  {
    Pos(p.x + d.x, p.y + d.y)
  }

  /** The four orthogonal unit steps, in the order the source lists them. */
  const Orthogonal: seq<Pos> := [Pos(0, -1), Pos(0, 1), Pos(-1, 0), Pos(1, 0)]

  /** A cell itself followed by its four orthogonal neighbours (the reward's safety test). */
  const SelfAndOrthogonal: seq<Pos> := [Pos(0, 0), Pos(0, -1), Pos(0, 1), Pos(-1, 0), Pos(1, 0)]

  /** The eight destinations an AI country considers: unit steps, then two-cell jumps. */
  const Reach: seq<Pos> :=
    [Pos(0, -1), Pos(0, 1), Pos(-1, 0), Pos(1, 0), Pos(0, -2), Pos(0, 2), Pos(-2, 0), Pos(2, 0)]

  predicate OwnedBy(cell: Cell, c: nat)
  {
    cell.Tile? && cell.owner == Some(c)
  }

  /** Cell n spoils the safety of a reward site of country c: it is on the board,
      it has been entered, and it is not c's (an ownerless tile counts as not c's). */
  predicate Foreign(cells: seq<Cell>, c: nat, n: Pos)
    requires Shaped(cells)
  {
    InBounds(n) && At(cells, n).Tile? && At(cells, n).owner != Some(c)
  }

  /** Cell n makes a neighbour of it a border cell of country c: it is on the
      board and either untouched or owned by another country (ownerless tiles do
      not count). */
  predicate Contact(cells: seq<Cell>, c: nat, n: Pos)
    requires Shaped(cells)
  {
    InBounds(n) &&
    (At(cells, n).Untouched? || (At(cells, n).owner.Some? && At(cells, n).owner != Some(c)))
  }

  /** Cell p is c's and has at least one troop group on it. */
  predicate Holds(cells: seq<Cell>, c: nat, p: Pos)
    requires Shaped(cells) && InBounds(p)
  {
    OwnedBy(At(cells, p), c) && At(cells, p).troops > 0
  }

  /** A reward may be placed on p: p is c's and neither p nor an on-board
      orthogonal neighbour is an entered cell of another (or of no) owner. */
  predicate IsSafe(cells: seq<Cell>, c: nat, p: Pos)
    requires Shaped(cells) && InBounds(p)
  {
    OwnedBy(At(cells, p), c) &&
    forall j :: 0 <= j < |SelfAndOrthogonal| ==> !Foreign(cells, c, Shift(p, SelfAndOrthogonal[j]))
  }

  /** p holds troops of c and touches an untouched or enemy cell. */
  predicate IsBorder(cells: seq<Cell>, c: nat, p: Pos)
    requires Shaped(cells) && InBounds(p)
  {
    Holds(cells, c, p) &&
    exists j :: 0 <= j < |Orthogonal| && Contact(cells, c, Shift(p, Orthogonal[j]))
  }

  /** The three cell tests the engine scans the board with. */
  datatype Probe = Safe | Border | Holding

  predicate Passes(cells: seq<Cell>, c: nat, probe: Probe, p: Pos)
    requires Shaped(cells) && InBounds(p)
  {
    match probe
    case Safe => IsSafe(cells, c, p)
    case Border => IsBorder(cells, c, p)
    case Holding => Holds(cells, c, p)
  }

  /** Position (x, y) comes before the scan point (sx, sy) in row-major order. */
  predicate Before(p: Pos, sx: int, sy: int)
  {
    p.y < sy || (p.y == sy && p.x < sx)
  }

  /** The cells passing `probe`, in the order a `for y: for x:` scan meets
      them, among the cells before the scan point (x, y). */
  function Collect(cells: seq<Cell>, c: nat, probe: Probe, x: int, y: int): (r: seq<Pos>)
    requires Shaped(cells)
    requires 0 <= y <= Height && 0 <= x <= Width && (y == Height ==> x == 0)
    ensures forall p :: p in r ==> InBounds(p) && Before(p, x, y) && Passes(cells, c, probe, p)
    decreases y, x
  {
    if x == 0 then
      if y == 0 then [] else Collect(cells, c, probe, Width, y - 1)
    else
      var p := Pos(x - 1, y);
      Collect(cells, c, probe, x - 1, y) + (if Passes(cells, c, probe, p) then [p] else [])
  }

  /** The whole board's cells passing `probe`, in scan order. */
  function Found(cells: seq<Cell>, c: nat, probe: Probe): seq<Pos>
    requires Shaped(cells)
  {
    Collect(cells, c, probe, 0, Height)
  }

  /** Every cell before the scan point that passes the probe is collected. */
  lemma {:induction false} CollectComplete(cells: seq<Cell>, c: nat, probe: Probe, x: int, y: int, p: Pos)
    requires Shaped(cells)
    requires 0 <= y <= Height && 0 <= x <= Width && (y == Height ==> x == 0)
    requires InBounds(p) && Before(p, x, y) && Passes(cells, c, probe, p)
    ensures p in Collect(cells, c, probe, x, y)
    decreases y, x
  {
    if x == 0 {
      CollectComplete(cells, c, probe, Width, y - 1, p);
    } else {
      var last := Pos(x - 1, y);
      var earlier := Collect(cells, c, probe, x - 1, y);
      assert Collect(cells, c, probe, x, y) == earlier + (if Passes(cells, c, probe, last) then [last] else []);
      if p != last {
        CollectComplete(cells, c, probe, x - 1, y, p);
      }
    }
  }

  /** A cell is in the full scan exactly when it is on the board and passes. */
  lemma FoundExactly(cells: seq<Cell>, c: nat, probe: Probe, p: Pos)
    requires Shaped(cells)
    ensures p in Found(cells, c, probe) <==> InBounds(p) && Passes(cells, c, probe, p)
  {
    if InBounds(p) && Passes(cells, c, probe, p) {
      CollectComplete(cells, c, probe, 0, Height, p);
    }
  }

  /** 1 when the cell is c's, else 0. */
  function Mark(cell: Cell, c: nat): nat
  {
    if OwnedBy(cell, c) then 1 else 0
  }

  /** The number of cells country c owns. */
  function Owned(cells: seq<Cell>, c: nat): (n: nat)
    ensures n <= |cells|
  {
    if cells == [] then 0 else Owned(cells[..|cells| - 1], c) + Mark(cells[|cells| - 1], c)
  }

  /** Overwriting one cell changes c's count by what the cell's ownership did. */
  lemma {:induction false} OwnedUpdate(cells: seq<Cell>, k: nat, v: Cell, c: nat)
    requires k < |cells|
    ensures Owned(cells[k := v], c) == Owned(cells, c) - Mark(cells[k], c) + Mark(v, c)
  {
    var n := |cells| - 1;
    var cells' := cells[k := v];
    if k == n {
      assert cells'[..n] == cells[..n];
    } else {
      assert cells'[..n] == cells[..n][k := v];
      OwnedUpdate(cells[..n], k, v, c);
    }
  }

  /** Two boards that agree cell by cell on what c owns give c the same count. */
  lemma {:induction false} OwnedAlike(a: seq<Cell>, b: seq<Cell>, c: nat)
    requires |a| == |b|
    requires forall k :: 0 <= k < |a| ==> (OwnedBy(a[k], c) <==> OwnedBy(b[k], c))
    ensures Owned(a, c) == Owned(b, c)
  {
    if a != [] {
      var n := |a| - 1;
      OwnedAlike(a[..n], b[..n], c);
    }
  }

  /** c's count is zero exactly when c owns no cell. */
  lemma {:induction false} OwnedZero(cells: seq<Cell>, c: nat)
    ensures Owned(cells, c) == 0 <==> forall k :: 0 <= k < |cells| ==> !OwnedBy(cells[k], c)
  {
    if cells != [] {
      var n := |cells| - 1;
      OwnedZero(cells[..n], c);
      assert forall k :: 0 <= k < n ==> cells[..n][k] == cells[k];
    }
  }

  /** What the defeat sweep does to one cell: a tile of country d loses its owner. */
  function Disown(cell: Cell, d: nat): Cell
  {
    if OwnedBy(cell, d) then cell.(owner := None) else cell
  }

  /** The board after the defeat sweep for country d (war.py:361-365). */
  function Wiped(cells: seq<Cell>, d: nat): (r: seq<Cell>)
    ensures |r| == |cells|
  {
    seq(|cells|, k requires 0 <= k < |cells| => Disown(cells[k], d))
  }

  /** After the sweep d owns nothing and every other country owns what it did. */
  lemma WipedCounts(cells: seq<Cell>, d: nat, c: nat)
    ensures Owned(Wiped(cells, d), c) == if c == d then 0 else Owned(cells, c)
  {
    var w := Wiped(cells, d);
    if c == d {
      OwnedZero(w, c);
    } else {
      OwnedAlike(w, cells, c);
    }
  }
}
