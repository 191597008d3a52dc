/** The rules of one move, as functions on a snapshot of the game: lifting a
    stack, occupying, merging, the battle, the loss of a tile (and with it
    possibly the defeat of a country) and the reward. The methods of
    `War.Game` are proved to change the game exactly as these functions say. */
module Rules {
  import opened Grid
  import opened Troops

  /** A country (war.py:46-55); colour and name are display attributes and are
      left out. `troops` holds the coordinates of its troop groups. */
  datatype Country = Country(
    isPlayer: bool,
    currentTerritory: int,
    totalTerritory: int,
    nextReward: int,
    troops: seq<Pos>,
    defeated: bool)

  /** A country as the constructor creates it and as a restart resets it. */
  function Unplaced(isPlayer: bool): Country
  {
    Country(isPlayer, 0, 0, 3, [], false)
  }

  /** Everything a move reads and writes: the board and the countries, in
      the source's list order (the player first). */
  datatype World = World(cells: seq<Cell>, countries: seq<Country>)

  predicate OwnerIn(cell: Cell, n: nat)
  {
    cell.Tile? && cell.owner.Some? ==> cell.owner.value < n
  }

  /** The board has its size and every owner is one of the countries. */
  predicate WellFormed(w: World)
  {
    Shaped(w.cells) && forall k :: 0 <= k < |w.cells| ==> OwnerIn(w.cells[k], |w.countries|)
  }

  /** w' is well formed and has the countries of w, in the same roles. */
  predicate Evolves(w: World, w': World)
  {
    WellFormed(w') &&
    |w'.countries| == |w.countries| &&
    forall i :: 0 <= i < |w.countries| ==> w'.countries[i].isPlayer == w.countries[i].isPlayer
  }

  function SetCell(w: World, p: Pos, v: Cell): (r: World)
    requires WellFormed(w) && InBounds(p) && OwnerIn(v, |w.countries|)
    ensures Evolves(w, r)
  {
    w.(cells := w.cells[Idx(p) := v])
  }

  function SetCountry(w: World, c: nat, cn: Country): (r: World)
    requires WellFormed(w) && c < |w.countries| && cn.isPlayer == w.countries[c].isPlayer
    ensures Evolves(w, r)
  {
    w.(countries := w.countries[c := cn])
  }

  /** The mover lifts the whole stack off p (war.py:288-300, 496-508): the tile
      keeps its owner and no troops, and the mover's list loses one entry equal
      to p per lifted group, as long as it has one. */
  function Lift(w: World, c: nat, p: Pos): (r: World)
    requires WellFormed(w) && c < |w.countries| && InBounds(p) && At(w.cells, p).Tile?
    ensures Evolves(w, r)
  {
    var t := At(w.cells, p);
    var cn := w.countries[c];
    SetCountry(SetCell(w, p, t.(troops := 0)), c, cn.(troops := RemoveEach(cn.troops, p, t.troops)))
  }

  /** k groups of c enter the untouched cell q (war.py:305-313, 513-521). */
  function Occupy(w: World, c: nat, q: Pos, k: nat): (r: World)
    requires WellFormed(w) && c < |w.countries| && InBounds(q) && At(w.cells, q).Untouched?
    ensures Evolves(w, r)
  {
    var cn := w.countries[c];
    SetCountry(SetCell(w, q, Tile(Some(c), k)), c,
      cn.(currentTerritory := cn.currentTerritory + 1,
          totalTerritory := cn.totalTerritory + 1,
          troops := cn.troops + Copies(q, k)))
  }

  /** k groups of c join c's own tile q (war.py:317-320, 525-528). */
  function Merge(w: World, c: nat, q: Pos, k: nat): (r: World)
    requires WellFormed(w) && c < |w.countries| && InBounds(q) && At(w.cells, q).Tile?
    ensures Evolves(w, r)
  {
    var t := At(w.cells, q);
    var cn := w.countries[c];
    SetCountry(SetCell(w, q, t.(troops := t.troops + k)), c, cn.(troops := cn.troops + Copies(q, k)))
  }

  /** Country d loses one tile; at zero or below it is defeated and every
      tile still marked as its own loses its owner (war.py:355-365, 552-560). */
  function LoseTerritory(w: World, d: nat): (r: World)
    requires WellFormed(w) && d < |w.countries|
    ensures Evolves(w, r)
  {
    var dn := w.countries[d].(currentTerritory := w.countries[d].currentTerritory - 1);
    if dn.currentTerritory <= 0 then
      var r := World(Wiped(w.cells, d), w.countries[d := dn.(defeated := true)]);
      assert forall k :: 0 <= k < |r.cells| ==> OwnerIn(r.cells[k], |r.countries|) by {
        forall k | 0 <= k < |r.cells| ensures OwnerIn(r.cells[k], |r.countries|) {
          assert r.cells[k] == Disown(w.cells[k], d);
        }
      }
      r
    else
      SetCountry(w, d, dn)
  }

  /** The attacker wins with a >= b groups against the b on q (war.py:339-365,
      535-560): q becomes c's with the leading a - b moved groups, c gains a
      tile, and q's former owner, if any, loses one. */
  function Capture(w: World, c: nat, q: Pos, a: nat): (r: World)
    requires WellFormed(w) && c < |w.countries| && InBounds(q)
    requires At(w.cells, q).Tile? && a >= At(w.cells, q).troops
    ensures Evolves(w, r)
  {
    var t := At(w.cells, q);
    var w1 := Seize(w, c, q, a - t.troops);
    if t.owner.Some? then LoseTerritory(w1, t.owner.value) else w1
  }

  /** q becomes c's with x groups of c on it and c gains a tile (war.py:341-354). */
  function Seize(w: World, c: nat, q: Pos, x: nat): (r: World)
    requires WellFormed(w) && c < |w.countries| && InBounds(q)
    ensures Evolves(w, r)
  {
    var cn := w.countries[c];
    SetCountry(SetCell(w, q, Tile(Some(c), x)), c,
      cn.(troops := cn.troops + Copies(q, x),
          currentTerritory := cn.currentTerritory + 1,
          totalTerritory := cn.totalTerritory + 1))
  }

  /** The defender holds with b > a (war.py:369-387, 564-582): the attacker's
      list loses up to a entries equal to q (the moved groups, whose
      coordinates now read q), q keeps b - a of its groups, and the owner's
      list keeps only its entries that equal one of the kept groups, that is,
      its entries on q. */
  function Repel(w: World, c: nat, q: Pos, a: nat): (r: World)
    requires WellFormed(w) && c < |w.countries| && InBounds(q)
    requires At(w.cells, q).Tile? && a < At(w.cells, q).troops
    ensures Evolves(w, r)
  {
    var cn := w.countries[c];
    Garrison(SetCountry(w, c, cn.(troops := RemoveEach(cn.troops, q, a))), q, a)
  }

  /** The defender's side of a held defence (war.py:376-387, 571-582): q keeps
      b - a of its groups and the owner's list keeps only its entries on q. */
  function Garrison(w: World, q: Pos, a: nat): (r: World)
    requires WellFormed(w) && InBounds(q)
    requires At(w.cells, q).Tile? && a < At(w.cells, q).troops
    ensures Evolves(w, r)
  {
    var t := At(w.cells, q);
    var remaining := t.troops - a;
    if remaining > 0 then
      var kept := Copies(q, remaining);
      var w1 := SetCell(w, q, t.(troops := remaining));
      if t.owner.Some? then
        var d := t.owner.value;
        var dn := w1.countries[d];
        SetCountry(w1, d, dn.(troops := KeepIn(dn.troops, kept)))
      else w1
    else
      // the branch for a defender left with no groups cannot be taken: b - a > 0
      assert false; w
  }

  /** `add_territory` (war.py:61-100): once the territory ever taken reaches
      the threshold, the threshold rises by 3 and, if the country's list is not
      empty, one new group is placed on the safe cell the `pick`-th choice
      selects among the safe cells in scan order, if there is one. */
  function Reward(w: World, c: nat, pick: nat): (r: World)
    requires WellFormed(w) && c < |w.countries|
    ensures Evolves(w, r)
  {
    var cn := w.countries[c];
    if cn.totalTerritory >= cn.nextReward then
      var cn1 := cn.(nextReward := cn.nextReward + 3);
      var safe := Found(w.cells, c, Safe);
      if |cn1.troops| > 0 && |safe| > 0 then
        var s := safe[pick % |safe|];
        assert s in safe;
        var t := At(w.cells, s);
        SetCountry(SetCell(w, s, t.(troops := t.troops + 1)), c, cn1.(troops := cn1.troops + [s]))
      else
        SetCountry(w, c, cn1)
    else w
  }

  /** c's a groups meet the tile q of another (or of no) owner (war.py:332-401,
      530-596); the reward follows a won battle. */
  function Battle(w: World, c: nat, q: Pos, a: nat, pick: nat): (r: World)
    requires WellFormed(w) && c < |w.countries| && InBounds(q) && At(w.cells, q).Tile?
    ensures Evolves(w, r)
  {
    if a >= At(w.cells, q).troops then Reward(Capture(w, c, q, a), c, pick) else Repel(w, c, q, a)
  }

  /** Country c moves the whole stack on p to q (`move_troops` up to its AI
      part, war.py:281-323, and `ai_move`, war.py:489-596): nothing happens
      unless p is an entered tile with troops; otherwise the stack is lifted
      and occupies, merges or fights depending on q as it is after the lift. */
  function Move(w: World, c: nat, p: Pos, q: Pos, pick: nat): (r: World)
    requires WellFormed(w) && c < |w.countries| && InBounds(p) && InBounds(q)
    ensures Evolves(w, r)
  {
    var t := At(w.cells, p);
    if t.Untouched? || t.troops == 0 then w
    else
      var k := t.troops;
      var w1 := Lift(w, c, p);
      match At(w1.cells, q)
      case Untouched => Reward(Occupy(w1, c, q, k), c, pick)
      case Tile(o, _) => if o == Some(c) then Merge(w1, c, q, k) else Battle(w1, c, q, k, pick)
  }
}
