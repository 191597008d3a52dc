/** What one move does to the board and to the countries, case by case: the
    reward check, occupying an untouched cell, joining an own tile, a won
    battle and a held defence. */
module Outcomes {
  import opened Grid
  import opened Troops
  import opened Rules
  import opened Accounting

  /** r is w after country c's reward check (war.py:61-100): nothing changes
      unless the territory ever taken has reached the threshold; then the
      threshold rises by 3 and, at most once, a new group appears on one safe
      cell of c and is appended to c's list, which must not have been empty. */
  ghost predicate Rewarded(w: World, c: nat, r: World)
    requires WellFormed(w) && c < |w.countries|
  {
    var cn := w.countries[c];
    var due := cn.totalTerritory >= cn.nextReward;
    var rn := cn.(nextReward := if due then cn.nextReward + 3 else cn.nextReward);
    |r.countries| == |w.countries| &&
    (forall i :: 0 <= i < |w.countries| && i != c ==> r.countries[i] == w.countries[i]) &&
    ((r.cells == w.cells && r.countries[c] == rn) ||
     (due && |cn.troops| > 0 &&
      exists s :: InBounds(s) && IsSafe(w.cells, c, s) &&
        r.cells == w.cells[Idx(s) := At(w.cells, s).(troops := At(w.cells, s).troops + 1)] &&
        r.countries[c] == rn.(troops := cn.troops + [s])))
  }

  /** The reward check behaves as `Rewarded` says, and it places a group
      exactly when the threshold is reached, c's list is not empty and c has
      a safe cell. */
  lemma RewardOutcome(w: World, c: nat, pick: nat)
    requires WellFormed(w) && c < |w.countries|
    ensures Rewarded(w, c, Reward(w, c, pick))
    ensures var cn := w.countries[c];
      (cn.totalTerritory >= cn.nextReward && |cn.troops| > 0 &&
       exists s :: InBounds(s) && IsSafe(w.cells, c, s))
      <==> |Reward(w, c, pick).countries[c].troops| == |cn.troops| + 1
  {
    var cn := w.countries[c];
    var safe := Found(w.cells, c, Safe);
    if cn.totalTerritory >= cn.nextReward && |cn.troops| > 0 && |safe| > 0 {
      var s := safe[pick % |safe|];
      assert s in safe;
      FoundExactly(w.cells, c, Safe, s);
      assert InBounds(s) && IsSafe(w.cells, c, s);
    } else if cn.totalTerritory >= cn.nextReward && |cn.troops| > 0 {
      forall s | InBounds(s) ensures !IsSafe(w.cells, c, s) {
        FoundExactly(w.cells, c, Safe, s);
      }
    }
  }

  /** c's list after a stack of k groups went from p to q, where x of them
      stayed: up to k entries equal to p are gone and x entries equal to q are
      new. */
  ghost predicate ListMoved(before: seq<Pos>, after: seq<Pos>, p: Pos, k: nat, q: Pos, x: nat)
  {
    forall e :: multiset(after)[e] ==
      if e == p then Deplete(multiset(before)[e], k)
      else if e == q then multiset(before)[e] + x
      else multiset(before)[e]
  }

  /** The board with the stack lifted off p. */
  function Emptied(cells: seq<Cell>, p: Pos): seq<Cell>
    requires Shaped(cells) && InBounds(p) && At(cells, p).Tile?
  {
    cells[Idx(p) := At(cells, p).(troops := 0)]
  }

  /** Moving k groups onto an untouched cell (war.py:288-315, 496-523): p is
      left empty but still c's, q becomes c's with all k groups, c gains a tile
      in both counters and its list follows the groups; then the reward check
      runs. */
  lemma MoveOccupies(w: World, c: nat, p: Pos, q: Pos, pick: nat)
    requires WellFormed(w) && c < |w.countries| && InBounds(p) && InBounds(q) && p != q
    requires At(w.cells, p).Tile? && At(w.cells, p).troops > 0 && At(w.cells, q).Untouched?
    ensures var k := At(w.cells, p).troops;
      var cn := w.countries[c];
      var mid := Occupy(Lift(w, c, p), c, q, k);
      Move(w, c, p, q, pick) == Reward(mid, c, pick) &&
      mid.cells == Emptied(w.cells, p)[Idx(q) := Tile(Some(c), k)] &&
      mid.countries[c] == cn.(currentTerritory := cn.currentTerritory + 1,
                              totalTerritory := cn.totalTerritory + 1,
                              troops := mid.countries[c].troops) &&
      ListMoved(cn.troops, mid.countries[c].troops, p, k, q, k) &&
      forall i :: 0 <= i < |w.countries| && i != c ==> mid.countries[i] == w.countries[i]
  {
    var k := At(w.cells, p).troops;
    var w1 := Lift(w, c, p);
    if Idx(q) == Idx(p) { IdxInjective(p, q); }
    assert At(w1.cells, q) == At(w.cells, q);
    CopiesCount(q, k);
  }

  /** Moving k groups onto another tile of c (war.py:317-320, 525-528): q gains
      the k groups, p is left empty, no counter changes and no reward check
      runs. */
  lemma MoveMerges(w: World, c: nat, p: Pos, q: Pos, pick: nat)
    requires WellFormed(w) && c < |w.countries| && InBounds(p) && InBounds(q) && p != q
    requires At(w.cells, p).Tile? && At(w.cells, p).troops > 0 && OwnedBy(At(w.cells, q), c)
    ensures var k := At(w.cells, p).troops;
      var cn := w.countries[c];
      var r := Move(w, c, p, q, pick);
      r.cells == Emptied(w.cells, p)[Idx(q) := At(w.cells, q).(troops := At(w.cells, q).troops + k)] &&
      r.countries[c] == cn.(troops := r.countries[c].troops) &&
      ListMoved(cn.troops, r.countries[c].troops, p, k, q, k) &&
      forall i :: 0 <= i < |w.countries| && i != c ==> r.countries[i] == w.countries[i]
  {
    var w1 := Lift(w, c, p);
    if Idx(q) == Idx(p) { IdxInjective(p, q); }
    assert At(w1.cells, q) == At(w.cells, q);
    CopiesCount(q, At(w.cells, p).troops);
  }

  /** A won battle (war.py:339-367, 535-562): with k >= b, q becomes c's with the
      first k - b moved groups (none on a tie), c gains a tile, q's former
      owner d, if any, loses one and is defeated when it drops to zero or
      below, in which case every tile still marked as d's loses its owner;
      then c's reward check runs. */
  lemma MoveCaptures(w: World, c: nat, p: Pos, q: Pos, pick: nat)
    requires WellFormed(w) && c < |w.countries| && InBounds(p) && InBounds(q) && p != q
    requires At(w.cells, p).Tile? && At(w.cells, p).troops > 0
    requires At(w.cells, q).Tile? && At(w.cells, q).owner != Some(c)
    requires At(w.cells, p).troops >= At(w.cells, q).troops
    ensures var k := At(w.cells, p).troops;
      var b := At(w.cells, q).troops;
      var o := At(w.cells, q).owner;
      var cn := w.countries[c];
      var mid := Capture(Lift(w, c, p), c, q, k);
      var board := Emptied(w.cells, p)[Idx(q) := Tile(Some(c), k - b)];
      Move(w, c, p, q, pick) == Reward(mid, c, pick) &&
      mid.countries[c] == cn.(currentTerritory := cn.currentTerritory + 1,
                              totalTerritory := cn.totalTerritory + 1,
                              troops := mid.countries[c].troops) &&
      ListMoved(cn.troops, mid.countries[c].troops, p, k, q, k - b) &&
      (forall i :: 0 <= i < |w.countries| && i != c && o != Some(i) ==> mid.countries[i] == w.countries[i]) &&
      (o.None? ==> mid.cells == board) &&
      (o.Some? ==>
        var dn := w.countries[o.value];
        var falls := dn.currentTerritory - 1 <= 0;
        mid.countries[o.value] == dn.(currentTerritory := dn.currentTerritory - 1, defeated := dn.defeated || falls) &&
        mid.cells == if falls then Wiped(board, o.value) else board)
  {
    var k := At(w.cells, p).troops;
    var w1 := Lift(w, c, p);
    if Idx(q) == Idx(p) { IdxInjective(p, q); }
    assert At(w1.cells, q) == At(w.cells, q);
    CopiesCount(q, k - At(w.cells, q).troops);
  }

  /** A held defence (war.py:369-387, 564-582): with k < b, q keeps its owner and
      b - k of its groups, which is at least one, so the branch for an emptied
      defence is never taken; p is left empty; c's counters stay and its list
      loses up to k entries equal to p and up to k equal to q; the owner's list
      keeps exactly its entries equal to q; nobody else changes. */
  lemma MoveRepelled(w: World, c: nat, p: Pos, q: Pos, pick: nat)
    requires WellFormed(w) && c < |w.countries| && InBounds(p) && InBounds(q) && p != q
    requires At(w.cells, p).Tile? && At(w.cells, p).troops > 0
    requires At(w.cells, q).Tile? && At(w.cells, q).owner != Some(c)
    requires At(w.cells, p).troops < At(w.cells, q).troops
    ensures var k := At(w.cells, p).troops;
      var t := At(w.cells, q);
      var cn := w.countries[c];
      var r := Move(w, c, p, q, pick);
      r.cells == Emptied(w.cells, p)[Idx(q) := t.(troops := t.troops - k)] &&
      t.troops - k >= 1 &&
      r.countries[c] == cn.(troops := r.countries[c].troops) &&
      (forall e :: multiset(r.countries[c].troops)[e] ==
        if e == p || e == q then Deplete(multiset(cn.troops)[e], k) else multiset(cn.troops)[e]) &&
      (forall i :: 0 <= i < |w.countries| && i != c && t.owner != Some(i) ==> r.countries[i] == w.countries[i]) &&
      (t.owner.Some? ==>
        var dn := w.countries[t.owner.value];
        r.countries[t.owner.value] == dn.(troops := r.countries[t.owner.value].troops) &&
        forall e :: multiset(r.countries[t.owner.value].troops)[e] == if e == q then multiset(dn.troops)[e] else 0)
  {
    var k := At(w.cells, p).troops;
    var w1 := Lift(w, c, p);
    if Idx(q) == Idx(p) { IdxInjective(p, q); }
    assert At(w1.cells, q) == At(w.cells, q);
    var kept := Copies(q, At(w.cells, q).troops - k);
    assert kept[0] == q;
    assert forall e :: e in kept <==> e == q;
  }

  /** Under the bookkeeping, a defeated country owns no tile at all. */
  lemma DefeatedOwnNothing(w: World, d: nat, s: Pos)
    requires Inv(w) && d < |w.countries| && w.countries[d].defeated && InBounds(s)
    ensures !OwnedBy(At(w.cells, s), d)
  {
    assert Accounted(w, d);
    OwnedZero(w.cells, d);
  }

  /** Under the bookkeeping, the defeat sweep finds nothing to clear: a country
      whose counter drops to zero has just lost its last tile. */
  lemma SweepFindsNothing(w: World, c: nat, q: Pos, a: nat)
    requires Inv(w) && c < |w.countries| && !w.countries[c].defeated && InBounds(q)
    requires At(w.cells, q).Tile? && At(w.cells, q).owner.Some? && At(w.cells, q).owner != Some(c)
    requires a >= At(w.cells, q).troops
    requires w.countries[At(w.cells, q).owner.value].currentTerritory - 1 <= 0
    ensures var w1 := Seize(w, c, q, a - At(w.cells, q).troops);
      Wiped(w1.cells, At(w.cells, q).owner.value) == w1.cells
  {
    var d := At(w.cells, q).owner.value;
    var w1 := Seize(w, c, q, a - At(w.cells, q).troops);
    SeizeAccounts(w, c, q, a - At(w.cells, q).troops);
    OwnedZero(w1.cells, d);
    assert forall k :: 0 <= k < |w1.cells| ==> Wiped(w1.cells, d)[k] == w1.cells[k];
  }

  /** A move never defeats the mover: the only country that can lose a tile
      is the owner of the attacked tile, which is another one. */
  lemma MoverSurvives(w: World, c: nat, p: Pos, q: Pos, pick: nat)
    requires WellFormed(w) && c < |w.countries| && InBounds(p) && InBounds(q)
    ensures Move(w, c, p, q, pick).countries[c].defeated == w.countries[c].defeated
  {
    var t := At(w.cells, p);
    if t.Tile? && t.troops > 0 {
      var k := t.troops;
      var w1 := Lift(w, c, p);
      var u := At(w1.cells, q);
      assert w1.countries[c].defeated == w.countries[c].defeated;
      if u.Untouched? {
        var w2 := Occupy(w1, c, q, k);
        assert w2.countries[c].defeated == w1.countries[c].defeated;
        assert Reward(w2, c, pick).countries[c].defeated == w2.countries[c].defeated;
      } else if u.owner == Some(c) {
        assert Merge(w1, c, q, k).countries[c].defeated == w1.countries[c].defeated;
      } else if k >= u.troops {
        // only the former owner of q, another country, can lose a tile
        var w2 := Seize(w1, c, q, k - u.troops);
        assert w2.countries[c].defeated == w1.countries[c].defeated;
        var w3 := Capture(w1, c, q, k);
        assert w3.countries[c].defeated == w2.countries[c].defeated;
        assert Reward(w3, c, pick).countries[c].defeated == w3.countries[c].defeated;
      } else {
        assert Repel(w1, c, q, k).countries[c].defeated == w1.countries[c].defeated;
      }
    }
  }
}
