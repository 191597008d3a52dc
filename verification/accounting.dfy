/** The bookkeeping a move keeps: each country's `current_territory` is the
    number of tiles marked as its own, `total_territory` never falls below it,
    the next reward threshold lies just above `total_territory`, and a country
    is defeated exactly when it has no territory left. */
module Accounting {
  import opened Grid
  import opened Troops
  import opened Rules

  /** Country i's counters agree with the board. */
  predicate Accounted(w: World, i: nat)
    requires i < |w.countries|
  {
    var cn := w.countries[i];
    cn.currentTerritory == Owned(w.cells, i) &&
    cn.currentTerritory <= cn.totalTerritory &&
    cn.totalTerritory < cn.nextReward <= cn.totalTerritory + 3 &&
    (cn.defeated <==> cn.currentTerritory == 0)
  }

  /** Country c has just taken a tile and its reward check is still due:
      its total may have caught up with the threshold. */
  predicate Due(w: World, c: nat)
    requires c < |w.countries|
  {
    var cn := w.countries[c];
    cn.currentTerritory == Owned(w.cells, c) &&
    cn.currentTerritory <= cn.totalTerritory &&
    cn.totalTerritory <= cn.nextReward <= cn.totalTerritory + 3 &&
    (cn.defeated <==> cn.currentTerritory == 0)
  }

  predicate Inv(w: World)
  {
    WellFormed(w) && forall i :: 0 <= i < |w.countries| ==> Accounted(w, i)
  }

  /** Every country but c is accounted for and c's reward check is due. */
  predicate InvDue(w: World, c: nat)
  {
    WellFormed(w) && c < |w.countries| && Due(w, c) &&
    forall i :: 0 <= i < |w.countries| && i != c ==> Accounted(w, i)
  }

  /** Changing the troops on a tile but not its owner changes no count. */
  lemma SameOwnerSameCounts(cells: seq<Cell>, k: nat, v: Cell, i: nat)
    requires k < |cells| && cells[k].Tile? && v.Tile? && v.owner == cells[k].owner
    ensures Owned(cells[k := v], i) == Owned(cells, i)
  {
    OwnedUpdate(cells, k, v, i);
  }

  /** Lifting a stack keeps every count. */
  lemma LiftKeepsInv(w: World, c: nat, p: Pos)
    requires Inv(w) && c < |w.countries| && InBounds(p) && At(w.cells, p).Tile?
    ensures Inv(Lift(w, c, p))
  {
    var r := Lift(w, c, p);
    assert r.cells == w.cells[Idx(p) := At(w.cells, p).(troops := 0)];
    forall i | 0 <= i < |r.countries| ensures Accounted(r, i) {
      SameOwnerSameCounts(w.cells, Idx(p), At(w.cells, p).(troops := 0), i);
      assert Accounted(w, i);
    }
  }

  /** Occupying an untouched cell leaves the mover with its reward check due. */
  lemma OccupyKeepsInv(w: World, c: nat, q: Pos, k: nat)
    requires Inv(w) && c < |w.countries| && !w.countries[c].defeated
    requires InBounds(q) && At(w.cells, q).Untouched?
    ensures InvDue(Occupy(w, c, q, k), c)
  {
    var r := Occupy(w, c, q, k);
    forall i | 0 <= i < |r.countries|
      ensures Owned(r.cells, i) == Owned(w.cells, i) + (if i == c then 1 else 0)
    {
      OwnedUpdate(w.cells, Idx(q), Tile(Some(c), k), i);
    }
    assert Accounted(w, c);
    forall i | 0 <= i < |r.countries| && i != c ensures Accounted(r, i) {
      assert Accounted(w, i);
    }
  }

  /** Merging onto an own tile keeps every count. */
  lemma MergeKeepsInv(w: World, c: nat, q: Pos, k: nat)
    requires Inv(w) && c < |w.countries| && InBounds(q) && At(w.cells, q).Tile?
    ensures Inv(Merge(w, c, q, k))
  {
    var r := Merge(w, c, q, k);
    var t := At(w.cells, q);
    forall i | 0 <= i < |r.countries| ensures Accounted(r, i) {
      SameOwnerSameCounts(w.cells, Idx(q), t.(troops := t.troops + k), i);
      assert Accounted(w, i);
    }
  }

  /** A country that loses its last tile is defeated and owns nothing; a
      country that keeps some stays undefeated; nobody else's land or
      counters change. */
  lemma LoseKeepsInv(w: World, d: nat)
    requires WellFormed(w) && d < |w.countries|
    requires w.countries[d].currentTerritory - 1 == Owned(w.cells, d)
    requires w.countries[d].currentTerritory <= w.countries[d].totalTerritory
    requires w.countries[d].totalTerritory < w.countries[d].nextReward <= w.countries[d].totalTerritory + 3
    requires !w.countries[d].defeated
    ensures var r := LoseTerritory(w, d);
      Accounted(r, d) &&
      (r.countries[d].defeated <==> Owned(w.cells, d) == 0) &&
      forall i :: 0 <= i < |w.countries| && i != d ==>
        r.countries[i] == w.countries[i] && Owned(r.cells, i) == Owned(w.cells, i)
  {
    var r := LoseTerritory(w, d);
    forall i | 0 <= i < |r.countries| ensures Owned(r.cells, i) == Owned(w.cells, i) {
      if w.countries[d].currentTerritory - 1 <= 0 {
        WipedCounts(w.cells, d, i);
      }
    }
  }

  /** Seizing q moves one tile from q's former owner, if any, to c. */
  lemma SeizeCounts(w: World, c: nat, q: Pos, x: nat, i: nat)
    requires WellFormed(w) && c < |w.countries| && InBounds(q) && At(w.cells, q).Tile?
    ensures Owned(Seize(w, c, q, x).cells, i)
         == Owned(w.cells, i) + (if i == c then 1 else 0) - (if At(w.cells, q).owner == Some(i) then 1 else 0)
  {
    assert Seize(w, c, q, x).cells == w.cells[Idx(q) := Tile(Some(c), x)];
    OwnedUpdate(w.cells, Idx(q), Tile(Some(c), x), i);
  }

  /** After seizing q, every country but c and q's former owner is accounted
      for, c's reward check is due, and the former owner's count is one below
      its counter. */
  lemma SeizeAccounts(w: World, c: nat, q: Pos, x: nat)
    requires Inv(w) && c < |w.countries| && !w.countries[c].defeated && InBounds(q)
    requires At(w.cells, q).Tile? && At(w.cells, q).owner != Some(c)
    ensures var w1 := Seize(w, c, q, x);
      Due(w1, c) &&
      (forall i :: 0 <= i < |w.countries| && i != c && Some(i) != At(w.cells, q).owner ==> Accounted(w1, i)) &&
      (At(w.cells, q).owner.Some? ==>
        var d := At(w.cells, q).owner.value;
        var dn := w1.countries[d];
        d < |w.countries| && dn == w.countries[d] &&
        dn.currentTerritory - 1 == Owned(w1.cells, d) && Owned(w.cells, d) > 0 &&
        dn.currentTerritory <= dn.totalTerritory &&
        dn.totalTerritory < dn.nextReward <= dn.totalTerritory + 3 && !dn.defeated)
  {
    var o := At(w.cells, q).owner;
    var w1 := Seize(w, c, q, x);
    assert Accounted(w, c);
    SeizeCounts(w, c, q, x, c);
    forall i | 0 <= i < |w.countries| && i != c && Some(i) != o ensures Accounted(w1, i) {
      assert Accounted(w, i);
      SeizeCounts(w, c, q, x, i);
    }
    if o.Some? {
      var d := o.value;
      assert Accounted(w, d);
      SeizeCounts(w, c, q, x, d);
      OwnedZero(w.cells, d);
      assert OwnedBy(w.cells[Idx(q)], d);
    }
  }

  /** A won battle leaves every count right and the winner's reward check due. */
  lemma CaptureKeepsInv(w: World, c: nat, q: Pos, a: nat)
    requires Inv(w) && c < |w.countries| && !w.countries[c].defeated && InBounds(q)
    requires At(w.cells, q).Tile? && At(w.cells, q).owner != Some(c) && a >= At(w.cells, q).troops
    ensures InvDue(Capture(w, c, q, a), c)
  {
    var t := At(w.cells, q);
    var w1 := Seize(w, c, q, a - t.troops);
    SeizeAccounts(w, c, q, a - t.troops);
    if t.owner.Some? {
      var d := t.owner.value;
      LoseKeepsInv(w1, d);
      var r := LoseTerritory(w1, d);
      assert Capture(w, c, q, a) == r;
      forall i | 0 <= i < |r.countries| && i != c && i != d ensures Accounted(r, i) {
        assert Accounted(w1, i);
      }
    } else {
      assert Capture(w, c, q, a) == w1;
    }
  }

  /** A held defence changes no owner and no counter. */
  lemma RepelKeepsInv(w: World, c: nat, q: Pos, a: nat)
    requires Inv(w) && c < |w.countries| && InBounds(q)
    requires At(w.cells, q).Tile? && a < At(w.cells, q).troops
    ensures Inv(Repel(w, c, q, a))
  {
    var r := Repel(w, c, q, a);
    var t := At(w.cells, q);
    forall i | 0 <= i < |r.countries| ensures Accounted(r, i) {
      SameOwnerSameCounts(w.cells, Idx(q), t.(troops := t.troops - a), i);
      assert Accounted(w, i);
    }
  }

  /** The reward check settles a due country: afterwards its total is again
      below the threshold, which is at most 3 above it. */
  lemma RewardSettles(w: World, c: nat, pick: nat)
    requires InvDue(w, c)
    ensures Inv(Reward(w, c, pick))
  {
    var r := Reward(w, c, pick);
    var safe := Found(w.cells, c, Safe);
    if w.countries[c].totalTerritory >= w.countries[c].nextReward
      && |w.countries[c].troops| > 0 && |safe| > 0
    {
      var s := safe[pick % |safe|];
      assert s in safe;
      var t := At(w.cells, s);
      forall i | 0 <= i < |r.countries| ensures Owned(r.cells, i) == Owned(w.cells, i) {
        SameOwnerSameCounts(w.cells, Idx(s), t.(troops := t.troops + 1), i);
      }
    }
    forall i | 0 <= i < |r.countries| ensures Accounted(r, i) {
      if i != c {
        assert Accounted(w, i);
      }
    }
  }

  /** Territory accounting survives every move of a country still in the
      game: the counts match the board, totals stay at or above current
      territory and just below the next threshold, and defeat means no land. */
  lemma MoveKeepsInv(w: World, c: nat, p: Pos, q: Pos, pick: nat)
    requires Inv(w) && c < |w.countries| && !w.countries[c].defeated
    requires InBounds(p) && InBounds(q)
    ensures Inv(Move(w, c, p, q, pick))
  {
    var t := At(w.cells, p);
    if t.Tile? && t.troops > 0 {
      var k := t.troops;
      var w1 := Lift(w, c, p);
      LiftKeepsInv(w, c, p);
      match At(w1.cells, q)
      case Untouched =>
        OccupyKeepsInv(w1, c, q, k);
        RewardSettles(Occupy(w1, c, q, k), c, pick);
      case Tile(o, b) =>
        if o == Some(c) {
          MergeKeepsInv(w1, c, q, k);
        } else if k >= b {
          CaptureKeepsInv(w1, c, q, k);
          RewardSettles(Capture(w1, c, q, k), c, pick);
        } else {
          RepelKeepsInv(w1, c, q, k);
        }
    }
  }
}
