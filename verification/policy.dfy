/** Which moves are allowed: the player's two-click move test and the AI's
    choice of a source cell and a target. */
module Policy {
  import opened Grid
  import opened Rules
  import opened Accounting
  import opened Outcomes

  /** The player's move test (war.py:272-276): one axis unchanged, the other
      changed by 1 or 2. */
  predicate IsLegalStep(from: Pos, to: Pos)
  {
    var dx := Abs(to.x - from.x);
    var dy := Abs(to.y - from.y);
    ((dx == 1 || dx == 2) && dy == 0) || ((dy == 1 || dy == 2) && dx == 0)
  }

  /** The player's move test accepts exactly the eight displacements the AI
      tries, so both sides share one move set. */
  lemma LegalStepIsReach(from: Pos, to: Pos)
    ensures IsLegalStep(from, to) <==> exists j :: 0 <= j < |Reach| && to == Shift(from, Reach[j])
  {
    var dx, dy := to.x - from.x, to.y - from.y;
    if IsLegalStep(from, to) {
      var j := if dx == 0 && dy == -1 then 0
               else if dx == 0 && dy == 1 then 1
               else if dx == -1 then 2
               else if dx == 1 then 3
               else if dy == -2 then 4
               else if dy == 2 then 5
               else if dx == -2 then 6
               else 7;
      assert to == Shift(from, Reach[j]);
    }
    if exists j :: 0 <= j < |Reach| && to == Shift(from, Reach[j]) {
      var j :| 0 <= j < |Reach| && to == Shift(from, Reach[j]);
      assert IsLegalStep(from, to);
    }
  }

  /** The cells the AI country c starts from (war.py:411-436): its border
      cells, or every cell holding its troops when it has no border cell. */
  function Sources(cells: seq<Cell>, c: nat): seq<Pos>
    requires Shaped(cells)
  {
    var border := Found(cells, c, Border);
    if |border| > 0 then border else Found(cells, c, Holding)
  }

  /** A source cell p is one holding c's troops that touches an untouched or
      enemy cell; when c has no such cell, any cell holding c's troops. */
  lemma SourcesExactly(cells: seq<Cell>, c: nat, p: Pos)
    requires Shaped(cells)
    ensures p in Sources(cells, c) <==>
      InBounds(p) && Holds(cells, c, p) &&
      (IsBorder(cells, c, p) || forall b :: InBounds(b) ==> !IsBorder(cells, c, b))
  {
    FoundExactly(cells, c, Border, p);
    FoundExactly(cells, c, Holding, p);
    if |Found(cells, c, Border)| > 0 {
      assert Found(cells, c, Border)[0] in Found(cells, c, Border);
    } else {
      forall b | InBounds(b) ensures !IsBorder(cells, c, b) {
        FoundExactly(cells, c, Border, b);
      }
    }
  }

  /** The number of troop groups on a cell (none on an untouched one). */
  function Strength(cell: Cell): nat
  {
    if cell.Tile? then cell.troops else 0
  }

  /** The AI's target test (war.py:465-477): an untouched cell, or an enemy
      tile with no more troops than the acting cell. Own and ownerless tiles
      are never targets. */
  predicate Attackable(cells: seq<Cell>, c: nat, from: Pos, to: Pos)
    requires Shaped(cells) && InBounds(from) && InBounds(to)
  {
    var target := At(cells, to);
    target.Untouched? ||
    (target.owner.Some? && target.owner != Some(c) && Strength(At(cells, from)) >= target.troops)
  }

  /** A move the AI country c may make. */
  predicate ValidAIMove(cells: seq<Cell>, c: nat, from: Pos, to: Pos)
    requires Shaped(cells)
  {
    InBounds(from) && from in Sources(cells, c) &&
    InBounds(to) && IsLegalStep(from, to) && Attackable(cells, c, from, to)
  }

  /** No target of `from` passes the AI's target test. */
  ghost predicate NoTarget(cells: seq<Cell>, c: nat, from: Pos)
    requires Shaped(cells) && InBounds(from)
  {
    forall to :: InBounds(to) && IsLegalStep(from, to) ==> !Attackable(cells, c, from, to)
  }

  /** The AI country c has no move at all. */
  ghost predicate NoAIMove(cells: seq<Cell>, c: nat)
    requires Shaped(cells)
  {
    forall from :: from in Sources(cells, c) ==> InBounds(from) && NoTarget(cells, c, from)
  }

  /** One country's share of `ai_turn` (war.py:404-487): the player and
      defeated countries are skipped; any other country makes exactly one
      move of its choice, or passes when it has none. */
  ghost predicate AIStep(w: World, c: nat, w': World)
    requires WellFormed(w) && c < |w.countries|
  {
    var cn := w.countries[c];
    if cn.isPlayer || cn.defeated then w' == w
    else
      (NoAIMove(w.cells, c) && w' == w) ||
      exists from: Pos, to: Pos, pick: nat ::
        ValidAIMove(w.cells, c, from, to) && w' == Move(w, c, from, to, pick)
  }

  /** What an AI move does: it starts from a cell of c holding troops and goes
      one or two cells straight to an untouched cell or to an enemy tile
      holding no more troops than it brings; never onto an own or ownerless
      tile. */
  lemma AIMoveShape(cells: seq<Cell>, c: nat, from: Pos, to: Pos)
    requires Shaped(cells) && ValidAIMove(cells, c, from, to)
    ensures OwnedBy(At(cells, from), c) && At(cells, from).troops > 0
    ensures from != to
    ensures At(cells, to).Untouched? ||
      (At(cells, to).owner.Some? && At(cells, to).owner != Some(c) &&
       At(cells, to).troops <= At(cells, from).troops)
  {
    SourcesExactly(cells, c, from);
  }

  /** An AI country's turn keeps the bookkeeping. */
  lemma AIStepKeepsInv(w: World, c: nat, w': World)
    requires Inv(w) && c < |w.countries| && AIStep(w, c, w')
    ensures Inv(w') && Evolves(w, w')
  {
    var cn := w.countries[c];
    if !(cn.isPlayer || cn.defeated) && w' != w {
      var from: Pos, to: Pos, pick: nat :|
        ValidAIMove(w.cells, c, from, to) && w' == Move(w, c, from, to, pick);
      MoveKeepsInv(w, c, from, to, pick);
    }
  }

  /** A move the AI may make keeps the bookkeeping, leaves the mover in the
      game and is one of the steps `AIStep` allows. */
  lemma AIMoveStep(w: World, c: nat, from: Pos, to: Pos, pick: nat)
    requires Inv(w) && c < |w.countries| && !w.countries[c].isPlayer && !w.countries[c].defeated
    requires ValidAIMove(w.cells, c, from, to)
    ensures var r := Move(w, c, from, to, pick);
      Inv(r) && Evolves(w, r) && !r.countries[c].defeated && AIStep(w, c, r)
  {
    MoveKeepsInv(w, c, from, to, pick);
    MoverSurvives(w, c, from, to, pick);
  }

  /** trace[i + 1] is the game after country i's step from trace[i]. */
  ghost predicate StepAt(trace: seq<World>, i: nat)
    requires i + 1 < |trace|
  {
    WellFormed(trace[i]) && i < |trace[i].countries| && AIStep(trace[i], i, trace[i + 1])
  }

  /** Every country below n has taken its step. */
  ghost predicate Steps(trace: seq<World>, n: nat)
    requires n < |trace|
  {
    forall i :: 0 <= i < n ==> StepAt(trace, i)
  }

  lemma StepsExtend(trace: seq<World>, n: nat, next: World)
    requires |trace| == n + 1 && Steps(trace, n)
    requires WellFormed(trace[n]) && n < |trace[n].countries| && AIStep(trace[n], n, next)
    ensures Steps(trace + [next], n + 1)
  {
    var t := trace + [next];
    forall i | 0 <= i < n + 1 ensures StepAt(t, i) {
      if i < n {
        StepKept(trace, next, i);
      } else {
        assert t[i] == trace[n] && t[i + 1] == next;
      }
    }
  }

  /** Appending to a trace keeps the steps already in it. */
  lemma StepKept(trace: seq<World>, next: World, i: nat)
    requires i + 1 < |trace| && StepAt(trace, i)
    ensures StepAt(trace + [next], i)
  {
    var t := trace + [next];
    assert t[i] == trace[i] && t[i + 1] == trace[i + 1];
  }

  /** The AI turn (war.py:404): every country, in list order, takes its step. */
  ghost predicate AIRound(w: World, trace: seq<World>, w': World)
  {
    |trace| == |w.countries| + 1 && trace[0] == w && trace[|w.countries|] == w' &&
    Steps(trace, |w.countries|)
  }

  lemma {:induction false} AIRoundPrefix(w: World, trace: seq<World>, w': World, n: nat)
    requires Inv(w) && AIRound(w, trace, w') && n <= |w.countries|
    ensures Inv(trace[n]) && |trace[n].countries| == |w.countries|
    decreases n
  {
    if n > 0 {
      AIRoundPrefix(w, trace, w', n - 1);
      assert StepAt(trace, n - 1);
      AIStepKeepsInv(trace[n - 1], n - 1, trace[n]);
    }
  }

  /** A whole AI turn keeps the bookkeeping. */
  lemma AIRoundKeepsInv(w: World, trace: seq<World>, w': World)
    requires Inv(w) && AIRound(w, trace, w')
    ensures Inv(w') && |w'.countries| == |w.countries|
  {
    AIRoundPrefix(w, trace, w', |w.countries|);
  }
}
