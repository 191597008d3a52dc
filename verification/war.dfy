/** The game object (`Game` in war.py): the board, the countries, the player's
    selection, the game-over flag, the winner and the turn counter, changed in
    place by the click handler, the moves, the AI turn, the game-over check and
    the restart. Random choices are drawn from a stream of numbers handed in
    from outside. */
module War {
  import opened Grid
  import opened Troops
  import opened Rules
  import opened Accounting
  import opened Policy
  import opened Outcomes
  import opened Placement

  /** The player and five AI countries (war.py:108-117). */
  const CountryCount: nat := 6

  /** The player is country 0 and every other country is an AI country. */
  predicate Roles(cs: seq<Country>)
  {
    |cs| == CountryCount && forall i :: 0 <= i < |cs| ==> (cs[i].isPlayer <==> i == 0)
  }

  /** The countries not yet defeated, in list order (war.py:599). */
  function Active(cs: seq<Country>): (r: seq<nat>)
    ensures forall i :: i in r <==> 0 <= i < |cs| && !cs[i].defeated
    ensures forall a, b :: 0 <= a < b < |r| ==> r[a] < r[b]
    ensures (forall i :: 0 <= i < |cs| ==> !cs[i].defeated) ==> |r| == |cs|
  {
    if cs == [] then []
    else
      var n := |cs| - 1;
      var prefix := cs[..n];
      assert forall i :: 0 <= i < n ==> prefix[i] == cs[i];
      var r := Active(prefix);
      var last: seq<nat> := if cs[n].defeated then [] else [n];
      assert forall a :: 0 <= a < |r| ==> r[a] < n by {
        forall a | 0 <= a < |r| ensures r[a] < n {
          assert r[a] in r;
        }
      }
      assert forall i :: i in r + last <==> i in r || i in last;
      r + last
  }

  /** When one country is left, it is the only undefeated one. */
  lemma SoleSurvivor(cs: seq<Country>)
    requires |Active(cs)| == 1
    ensures forall i :: 0 <= i < |cs| ==> (!cs[i].defeated <==> i == Active(cs)[0])
  {
    assert Active(cs)[0] in Active(cs);
  }

  /** A move by a country still in the game keeps the bookkeeping and the
      roles, and leaves at least that country in the game. */
  lemma MoveSound(w: World, c: nat, p: Pos, q: Pos, pick: nat)
    requires Inv(w) && Roles(w.countries) && c < |w.countries| && !w.countries[c].defeated
    requires InBounds(p) && InBounds(q)
    ensures var r := Move(w, c, p, q, pick);
      Inv(r) && Roles(r.countries) && |Active(r.countries)| >= 1
  {
    MoveKeepsInv(w, c, p, q, pick);
    MoverSurvives(w, c, p, q, pick);
    assert c in Active(Move(w, c, p, q, pick).countries);
  }

  /** The too-close scan (war.py:136-142): does an earlier start lie within
      three cells of p on both axes? */
  method TooClose(positions: seq<Pos>, p: Pos) returns (close: bool)
    ensures close <==> exists j :: 0 <= j < |positions| && Near(positions[j], p)
  {
    close := false;
    var j := 0;
    while j < |positions|
      invariant 0 <= j <= |positions|
      invariant forall l :: 0 <= l < j ==> !Near(positions[l], p)
    {
      if Abs(positions[j].x - p.x) < 4 && Abs(positions[j].y - p.y) < 4 {
        close := true;
        break;
      }
      j := j + 1;
    }
  }

  /** The on-board cells one or two steps from p in a straight line, in the
      order the AI lists them (war.py:452-455). */
  method Targets(p: Pos) returns (targets: seq<Pos>)
    ensures forall t :: t in targets <==> InBounds(t) && IsLegalStep(p, t)
  {
    targets := [];
    var j := 0;
    while j < |Reach|
      invariant 0 <= j <= |Reach|
      invariant forall t :: t in targets <==> InBounds(t) && exists l :: 0 <= l < j && t == Shift(p, Reach[l])
    {
      var n := Shift(p, Reach[j]);
      if 0 <= n.x < Width && 0 <= n.y < Height {
        targets := targets + [n];
      }
      j := j + 1;
    }
    forall t ensures t in targets <==> InBounds(t) && IsLegalStep(p, t) {
      LegalStepIsReach(p, t);
    }
  }

  class Game {
    /** The board, row by row: cell (x, y) is grid[y * Width + x]. */
    var grid: array<Cell>
    /** The countries, the player first. */
    var countries: seq<Country>
    /** The tile picked by the player's first click (`selected_tile`). */
    var selected: Option<Pos>
    var gameOver: bool
    /** The index of the winning country once the game is over. */
    var winner: Option<nat>
    var turnCount: int
    /** The numbers random choices are drawn from. */
    var dice: seq<nat>

    /** The board and the countries as a value. */
    function State(): World
      reads this`grid, this`countries, grid
    {
      World(grid[..], countries)
    }

    /** The bookkeeping holds, the roles are fixed and somebody is still in
        the game. */
    ghost predicate Sound()
      reads this`grid, this`countries, grid
    {
      grid.Length == Width * Height && Inv(State()) && Roles(countries) &&
      |Active(countries)| >= 1
    }

    /** Between clicks: a selected tile is the player's and holds troops, the
        game is over exactly when one country is left, and the winner is that
        country. */
    ghost predicate Valid()
      reads this, grid
    {
      Sound() &&
      (selected.Some? ==> InBounds(selected.value) && Holds(grid[..], 0, selected.value)) &&
      (gameOver <==> |Active(countries)| == 1) &&
      winner == (if gameOver then Some(Active(countries)[0]) else None)
    }

    /** A random index below n, as `random.choice` and `random.shuffle` draw
        them; 0 once the stream is used up. */
    method Roll(n: nat) returns (k: nat)
      requires n > 0
      modifies this`dice
      ensures k < n
    {
      if |dice| > 0 {
        k := dice[0] % n;
        dice := dice[1..];
      } else {
        k := 0;
      }
    }

    /** `random.shuffle`: the Fisher-Yates shuffle, a permutation of s. */
    method Shuffle(s: seq<Pos>) returns (r: seq<Pos>)
      modifies this`dice
      ensures multiset(r) == multiset(s)
    {
      r := s;
      var i := |r|;
      while i > 1
        invariant 0 <= i <= |r| && multiset(r) == multiset(s)
      {
        var j := Roll(i);
        var last := r[i - 1];
        r := r[i - 1 := r[j]][j := last];
        i := i - 1;
      }
    }

    /** The cell test of a board scan, as the source writes it: the owner and
        troop test, then for a safety or border test a walk over the
        neighbours that stops at the first one that decides. */
    method Test(c: nat, probe: Probe, p: Pos) returns (b: bool)
      requires grid.Length == Width * Height && InBounds(p)
      ensures b == Passes(grid[..], c, probe, p)
    {
      var cell := grid[Idx(p)];
      match probe
      case Holding =>
        b := cell.Tile? && cell.owner == Some(c) && cell.troops > 0;
      case Safe =>
        if !(cell.Tile? && cell.owner == Some(c)) {
          return false;
        }
        b := true;
        var j := 0;
        while j < |SelfAndOrthogonal|
          invariant 0 <= j <= |SelfAndOrthogonal|
          invariant forall l :: 0 <= l < j ==> !Foreign(grid[..], c, Shift(p, SelfAndOrthogonal[l]))
        {
          var n := Shift(p, SelfAndOrthogonal[j]);
          if 0 <= n.x < Width && 0 <= n.y < Height && grid[Idx(n)].Tile? && grid[Idx(n)].owner != Some(c) {
            b := false;
            break;
          }
          j := j + 1;
        }
      case Border =>
        if !(cell.Tile? && cell.owner == Some(c) && cell.troops > 0) {
          return false;
        }
        b := false;
        var j := 0;
        while j < |Orthogonal|
          invariant 0 <= j <= |Orthogonal|
          invariant forall l :: 0 <= l < j ==> !Contact(grid[..], c, Shift(p, Orthogonal[l]))
        {
          var n := Shift(p, Orthogonal[j]);
          if 0 <= n.x < Width && 0 <= n.y < Height {
            var neighbour := grid[Idx(n)];
            if neighbour.Untouched? || (neighbour.owner.Some? && neighbour.owner != Some(c)) {
              b := true;
              break;
            }
          }
          j := j + 1;
        }
    }

    /** A `for y: for x:` scan of the board collecting the cells that pass
        `probe` (war.py:74-88, 412-428, 430-436). */
    method Scan(c: nat, probe: Probe) returns (found: seq<Pos>)
      requires grid.Length == Width * Height
      ensures found == Found(grid[..], c, probe)
    {
      found := [];
      var y := 0;
      while y < Height
        invariant 0 <= y <= Height
        invariant found == Collect(grid[..], c, probe, 0, y)
      {
        found := ScanRow(c, probe, y, found);
        assert Collect(grid[..], c, probe, 0, y + 1) == found;
        y := y + 1;
      }
    }

    /** One row of the scan: the `for x` loop appending the cells of row y that pass. */
    method ScanRow(c: nat, probe: Probe, y: int, before: seq<Pos>) returns (found: seq<Pos>)
      requires grid.Length == Width * Height && 0 <= y < Height
      requires before == Collect(grid[..], c, probe, 0, y)
      ensures found == Collect(grid[..], c, probe, Width, y)
    {
      found := before;
      var x := 0;
      while x < Width
        invariant 0 <= x <= Width
        invariant found == Collect(grid[..], c, probe, x, y)
      {
        var passes := Test(c, probe, Pos(x, y));
        if passes {
          found := found + [Pos(x, y)];
        }
        x := x + 1;
      }
    }

    /** The defeat sweep (war.py:361-365, 396-400, 556-560, 591-596): every tile
        still marked as d's loses its owner. */
    method ClearOwnership(d: nat)
      requires grid.Length == Width * Height
      modifies grid
      ensures grid[..] == Wiped(old(grid[..]), d)
    {
      // the rows-then-columns scan of the source, over the row-major board
      var k := 0;
      while k < grid.Length
        invariant 0 <= k <= grid.Length
        invariant forall l :: 0 <= l < k ==> grid[l] == Disown(old(grid[l]), d)
        invariant forall l :: k <= l < grid.Length ==> grid[l] == old(grid[l])
      {
        var t := grid[k];
        if t.Tile? && t.owner == Some(d) {
          grid[k] := t.(owner := None);
        }
        k := k + 1;
      }
    }

    /** `add_territory` (war.py:61-100) for country c; `placed` is its result. */
    method AddTerritory(c: nat) returns (placed: bool, ghost pick: nat)
      requires grid.Length == Width * Height && WellFormed(State()) && c < |countries|
      modifies this`countries, this`dice, grid
      ensures State() == Reward(old(State()), c, pick)
      ensures placed <==> |countries[c].troops| == |old(countries[c].troops)| + 1
    {
      pick := 0;
      placed := false;
      ghost var w := State();
      var cn := countries[c];
      if cn.totalTerritory >= cn.nextReward {
        var raised := cn.(nextReward := cn.nextReward + 3);
        countries := countries[c := raised];
        if |cn.troops| > 0 {
          var safe := Scan(c, Safe);
          assert safe == Found(w.cells, c, Safe);
          if |safe| > 0 {
            var k := Roll(|safe|);
            pick := k;
            var s := safe[k];
            assert k % |safe| == k;
            FoundExactly(grid[..], c, Safe, s);
            var t := grid[Idx(s)];
            countries := countries[c := raised.(troops := cn.troops + [s])];
            grid[Idx(s)] := t.(troops := t.troops + 1);
            placed := true;
            assert State() == SetCountry(SetCell(w, s, t.(troops := t.troops + 1)), c, raised.(troops := raised.troops + [s]));
          } else {
            assert State() == SetCountry(w, c, raised);
          }
        } else {
          assert State() == SetCountry(w, c, raised);
        }
      }
    }

    /** `troops.remove(v)` once for each of k moved groups standing on v, when
        present (war.py:293-295, 372-375, 501-503, 567-570). */
    method RemoveMoved(c: nat, v: Pos, k: nat)
      requires c < |countries|
      modifies this`countries
      ensures countries == old(countries[c := countries[c].(troops := RemoveEach(countries[c].troops, v, k))])
    {
      var list := countries[c].troops;
      var i := 0;
      while i < k
        invariant 0 <= i <= k
        invariant list == RemoveEach(countries[c].troops, v, i)
      {
        list := RemoveFirst(list, v);
        i := i + 1;
      }
      countries := countries[c := countries[c].(troops := list)];
    }

    /** `resolve_battle` (war.py:332-401) and its copy inside `ai_move`
        (war.py:530-596): c's a groups meet the tile q. */
    method ResolveBattle(c: nat, q: Pos, a: nat) returns (ghost pick: nat)
      requires grid.Length == Width * Height && WellFormed(State()) && c < |countries| && InBounds(q)
      requires grid[Idx(q)].Tile?
      modifies this`countries, this`dice, grid
      ensures State() == Battle(old(State()), c, q, a, pick)
    {
      pick := 0;
      if a >= grid[Idx(q)].troops {
        Conquer(c, q, a);
        var placed;
        placed, pick := AddTerritory(c);
      } else {
        Hold(c, q, a);
      }
    }

    /** The won battle (war.py:339-365, 535-560): q becomes c's with the
        a - b surviving groups, and q's former owner loses a tile, and with
        its last tile every tile still marked as its own. */
    method Conquer(c: nat, q: Pos, a: nat)
      requires grid.Length == Width * Height && WellFormed(State()) && c < |countries| && InBounds(q)
      requires grid[Idx(q)].Tile? && a >= grid[Idx(q)].troops
      modifies this`countries, grid
      ensures State() == Capture(old(State()), c, q, a)
    {
      ghost var w := State();
      var tile := grid[Idx(q)];
      var defender := tile.owner;
      var b := tile.troops;
      grid[Idx(q)] := Tile(Some(c), a - b);
      var cn := countries[c];
      countries := countries[c := cn.(troops := cn.troops + Copies(q, a - b),
                                      currentTerritory := cn.currentTerritory + 1,
                                      totalTerritory := cn.totalTerritory + 1)];
      assert State() == Seize(w, c, q, a - b);
      if defender.Some? {
        var d := defender.value;
        assert OwnerIn(w.cells[Idx(q)], |w.countries|);
        countries := countries[d := countries[d].(currentTerritory := countries[d].currentTerritory - 1)];
        if countries[d].currentTerritory <= 0 {
          countries := countries[d := countries[d].(defeated := true)];
          ClearOwnership(d);
        }
      }
    }

    /** The held defence (war.py:369-387, 564-582): the attacker's a groups
        leave its list and q keeps b - a of its groups. */
    method Hold(c: nat, q: Pos, a: nat)
      requires grid.Length == Width * Height && WellFormed(State()) && c < |countries| && InBounds(q)
      requires grid[Idx(q)].Tile? && a < grid[Idx(q)].troops
      modifies this`countries, grid
      ensures State() == Repel(old(State()), c, q, a)
    {
      RemoveMoved(c, q, a);
      Defend(q, a);
    }

    /** The defender keeps b - a groups on q, and its list only its entries on q. */
    method Defend(q: Pos, a: nat)
      requires grid.Length == Width * Height && WellFormed(State()) && InBounds(q)
      requires grid[Idx(q)].Tile? && a < grid[Idx(q)].troops
      modifies this`countries, grid
      ensures State() == Garrison(old(State()), q, a)
    {
      ghost var w := State();
      var tile := grid[Idx(q)];
      var defender := tile.owner;
      var remaining := tile.troops - a;
      if remaining > 0 {
        // the kept groups all stand on q, so which ones `random.sample` keeps does not matter
        grid[Idx(q)] := tile.(troops := remaining);
        if defender.Some? {
          var d := defender.value;
          assert OwnerIn(w.cells[Idx(q)], |w.countries|);
          countries := countries[d := countries[d].(troops := KeepIn(countries[d].troops, Copies(q, remaining)))];
        }
      } else {
        // the defender always keeps b - a >= 1 groups: this branch is never taken
        assert false;
      }
    }

    /** The whole-stack move of country c from p to q: `move_troops` up to its
        AI part (war.py:281-323) and `ai_move` (war.py:489-596). */
    method MoveStack(c: nat, p: Pos, q: Pos) returns (ghost pick: nat)
      requires grid.Length == Width * Height && WellFormed(State()) && c < |countries|
      requires InBounds(p) && InBounds(q)
      modifies this`countries, this`dice, grid
      ensures State() == Move(old(State()), c, p, q, pick)
    {
      pick := 0;
      ghost var w := State();
      var from := grid[Idx(p)];
      if from.Untouched? || from.troops == 0 {
        return;
      }
      var k := from.troops;
      grid[Idx(p)] := from.(troops := 0);
      RemoveMoved(c, p, k);
      assert State() == Lift(w, c, p);
      var to := grid[Idx(q)];
      match to
      case Untouched =>
        grid[Idx(q)] := Tile(Some(c), k);
        var cn := countries[c];
        countries := countries[c := cn.(currentTerritory := cn.currentTerritory + 1,
                                        totalTerritory := cn.totalTerritory + 1,
                                        troops := cn.troops + Copies(q, k))];
        assert State() == Occupy(Lift(w, c, p), c, q, k);
        var placed;
        placed, pick := AddTerritory(c);
      case Tile(o, n) =>
        if o == Some(c) {
          grid[Idx(q)] := to.(troops := n + k);
          countries := countries[c := countries[c].(troops := countries[c].troops + Copies(q, k))];
        } else {
          pick := ResolveBattle(c, q, k);
        }
    }

    /** The inner loop of `ai_turn` for the cell p (war.py:451-481): the
        on-board targets in shuffled order, stopping at the first untouched
        cell or enemy tile holding no more troops than p. */
    method PickTarget(c: nat, p: Pos) returns (moved: bool, t: Pos)
      requires grid.Length == Width * Height && InBounds(p)
      modifies this`dice
      ensures moved ==> InBounds(t) && IsLegalStep(p, t) && Attackable(grid[..], c, p, t)
      ensures !moved ==> NoTarget(grid[..], c, p)
    {
      t := p;
      ghost var cells := grid[..];
      var tile := grid[Idx(p)];
      var candidates := Targets(p);
      var targets := Shuffle(candidates);
      assert forall u :: u in targets <==> u in candidates by {
        forall u ensures u in targets <==> u in candidates {
          assert u in multiset(targets) <==> u in multiset(candidates);
        }
      }
      var j := 0;
      while j < |targets|
        invariant 0 <= j <= |targets|
        invariant forall l :: 0 <= l < j ==> !Attackable(cells, c, p, targets[l])
      {
        t := targets[j];
        var target := grid[Idx(t)];
        if target.Untouched? {
          return true, t;
        }
        if target.owner.Some? && target.owner != Some(c) && Strength(tile) >= target.troops {
          return true, t;
        }
        j := j + 1;
      }
      moved := false;
      forall u | InBounds(u) && IsLegalStep(p, u) ensures !Attackable(cells, c, p, u) {
        assert u in targets;
      }
    }

    /** The outer loop of `ai_turn` for country c (war.py:411-487): its border
        cells (or, without any, its cells holding troops) in shuffled order,
        stopping at the first one that has a target. */
    method PickMove(c: nat) returns (moved: bool, p: Pos, t: Pos)
      requires grid.Length == Width * Height
      modifies this`dice
      ensures moved ==> ValidAIMove(grid[..], c, p, t)
      ensures !moved ==> NoAIMove(grid[..], c)
    {
      p, t := Pos(0, 0), Pos(0, 0);
      ghost var cells := grid[..];
      ghost var sources := Sources(cells, c);
      var tiles := Scan(c, Border);
      if |tiles| == 0 {
        tiles := Scan(c, Holding);
      }
      assert tiles == sources;
      tiles := Shuffle(tiles);
      var i := 0;
      while i < |tiles|
        invariant 0 <= i <= |tiles| && grid[..] == cells
        invariant multiset(tiles) == multiset(sources)
        invariant forall l :: 0 <= l < i ==> InBounds(tiles[l]) && NoTarget(cells, c, tiles[l])
      {
        p := tiles[i];
        assert p in multiset(sources);
        SourcesExactly(cells, c, p);
        moved, t := PickTarget(c, p);
        if moved {
          return;
        }
        i := i + 1;
      }
      moved := false;
      forall from | from in sources ensures InBounds(from) && NoTarget(cells, c, from) {
        assert from in multiset(tiles);
      }
    }

    /** Country c's part of `ai_turn` (war.py:404-487): the player and defeated
        countries are skipped; any other country makes the move `PickMove`
        finds, if any, and its turn ends. */
    method AIAct(c: nat)
      requires Sound() && c < |countries|
      modifies this`countries, this`dice, grid
      ensures Sound()
      ensures AIStep(old(State()), c, State())
    {
      ghost var w := State();
      var cn := countries[c];
      if cn.isPlayer || cn.defeated {
        return;
      }
      var moved, p, t := PickMove(c);
      if moved {
        ghost var pick := MoveStack(c, p, t);
        AIMoveStep(w, c, p, t, pick);
        assert c in Active(countries);
      }
    }

    /** `ai_turn` (war.py:403-487): every country in list order takes its step. */
    method AITurn() returns (ghost trace: seq<World>)
      requires Sound()
      modifies this`countries, this`dice, grid
      ensures Sound()
      ensures AIRound(old(State()), trace, State())
    {
      trace := [State()];
      var i := 0;
      while i < |countries|
        invariant 0 <= i <= |countries| && Sound()
        invariant |trace| == i + 1 && trace[0] == old(State()) && trace[i] == State()
        invariant Steps(trace, i)
      {
        AIAct(i);
        StepsExtend(trace, i, State());
        trace := trace + [State()];
        i := i + 1;
      }
    }

    /** `check_game_over` (war.py:598-603): the game ends when exactly one
        country is undefeated, and that country wins. */
    method CheckGameOver()
      modifies this`gameOver, this`winner
      ensures |Active(countries)| == 1 ==> gameOver && winner == Some(Active(countries)[0])
      ensures |Active(countries)| != 1 ==> gameOver == old(gameOver) && winner == old(winner)
    {
      var active := Active(countries);
      if |active| == 1 {
        gameOver := true;
        winner := Some(active[0]);
      }
    }

    /** `move_troops` (war.py:281-330): the player's move from p to q, then the
        AI turn, the turn count and the game-over check; nothing at all happens
        when p holds no troops. */
    method MoveTroops(p: Pos, q: Pos) returns (ghost pick: nat, ghost trace: seq<World>)
      requires Sound() && InBounds(p) && InBounds(q) && !countries[0].defeated
      requires !gameOver && winner == None && |Active(countries)| != 1
      modifies this`countries, this`dice, this`gameOver, this`winner, this`turnCount, grid
      ensures Sound()
      ensures Strength(old(grid[Idx(p)])) == 0 ==> State() == old(State()) && turnCount == old(turnCount)
      ensures Strength(old(grid[Idx(p)])) > 0 ==>
        AIRound(Move(old(State()), 0, p, q, pick), trace, State()) && turnCount == old(turnCount) + 1
      ensures (gameOver <==> |Active(countries)| == 1)
      ensures winner == if gameOver then Some(Active(countries)[0]) else None
    {
      pick, trace := 0, [];
      var from := grid[Idx(p)];
      if from.Untouched? || from.troops == 0 {
        return;
      }
      pick, trace := PlayTurn(p, q);
    }

    /** `move_troops` once p is known to hold troops (war.py:286-330). */
    method PlayTurn(p: Pos, q: Pos) returns (ghost pick: nat, ghost trace: seq<World>)
      requires Sound() && InBounds(p) && InBounds(q) && !countries[0].defeated
      requires !gameOver && winner == None
      modifies this`countries, this`dice, this`gameOver, this`winner, this`turnCount, grid
      ensures Sound()
      ensures AIRound(Move(old(State()), 0, p, q, pick), trace, State()) && turnCount == old(turnCount) + 1
      ensures (gameOver <==> |Active(countries)| == 1)
      ensures winner == if gameOver then Some(Active(countries)[0]) else None
    {
      pick, trace := PlayerTurn(p, q);
      EndTurn();
    }

    /** The end of `move_troops` (war.py:327-330): the turn is counted and the
        game-over check runs. */
    method EndTurn()
      requires !gameOver && winner == None
      modifies this`gameOver, this`winner, this`turnCount
      ensures State() == old(State())
      ensures turnCount == old(turnCount) + 1
      ensures (gameOver <==> |Active(countries)| == 1)
      ensures winner == if gameOver then Some(Active(countries)[0]) else None
    {
      turnCount := turnCount + 1;
      CheckGameOver();
    }

    /** The player's move from p to q followed by the AI turn
        (war.py:286-326). */
    method PlayerTurn(p: Pos, q: Pos) returns (ghost pick: nat, ghost trace: seq<World>)
      requires Sound() && InBounds(p) && InBounds(q) && !countries[0].defeated
      modifies this`countries, this`dice, grid
      ensures Sound()
      ensures AIRound(Move(old(State()), 0, p, q, pick), trace, State())
    {
      ghost var w := State();
      pick := MoveStack(0, p, q);
      MoveSound(w, 0, p, q, pick);
      trace := AITurn();
    }

    /** `handle_click` (war.py:249-279) for a click at pixel (px, py): ignored
        when the game is over or off the board; a first click selects a
        player tile holding troops; a second click moves there when exactly
        one axis differs, by 1 or 2, and always clears the selection. */
    method HandleClick(px: int, py: int) returns (ghost pick: nat, ghost trace: seq<World>)
      requires Valid()
      modifies this, grid
      ensures Valid() && grid == old(grid)
      ensures var g := Pos(px / TileSize, py / TileSize);
        if old(gameOver) || !InBounds(g) then
          State() == old(State()) && selected == old(selected) && turnCount == old(turnCount)
        else if old(selected).None? then
          State() == old(State()) && turnCount == old(turnCount) &&
          selected == (if Holds(old(grid[..]), 0, g) then Some(g) else None)
        else
          selected == None &&
          if IsLegalStep(old(selected).value, g) then
            AIRound(Move(old(State()), 0, old(selected).value, g, pick), trace, State()) &&
            turnCount == old(turnCount) + 1
          else
            State() == old(State()) && turnCount == old(turnCount)
    {
      pick, trace := 0, [];
      if gameOver {
        return;
      }
      var gx := px / TileSize;
      var gy := py / TileSize;
      if !(0 <= gx < Width && 0 <= gy < Height) {
        return;
      }
      var g := Pos(gx, gy);
      if selected.None? {
        Select(g);
      } else {
        pick, trace := Aim(g);
      }
    }

    /** The first click (war.py:260-265): the clicked cell is selected when it
        is a player tile holding troops. */
    method Select(g: Pos)
      requires Valid() && InBounds(g) && selected.None?
      modifies this`selected
      ensures Valid()
      ensures selected == if Holds(grid[..], 0, g) then Some(g) else None
    {
      var tile := grid[Idx(g)];
      if tile.Tile? && tile.owner == Some(0) && tile.troops > 0 {
        selected := Some(g);
      }
    }

    /** The second click (war.py:266-279): the selected stack moves to the
        clicked cell when the step is legal, and the selection is cleared
        either way. */
    method Aim(g: Pos) returns (ghost pick: nat, ghost trace: seq<World>)
      requires Valid() && InBounds(g) && selected.Some? && !gameOver
      modifies this, grid
      ensures Valid() && grid == old(grid) && selected == None
      ensures IsLegalStep(old(selected).value, g) ==>
        AIRound(Move(old(State()), 0, old(selected).value, g, pick), trace, State()) &&
        turnCount == old(turnCount) + 1
      ensures !IsLegalStep(old(selected).value, g) ==>
        State() == old(State()) && turnCount == old(turnCount)
    {
      pick, trace := 0, [];
      var s := selected.value;
      SelectionAlive();
      // the move never reads the selection, so clearing it first changes nothing
      selected := None;
      if IsLegalStep(s, g) {
        pick, trace := MoveTroops(s, g);
      }
    }

    /** The selected tile holds troops, so the player is not defeated. */
    lemma SelectionAlive()
      requires Valid() && selected.Some?
      ensures Strength(grid[Idx(selected.value)]) > 0 && !countries[0].defeated
    {
      assert Accounted(State(), 0);
      OwnedZero(grid[..], 0);
      assert OwnedBy(grid[..][Idx(selected.value)], 0);
    }

    /** `initialize_game` (war.py:129-152), given the start each country's
        retry loop accepted: each start passes the too-close test and becomes
        its country's tile with one group. */
    method InitializeGame(starts: seq<Pos>)
      requires grid.Length == Width * Height && |starts| == |countries| && Spread(starts)
      requires forall k :: 0 <= k < grid.Length ==> grid[k] == Untouched
      modifies this`countries, grid
      ensures forall i :: 0 <= i < |starts| ==> InBounds(starts[i])
      ensures grid[..] == StartBoard(starts)
      ensures |countries| == |starts|
      ensures forall i :: 0 <= i < |countries| ==>
        countries[i] == old(countries[i]).(currentTerritory := 1, totalTerritory := 1, troops := [starts[i]], nextReward := 3)
    {
      assert forall i :: 0 <= i < |starts| ==> InBounds(starts[i]);
      var positions: seq<Pos> := [];
      assert grid[..] == StartBoard(starts[..0]);
      var i := 0;
      while i < |countries|
        invariant 0 <= i <= |countries| == |starts|
        invariant positions == starts[..i]
        invariant grid[..] == StartBoard(starts[..i])
        invariant forall j :: 0 <= j < |countries| ==>
          countries[j] == if j < i then old(countries[j]).(currentTerritory := 1, totalTerritory := 1,
                                                          troops := [starts[j]], nextReward := 3)
                          else old(countries[j])
      {
        var p := starts[i];
        var close := TooClose(positions, p);
        NotNearMeansNew(positions, p);
        assert !close && p !in positions;
        positions := positions + [p];
        grid[Idx(p)] := Tile(Some(i), 1);
        countries := countries[i := countries[i].(currentTerritory := 1, totalTerritory := 1,
                                                  troops := [p], nextReward := 3)];
        assert starts[..i + 1][..i] == starts[..i];
        i := i + 1;
      }
      assert starts[..i] == starts;
    }

    /** `restart_game` (war.py:605-621): a fresh empty board, every country's
        counters, list and defeat reset, no selection, no winner, turn 0, then
        the start placement. */
    method RestartGame(starts: seq<Pos>)
      requires Roles(countries) && |starts| == CountryCount && Spread(starts)
      modifies this
      ensures Valid() && fresh(grid)
      ensures grid[..] == StartBoard(starts)
      ensures forall i :: 0 <= i < |countries| ==> countries[i] == Placed(old(countries[i].isPlayer), starts[i])
      ensures selected == None && !gameOver && winner == None && turnCount == 0
    {
      var board := new Cell[Width * Height](_ => Untouched);
      grid := board;
      ResetCountries();
      selected := None;
      gameOver := false;
      winner := None;
      turnCount := 0;
      InitializeGame(starts);
      Settled(starts);
    }

    /** The reset loop of `restart_game` (war.py:608-613): every country's
        counters, list and defeat flag go back to their initial values. */
    method ResetCountries()
      modifies this`countries
      ensures |countries| == old(|countries|)
      ensures forall j :: 0 <= j < |countries| ==> countries[j] == Unplaced(old(countries[j].isPlayer))
    {
      var i := 0;
      while i < |countries|
        invariant 0 <= i <= |countries| && |countries| == old(|countries|)
        invariant forall j :: 0 <= j < |countries| ==>
          countries[j] == if j < i then Unplaced(old(countries[j].isPlayer)) else old(countries[j])
      {
        countries := countries[i := countries[i].(currentTerritory := 0, totalTerritory := 0,
                                                  troops := [], nextReward := 3, defeated := false)];
        i := i + 1;
      }
    }

    /** After the start placement the game is `Valid`. */
    lemma Settled(starts: seq<Pos>)
      requires grid.Length == Width * Height && Spread(starts) && |starts| == CountryCount
      requires |countries| == CountryCount
      requires grid[..] == StartBoard(starts)
      requires forall i :: 0 <= i < CountryCount ==> countries[i] == Placed(i == 0, starts[i])
      requires selected == None && !gameOver && winner == None
      ensures Valid()
    {
      var roles := seq(|starts|, i requires 0 <= i < |starts| => i == 0);
      StartAccounted(starts, roles);
      assert countries == seq(|starts|, i requires 0 <= i < |starts| => Placed(roles[i], starts[i]));
    }

    /** `Game.__init__` (war.py:103-127): the player and five AI countries, an
        empty board, then the start placement. */
    constructor (starts: seq<Pos>, rolls: seq<nat>)
      requires |starts| == CountryCount && Spread(starts)
      ensures Valid() && fresh(grid) && turnCount == 0 && dice == rolls
      ensures selected == None && !gameOver && winner == None
      ensures grid[..] == StartBoard(starts)
      ensures forall i :: 0 <= i < |countries| ==> countries[i] == Placed(i == 0, starts[i])
    {
      var cs := [Unplaced(true)];
      var i := 0;
      while i < 5
        invariant 0 <= i <= 5 && |cs| == i + 1
        invariant forall j :: 0 <= j < |cs| ==> cs[j] == Unplaced(j == 0)
      {
        cs := cs + [Unplaced(false)];
        i := i + 1;
      }
      countries := cs;
      grid := new Cell[Width * Height](_ => Untouched);
      selected := None;
      gameOver := false;
      winner := None;
      turnCount := 0;
      dice := rolls;
      new;
      InitializeGame(starts);
      Settled(starts);
    }
  }
}
