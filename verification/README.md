# A verified model of the `war.py` conquest game engine

`war.py` is a turn-based territory game on a board of 25 by 15 cells. The
player's country and five AI countries each start on one cell holding one
troop group.

**The player's turn.** One click selects a player tile that holds troops. A
second click, one or two cells away in a straight line, moves the tile's
whole stack there. The stack may:

- occupy an untouched cell;
- join an own tile;
- fight the tile of another country.

In a fight the attacker wins with at least as many groups as the defender and
keeps the difference. Otherwise the defender keeps the difference. A country
that loses its last tile is defeated.

**Rewards.** A country counts every cell it has ever held, its start cell
included. Whenever that total reaches the reward threshold (3 at the start),
the threshold rises by 3. At that moment one new group is placed on a "safe"
own cell chosen at random, if the country's troop list is not empty and it has
such a cell. A safe cell has no foreign or ownerless entered cell among itself
and its four neighbours. Otherwise nothing is placed.

**The AI turn.** After the player's move each AI country makes at most one
move. It starts from a border cell (or, without one, any cell with troops)
and goes to a cell it may take. The turn is then counted and the game ends
when one country is left.

## How the model is built

**Modules.**

- `Grid`: the board as a row-major sequence of cells, the three board scans
  the engine performs (safe cells, border cells, cells holding troops) and
  the count of a country's tiles.
- `Troops`: a country's troop list as a sequence of positions, with the
  by-value `remove` and filter the source applies to it.
- `Rules`: one move as functions on a snapshot `World` of the board and the
  countries (`Lift`, `Occupy`, `Merge`, `Capture`, `LoseTerritory`, `Repel`,
  `Reward`, `Battle`, `Move`). `Outcomes` states case by case what these
  functions do.
- `Accounting`: the bookkeeping every move keeps:
  - `current_territory` equals the number of tiles marked as the country's;
  - the total never falls below it;
  - the next reward threshold lies just above the total;
  - `defeated` holds exactly when no territory is left.
- `Policy`: the legal player step, the AI's choice of source and target, and
  the AI turn as a relation between snapshots.
- `Placement`: the start placement.
- `War`: the `Game` class. Its board is an `array`, and its countries,
  selection, game-over flag, winner and turn counter are fields updated in
  place. Each method is proved to change the game exactly as the functions
  of `Rules` and `Policy` say.

**Randomness.** `random.choice` and `random.shuffle` draw from a stream of
numbers stored in the game (`dice`). Where the outcome depends on a draw,
the contract names the draw as a ghost value (`pick`). The AI's choice of
move is specified as "some legal move, or a pass when there is none".

**The troop lists.** A country's list and the tiles' lists are not kept in
step by the source: a won battle leaves the loser's entries for the tile,
and a held defence filters the defender's list down to its entries on the
attacked tile. The model states these effects as written and claims no
agreement between the lists and the tiles. A tile's groups all carry the
tile's coordinates, so a tile is modelled by its owner and its number of
groups.

## Model

| member | source | states |
|---|---|---|
| Grid.Collect | war.py:72-85 | every position the scan has listed so far is on the board, comes before the scan point in row-major order, and passes the cell test |
| Grid.CollectComplete | war.py:72-85 | every on-board cell before the scan point that passes the test is listed |
| Grid.FoundExactly | war.py:412-436 | a position is in a full board scan exactly when it is on the board and passes the test |
| Grid.WipedCounts | war.py:361-365 | after the defeat sweep for d, d owns no tile and every other country owns as many tiles as before |
| Troops.RemoveFirst | war.py:293-295 | `if v in s: s.remove(v)` removes one entry equal to v when there is one and leaves every other entry |
| Troops.RemoveEach | war.py:293-295 | removing the k moved groups that stand on v drops up to k entries equal to v and no other entry |
| Troops.KeepIn | war.py:387 | the comprehension keeps every entry found in the kept list, with its multiplicity, and drops all others |
| Accounting.LiftKeepsInv | war.py:288-295 | lifting a stack off its tile keeps every country's counters in agreement with the board |
| Accounting.OccupyKeepsInv | war.py:305-313 | occupying an untouched cell gives the mover one more tile and one more total, leaving its reward check due and every other country accounted for |
| Accounting.MergeKeepsInv | war.py:317-320 | joining an own tile changes no owner and no counter |
| Accounting.SeizeCounts | war.py:341-354 | taking q moves exactly one tile from q's former owner, if any, to the winner |
| Accounting.SeizeAccounts | war.py:341-354 | after taking q the winner's reward check is due, q's former owner has lost one tile not yet deducted, and every other country is accounted for |
| Accounting.LoseKeepsInv | war.py:355-365 | deducting the lost tile accounts the loser again; it is defeated exactly when it has no tile left, and nobody else changes |
| Accounting.CaptureKeepsInv | war.py:339-365 | a won battle leaves every country accounted for except the winner, whose reward check is due |
| Accounting.RepelKeepsInv | war.py:367-387 | a held defence changes no owner and no counter |
| Accounting.RewardSettles | war.py:61-100 | the reward check brings the due country's threshold back above its total, by at most 3, and keeps every count |
| Accounting.MoveKeepsInv | war.py:281-323 | a whole-stack move by a country still in the game keeps the bookkeeping of every country |
| Outcomes.RewardOutcome | war.py:61-100 | the reward check raises the threshold by 3 when the total has reached it; it adds one group on a safe own cell exactly when the threshold was reached, the list was not empty and a safe cell exists; nothing else changes |
| Outcomes.MoveOccupies | war.py:288-315 | a move onto an untouched cell: p is emptied, q becomes the mover's with all k groups, the mover gains a tile and a total, its list swaps up to k entries on p for k on q, others are untouched, and the reward check follows |
| Outcomes.MoveMerges | war.py:317-320 | a move onto an own tile: q gains the k groups, p is emptied, the list swaps up to k entries on p for k on q, no counter changes |
| Outcomes.MoveCaptures | war.py:339-365 | a won battle: q becomes the mover's with k - b groups, the mover gains a tile and a total, the former owner loses a tile and is defeated (with its tiles disowned) when its count drops to 0, and the reward check follows |
| Outcomes.MoveRepelled | war.py:367-387 | a held defence: q keeps its owner and b - k >= 1 groups (so the branch for an emptied tile is never taken), the mover loses up to k list entries on p and on q, and the owner's list keeps exactly its entries on q |
| Outcomes.DefeatedOwnNothing | war.py:355-365 | under the bookkeeping, a defeated country owns no tile |
| Outcomes.SweepFindsNothing | war.py:359-365 | under the bookkeeping, the defeat sweep clears nothing: the defeated country had just lost its only tile |
| Outcomes.MoverSurvives | war.py:281-323 | a move never changes the mover's own defeat flag |
| Policy.LegalStepIsReach | war.py:270-276 | the player's step test accepts exactly the eight displacements the AI tries (war.py:452) |
| Policy.SourcesExactly | war.py:411-436 | the AI starts from an own cell holding troops that touches an untouched or enemy cell, or from any own cell holding troops when none does |
| Policy.AIMoveShape | war.py:442-480 | an AI move leaves an own cell holding troops for a different cell that is untouched, or an enemy tile holding no more groups than the source |
| Policy.AIStepKeepsInv | war.py:404-487 | one country's part of the AI turn keeps the bookkeeping |
| Policy.AIMoveStep | war.py:489-596 | a legal AI move keeps the bookkeeping, keeps the mover in the game and is a step the AI turn allows |
| Policy.AIRoundKeepsInv | war.py:403-487 | a whole AI turn keeps the bookkeeping and the countries |
| Placement.NotNearMeansNew | war.py:142 | a candidate that passed the too-close test is never already listed, so the second half of the acceptance test never rejects |
| Placement.EmptyBoard | war.py:120 | the fresh board has 25 x 15 cells, all untouched |
| Placement.StartBoardCells | war.py:143-148 | on the start board each start is its country's tile with one group and every other cell is untouched |
| Placement.StartBoardCounts | war.py:143-151 | on the start board every placed country owns exactly one tile |
| Placement.StartAccounted | war.py:129-152 | the game as the start placement leaves it satisfies the bookkeeping |
| War.Active | war.py:599 | the active list holds exactly the undefeated countries, in list order, and all of them when nobody is defeated |
| War.SoleSurvivor | war.py:601-603 | when one country is active it is the only undefeated one |
| War.MoveSound | war.py:281-323 | a move by a country in the game keeps the bookkeeping and the roles, and somebody stays in the game |
| War.TooClose | war.py:136-142 | the scan reports a clash exactly when an earlier start lies within 3 cells on both axes |
| War.Targets | war.py:449-455 | the target list holds exactly the on-board cells one or two cells away in a straight line |
| War.Game.Roll | war.py:89 | a drawn index is below the number of choices |
| War.Game.Shuffle | war.py:439 | the shuffled list is a permutation of the input |
| War.Game.Test | war.py:74-85 | the cell test returns exactly the safety, border or holding predicate |
| War.Game.Scan | war.py:412-436 | the nested row-column scan returns exactly the full-board scan in row-major order |
| War.Game.ScanRow | war.py:73-85 | scanning one row appends exactly that row's passing cells, left to right, to the cells of the rows above |
| War.Game.ClearOwnership | war.py:361-365 | after the sweep every tile of d has no owner and every other cell is unchanged |
| War.Game.AddTerritory | war.py:61-100 | the game changes exactly as the reward check says; the result is true exactly when the country's list grew |
| War.Game.RemoveMoved | war.py:293-295 | the country's list loses up to k entries equal to v and nothing else changes |
| War.Game.ResolveBattle | war.py:332-401 | the game changes exactly as the battle says: a won battle and its reward check, or a held defence |
| War.Game.Conquer | war.py:339-365 | the game changes exactly as a won battle says |
| War.Game.Hold | war.py:367-401 | the game changes exactly as a held defence says |
| War.Game.Defend | war.py:376-387 | q keeps b - a of its groups and its owner's list keeps exactly its entries on q; the attacker's side is left to Hold |
| War.Game.MoveStack | war.py:489-596 | the game changes exactly as the whole-stack move says |
| War.Game.PickTarget | war.py:449-480 | a target found is on the board, a legal step away and passes the target test; none found means no target passes |
| War.Game.PickMove | war.py:411-481 | a move found is a legal AI move; none found means the country has no legal move |
| War.Game.AIAct | war.py:404-487 | one country's part of the AI turn is a step `AIStep` allows, and the game stays sound |
| War.Game.AITurn | war.py:403-487 | the AI turn is a trace of per-country steps in list order, and the game stays sound |
| War.Game.CheckGameOver | war.py:598-603 | the game ends, with the sole survivor as winner, exactly when one country is undefeated; otherwise nothing changes |
| War.Game.MoveTroops | war.py:281-330 | nothing changes when p holds no troops; otherwise the player's move and then a full AI turn happen, the turn is counted, and the game is over exactly when one country is left, which then wins |
| War.Game.PlayTurn | war.py:286-330 | once p holds troops: the move, the AI turn, one more turn counted, and game over exactly when one country is left |
| War.Game.PlayerTurn | war.py:286-326 | the player's move followed by an AI turn, with the bookkeeping kept |
| War.Game.EndTurn | war.py:327-330 | the turn counter rises by one and the game is over exactly when one country is left |
| War.Game.HandleClick | war.py:249-279 | a click is ignored when the game is over or off the board; a first click selects exactly a player tile holding troops; a second click performs the move when the step is legal and always clears the selection; the game stays valid |
| War.Game.Select | war.py:260-265 | the clicked cell is selected exactly when it is a player tile holding troops |
| War.Game.Aim | war.py:266-279 | a legal second click performs the move and the AI turn, any other changes nothing; the selection is cleared |
| War.Game.SelectionAlive | war.py:262-265 | a player who holds a selected tile with troops is not defeated |
| War.Game.InitializeGame | war.py:129-152 | every accepted start is on the board, becomes its country's tile with one group, and sets the country's territory to 1, its list to that start and its threshold to 3 |
| War.Game.RestartGame | war.py:605-621 | a fresh board with the start placement, every country reset and placed, no selection, no winner, turn 0, and a valid game |
| War.Game.ResetCountries | war.py:608-613 | every country is back to its initial counters, threshold 3, an empty list and not defeated, keeping its role |
| War.Game.Settled | war.py:129-152 | after the start placement the game is valid |
| War.Game.constructor | war.py:103-127 | the player and five AI countries on a newly allocated board with the start placement, no selection, not over, no winner, turn 0, a valid game |

## Left out

- Rendering, fonts, colours, country names, the event loop (`run`), `draw_grid` and the half-second delay after an AI move: these are display concerns with no effect on the game state.
- The retry loop of `initialize_game`, which draws random starts until one is accepted. The model takes the accepted starts as input (`Spread`: each start lies in the start box and passes the acceptance test against the earlier ones). The loop is unbounded and random.
- Randomness: the start positions that `random.randint` draws (war.py:134-135) are an input, `starts`, of the constructor and of `RestartGame`. `random.choice` and `random.shuffle` draw from the `dice` stream of numbers, taken modulo the number of choices, and 0 once the stream is empty. The contracts quantify over every draw.
- `random.sample` in a held defence: every kept group stands on the attacked tile, so which groups are kept does not change the state.
- War.Game.PickTarget, War.Game.PickMove: the source performs the AI move inside its nested loops and then breaks out. The model lets these loops return the chosen move and performs it afterwards. The re-check of the source cell at war.py:443-446 is omitted because it always passes: nothing moves before the country's one move.
- War.Game.ClearOwnership: the rows-then-columns sweep runs as one loop over the row-major board, which visits the cells in the same order.
- War.Game.Aim: the selection is cleared before the move rather than after. The move never reads the selection.
- Aliasing of troop objects: the source moves the very group objects of a stack and rewrites their coordinates in place (war.py:298-300, 506-508). Its country lists hold objects too, some of them the same objects as the tiles' lists (war.py:95, 98, 313, 320, 350, 521, 528, 546). A `remove` by `==` (war.py:294, 502) may delete an older entry with equal coordinates instead of the moved object, and the moved object then stays in the list and moves with the stack. The model keeps positions by value.
- Outcomes.MoveOccupies, Outcomes.MoveMerges, Outcomes.MoveCaptures, Outcomes.MoveRepelled: the country-list effects these state hold for the source only when each `remove` deletes the moved object itself (see the aliasing line above). Otherwise the model's list keeps a stale position where the source holds the destination, and a later filter (war.py:387, 582) can then keep a different number of entries. For example, a stale entry G(q) left by a lost tie followed by a reward group R(q) moved on to t gives [t, t] in the source and [q, t] in the model. The board and the counters depend on a country's list only through the reward's test that the list is not empty (war.py:68); the model states that test on its own list.
- The branch for a defender left with no groups (war.py:388-401, 583-596) cannot be taken, because the defender keeps b - a >= 1 groups. It appears in the model only as a proved-dead branch.
- The comment at war.py:15 says the board is 17 cells high; the formula gives (700 - 100) // 40 = 15, which the model uses.
- `Country.get_troop_count`: a display helper that is never called by the game logic.
- `shueret.py` and `boxes.py` are not part of this model.
