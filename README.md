# Backgammon rules engine — a verified model

This project models the rules engine of a small backgammon game (`src/game/rules.py`). Given a game state and a roll of two dice, the engine:

- generates the legal moves for one die (`single_die_moves`);
- assembles them into whole-turn actions of one or two steps (`legal_actions`);
- applies a step or an action to a copy of the state (`apply_step`, `apply_action`).

The board and the game state are objects that the engine copies and then changes in place. So they are modelled as classes:

- `Boards.Board` has the fields `points`, `bar` and `borneOff`.
- `GameStates.GameState` has the fields `board`, `currentPlayer` and `turnNumber`.
- Each class has a `Value()` view, a plain datatype.

The engine's functions that loop become methods. Each method is proved equal to a specification function on those values:

| method | specification function |
|---|---|
| `AllInHome` | `AllCheckersHome` |
| `SingleDieMoves` | `DieMoves` |
| `LegalActions` | `ActionsFor` |
| `ApplyStep` | `StepResult` |
| `ApplyAction` | `ActionResult` |

The rules are proved as lemmas about those functions. Each function is also related to an independent description of what it should give:

- `LegalStep` is a declarative statement of which single steps are legal.
- `LegalAction` is a declarative statement of which actions are legal.
- `NoneOutsideHome` says "no checker of the player on the bar or outside the home board".
- Checker totals are preserved by every step.

Modules:

- `Wrappers` (wrappers.dfy): `Option`, the model of Python's `None`.
- `Boards` (boards.dfy): players, points, and the board with its two primitives, `move_checker` and `hit_checker_at`. `board.py` is not part of this model. Its behaviour is stated in this module as the assumptions listed under "Left out".
- `GameStates` (game_states.dfy): the game state and its `copy`. `state.py` is not part of this model either.
- `Rules` (rules.dfy): the engine.
- `RulesScenarios` (scenarios.dfy): four worked positions. They are a checker on an open point, a hit on a blot, a blocked point, and a blocked bar entry.

Conventions, as in the source:

- Player 1 moves from index 23 towards 0.
- Player 2 moves from index 0 towards 23.
- `fromPoint == None` means a step from the bar.
- `toPoint == None` means bearing off.

## Model

| member | source | states |
|---|---|---|
| Rules.OtherPlayer | src/game/rules.py:12-14 | the opponent of a player is never that player |
| Rules.OtherPlayerInvolution | src/game/rules.py:12-14 | the opponent of the opponent is the player itself |
| Rules.DirectionFor | src/game/rules.py:40-47 | every move goes one index up or one index down per pip |
| Rules.OppositeDirections | src/game/rules.py:40-47 | the two players move in opposite directions |
| Rules.HomeBoardRange | src/game/rules.py:50-60 | the home board is six points inside the board, at the far end of the player's direction of travel |
| Rules.EntryPointFromBar | src/game/rules.py:63-75 | for a die from 1 to 6, the entry point lies in the opponent's home board; it is `die` points on from the position just off the board behind that home board |
| Rules.AllCheckersHomeMeans | src/game/rules.py:78-93 | the counting test of `all_in_home` holds exactly when the player has no checker on the bar and none on a point outside the home board |
| Rules.OutsideCheckerMeansNotHome | src/game/rules.py:78-93 | one checker on a point outside the home board makes `all_in_home` false |
| Rules.AllInHome | src/game/rules.py:78-93 | the loop computes the counting test, so its answer means that no checker is outside home |
| Rules.StepResult | src/game/rules.py:191-211 | applying a step keeps the board well formed; it does not change whose turn it is or the turn number; every player keeps the same number of checkers |
| Rules.HitSendsVictimToBar | src/game/rules.py:203-209 | a hit adds one checker to the opponent's bar; after a hit on the destination, the mover holds that point with one checker |
| Rules.BarEntry | src/game/rules.py:117-126 | every bar-entry step can be applied to the state |
| Rules.MoveFrom | src/game/rules.py:130-150 | every step from one point can be applied to the state |
| Rules.BoardMoves | src/game/rules.py:128-152 | every board step can be applied to the state |
| Rules.DieMoves | src/game/rules.py:99-152 | every step generated for one die can be applied to the state |
| Rules.DieMovesComplete | src/game/rules.py:99-152 | a step is generated exactly when it is legal by the declarative rule |
| Rules.DieMovesAscending | src/game/rules.py:128-152 | with the bar empty, steps come in strictly ascending order of their source point, so there is at most one per point |
| Rules.BarPriority | src/game/rules.py:117-126 | with a checker on the bar, at most one step is offered, and it enters from the bar at the entry point; none is offered exactly when two or more opposing checkers hold the entry point |
| Rules.NeverOntoBlockedPoint | src/game/rules.py:118-147 | no step lands on a point held by two or more opposing checkers |
| Rules.HitIffBlot | src/game/rules.py:118-150 | a step hits exactly when it lands on a lone opposing checker, and then it hits its own destination; bearing off never hits |
| Rules.BoardStepShape | src/game/rules.py:129-150 | a board step starts on a point the mover holds; unless it bears off, it ends exactly `die` points on in the mover's direction |
| Rules.BearOffOnlyWhenHome | src/game/rules.py:135-140 | bearing off is offered only from the home board, and only when all checkers are home |
| Rules.OvershootOnlyFromHome | src/game/rules.py:133-138 | a move that runs off the board always starts on the home board |
| Rules.SingleDieMoves | src/game/rules.py:99-152 | the method returns exactly the steps of the specification function `DieMoves` |
| Rules.ApplyStep | src/game/rules.py:191-211 | returns a new state object with a new board, equal to the hit followed by the move; the input is not modified |
| Rules.ActionResult | src/game/rules.py:214-223 | applying an action keeps the board well formed; it does not change whose turn it is or the turn number; every player keeps the same number of checkers |
| Rules.TwoStepActionResult | src/game/rules.py:214-223 | a two-step action is the second step applied to the state the first one leaves |
| Rules.ApplyAction | src/game/rules.py:214-223 | returns the result of folding the steps; an empty action gives back the same object, any other gives a new one; the input is not modified |
| Rules.Dedup | src/game/rules.py:183-184 | the result has no duplicates and holds exactly the elements of its input |
| Rules.ActionsForMembers | src/game/rules.py:155-185 | an action is in the list exactly when it is legal by the declarative rule: a single step for either die, or two steps in either die order with the second generated from the state the first leaves |
| Rules.ActionsHaveOneOrTwoSteps | src/game/rules.py:166-181 | every action has one or two steps |
| Rules.SingleStepsOffered | src/game/rules.py:167-171 | every single-die step of either die is offered as an action on its own |
| Rules.ActionsApplicable | src/game/rules.py:173-181 | every offered action can be applied step by step |
| Rules.ComposeTwoSteps | src/game/rules.py:175-181 | the loop over the first steps builds, in order, every first step followed by each second step from the state it leaves |
| Rules.AppendFollowups | src/game/rules.py:180-181 | the inner loop appends one two-step action per second step, in order |
| Rules.LegalActions | src/game/rules.py:155-185 | the list has no duplicates and holds exactly the legal actions |
| Boards.AfterMove | src/game/rules.py:208-209 | under the assumed semantics of `move_checker`, the board stays well formed and every player's checker count is unchanged |
| Boards.AfterHit | src/game/rules.py:203-206 | under the assumed semantics of `hit_checker_at`, the victim's bar gains one checker, the point loses one, and the totals are unchanged |
| Boards.Board.MoveChecker | src/game/rules.py:208-209 | the board is changed in place to the assumed result of the move |
| Boards.Board.HitCheckerAt | src/game/rules.py:203-206 | the board is changed in place to the assumed result of the hit |
| GameStates.GameState.Copy | src/game/rules.py:199 | the copy is a new object with a new board and the same value |
| RulesScenarios.MoveToEmptyPoint | src/game/rules.py:142-150 | a lone checker on index 23 with a 2 has the single step to the empty index 21 |
| RulesScenarios.MoveHitsBlot | src/game/rules.py:149-150 | the same move onto a lone opposing checker hits it |
| RulesScenarios.MoveBlocked | src/game/rules.py:145-147 | the same move onto two opposing checkers gives no step |
| RulesScenarios.EntryBlocked | src/game/rules.py:118-126 | with a checker on the bar and the entry point held by two opposing checkers, no step is offered |

## Left out

- `board.py`, `state.py` and `dice.py` are not part of this model. The board's primitives are modelled with these assumed semantics:
  - `move_checker` takes a checker from the point or the bar and adds it to the point or the borne-off count.
  - `hit_checker_at` moves one checker from the point to its owner's bar.
  - A point whose last checker leaves has owner 0.
  - `total_checkers_for` is the sum of the player's checkers on points, on the bar and borne off.
- Boards.Board.MoveChecker and Boards.Board.HitCheckerAt require their preconditions: a checker to move, and a destination that is not held by the opponent. How `board.py` reacts when they fail is not known, so it is not modelled.
- Rules.ApplyStep: requires the step to satisfy those preconditions (`Applicable`). `DieMoves` proves this for every step it generates, and `ActionsApplicable` proves it for every action offered. Steps from elsewhere must meet it.
- Rules.SingleDieMoves: requires the die to be from 1 to 6. Other values could index off the board, or wrap around through Python's negative indices. Those cases are not modelled. The same applies to Rules.LegalActions and the value-level functions.
- GameStates.GameState.Copy: the history that `copy(copy_history=False)` leaves out, and any other field of the state, are not modelled.
- Rules.Dedup: the list keeps the first occurrence of each action, as Python's dict does. The contract promises only that there are no duplicates and that the members are the same; the order is not stated.
- The engine's own simplifications are kept as written and not "corrected": there is no rule to use both dice or the larger die, bearing off does not need the exact pip count, and doubles give two steps, not four.
- `expand_dice` is imported but unused in the engine, so it is not modelled.
- Conservation of exactly 15 checkers per player is not a constant of the model. It is stated as "every player's total is unchanged by every step and action".
- `tests/test_board.py` and `src/ui/graphical_main.py` are not part of this model.
- The bar-entry test is modelled exactly as written: empty, own, or a single checker not of the mover. Under the assumption that an owned point has at least one checker, this is the same as "not blocked", and `DieMovesComplete` proves that.
