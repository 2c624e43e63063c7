/**
 * Worked positions for single-die move generation: Player1 to move with one
 * checker on point 23, and a die of 2 (or a checker on the bar and a die of 3).
 */
module RulesScenarios {
  import opened Wrappers
  import opened Boards
  import opened GameStates
  import opened Rules

  /** The moves for `die` are `x` alone when `x` is the only legal step. */
  lemma OnlyLegalStep(s: StateValue, die: int, x: Step)
    requires s.Valid() && 1 <= die <= 6 && LegalStep(s, die, x)
    requires forall st | LegalStep(s, die, st) :: st == x
    ensures DieMoves(s, die) == [x]
  {
    var moves := DieMoves(s, die);
    DieMovesComplete(s, die, x);
    forall st | st in moves
      ensures st == x
    {
      DieMovesComplete(s, die, st);
    }
    if s.board.Bar(s.currentPlayer) > 0 {
      BarPriority(s, die);
    } else {
      DieMovesAscending(s, die);
      FirstTwo(moves);
    }
  }

  lemma FirstTwo(moves: seq<Step>)
    ensures |moves| >= 2 ==> moves[0] in moves && moves[1] in moves
  {
  }

  /** There are no moves for `die` when no step is legal. */
  lemma NoLegalStep(s: StateValue, die: int)
    requires s.Valid() && 1 <= die <= 6
    requires forall st: Step :: !LegalStep(s, die, st)
    ensures DieMoves(s, die) == []
  {
    var moves := DieMoves(s, die);
    if moves != [] {
      DieMovesComplete(s, die, moves[0]);
    }
  }

  /** Player1 to move; one checker of its own on point 23, `at21` on point 21, `bar1` checkers on its bar. */
  function Position(at21: Slot, bar1: nat): (s: StateValue)
    requires at21.Consistent()
    ensures s.Valid() && s.currentPlayer == Player1
  {
    var points := seq(NPoints, i =>
      if i == 23 then Slot(Owned(Player1), 1) else if i == 21 then at21 else Slot(Nobody, 0));
    StateValue(BoardValue(points, [bar1, 0], [0, 0]), Player1, 1)
  }

  /** Point 21 empty: the only move with a 2 is 23 to 21, without a hit. */
  lemma MoveToEmptyPoint()
    ensures DieMoves(Position(Slot(Nobody, 0), 0), 2) == [Step(Some(23), Some(21), None)]
  {
    var s := Position(Slot(Nobody, 0), 0);
    OnlyLegalStep(s, 2, Step(Some(23), Some(21), None));
  }

  /** A lone checker of Player2 on point 21: the move 23 to 21 hits it. */
  lemma MoveHitsBlot()
    ensures DieMoves(Position(Slot(Owned(Player2), 1), 0), 2) == [Step(Some(23), Some(21), Some(21))]
  {
    var s := Position(Slot(Owned(Player2), 1), 0);
    OnlyLegalStep(s, 2, Step(Some(23), Some(21), Some(21)));
  }

  /** Two checkers of Player2 on point 21: 23 to 21 is blocked and nothing else can move. */
  lemma MoveBlocked()
    ensures DieMoves(Position(Slot(Owned(Player2), 2), 0), 2) == []
  {
    NoLegalStep(Position(Slot(Owned(Player2), 2), 0), 2);
  }

  /** A checker on the bar and a 3: entry is on point 21, and two checkers of Player2 there block it. */
  lemma EntryBlocked()
    ensures EntryPointFromBar(Player1, 3) == 21
    ensures DieMoves(Position(Slot(Owned(Player2), 2), 1), 3) == []
  {
    NoLegalStep(Position(Slot(Owned(Player2), 2), 1), 3);
  }
}
