/**
 * The game state the rules engine works on: a board, the player to move and
 * the turn number. Its own implementation is not part of this model; only
 * the copy that the engine takes before it changes anything is modelled.
 */
module GameStates {
  import opened Boards

  /** The value of a game state. */
  datatype StateValue = StateValue(board: BoardValue, currentPlayer: Player, turnNumber: nat) {
    predicate Valid() {
      board.Valid()
    }
  }

  class GameState {
    var board: Board
    var currentPlayer: Player
    var turnNumber: nat

    function Value(): StateValue
      reads this, board
    {
      StateValue(board.Value(), currentPlayer, turnNumber)
    }

    predicate Valid()
      reads this, board
    {
      board.Valid()
    }

    constructor (v: StateValue)
      requires v.Valid()
      ensures Valid() && Value() == v && fresh(board)
    {
      board := new Board(v.board);
      currentPlayer := v.currentPlayer;
      turnNumber := v.turnNumber;
    }

    /** An independent copy: a new state object over a new board object with the same value. */
    method Copy() returns (c: GameState)
      requires Valid()
      ensures fresh(c) && fresh(c.board)
      ensures c.Valid() && c.Value() == Value()
    {
      c := new GameState(Value());
    }
  }
}
