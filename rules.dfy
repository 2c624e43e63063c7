/**
 * The backgammon rules engine: board geometry, the steps one die allows,
 * the one- and two-step actions a pair of dice allows, and applying steps
 * and actions to a game state.
 *
 * Each operation that the engine performs with a loop or by changing a
 * copied state is a method; the function it is proved against works on
 * values (`StateValue`, `BoardValue`), and the properties the engine
 * promises are lemmas about those functions.
 *
 * Conventions: Player1 moves from high indices to low and has its home board
 * on points 0..5; Player2 moves from low indices to high and has its home
 * board on points 18..23. A step's `fromPoint` is None for a checker coming
 * from the bar, its `toPoint` is None for a checker borne off.
 */
module Rules {
  import opened Wrappers
  import opened Boards
  import opened GameStates

  // ----- Players, steps, actions -----

  /** The opponent of `p`. */
  function OtherPlayer(p: Player): (q: Player)
    ensures q != p
  {
    if p == Player2 then Player1 else Player2
  }

  lemma OtherPlayerInvolution(p: Player)
    ensures OtherPlayer(OtherPlayer(p)) == p
  {
  }

  /** One checker moved with one die. */
  datatype Step = Step(fromPoint: Option<int>, toPoint: Option<int>, hitIndex: Option<int>)

  /** A whole turn: the steps in the order they are played. */
  datatype Action = Action(steps: seq<Step>)

  // ----- Geometry -----

  /** The sign of a move of `p` along the point indices. */
  function DirectionFor(p: Player): (d: int)
    ensures d == 1 || d == -1
  {
    if p == Player1 then -1 else 1
  }

  lemma OppositeDirections(p: Player)
    ensures DirectionFor(OtherPlayer(p)) == -DirectionFor(p)
  {
  }

  /** A half-open range of indices, as Python's `range(start, stop)`. */
  datatype IndexRange = IndexRange(start: int, stop: int) {
    predicate Contains(i: int) {
      start <= i < stop
    }
  }

  /** The six points of `p`'s home board: the last six points of `p`'s way round the board. */
  function HomeBoardRange(p: Player): (r: IndexRange)
    ensures 0 <= r.start && r.stop <= NPoints && r.stop - r.start == 6
    ensures DirectionFor(p) < 0 ==> r.start == 0
    ensures DirectionFor(p) > 0 ==> r.stop == NPoints
  {
    if p == Player1 then IndexRange(0, 6) else IndexRange(18, 24)
  }

  /**
   * Where a checker of `p` enters from the bar with `die`: `die` points on from
   * the position just off the board behind the opponent's home board, so inside
   * the opponent's home board.
   */
  function EntryPointFromBar(p: Player, die: int): (e: int)
    ensures 1 <= die <= 6 ==> HomeBoardRange(OtherPlayer(p)).Contains(e)
    ensures e == (if DirectionFor(p) < 0 then NPoints else -1) + DirectionFor(p) * die
  {
    if p == Player1 then 24 - die else die - 1
  }

  // ----- All checkers home -----

  /** The checkers of `p` that stand on home-board points among the first `n` points. */
  function InHomeCount(b: BoardValue, p: Player, n: int): nat
    requires b.Valid() && 0 <= n <= NPoints
  {
    if n == 0 then 0
    else
      var slot := b.points[n - 1];
      InHomeCount(b, p, n - 1)
        + (if slot.owner == Owned(p) && HomeBoardRange(p).Contains(n - 1) then slot.count else 0)
  }

  /** `all_in_home`, as the engine computes it: by counting checkers. */
  function AllCheckersHome(b: BoardValue, p: Player): bool
    requires b.Valid()
  {
    var total := b.TotalCheckersFor(p);
    b.BorneOff(p) == total || InHomeCount(b, p, NPoints) + b.BorneOff(p) == total
  }

  /** No checker of `p` is on the bar or on a point outside `p`'s home board. */
  predicate NoneOutsideHome(b: BoardValue, p: Player)
    requires b.Valid()
  {
    && b.Bar(p) == 0
    && forall i | 0 <= i < NPoints && !HomeBoardRange(p).Contains(i) :: b.points[i].owner != Owned(p)
  }

  /** The checkers of `p` that stand on points outside its home board among the first `n`. */
  ghost function OutsideCount(b: BoardValue, p: Player, n: int): nat
    requires b.Valid() && 0 <= n <= NPoints
  {
    if n == 0 then 0
    else
      var slot := b.points[n - 1];
      OutsideCount(b, p, n - 1)
        + (if slot.owner == Owned(p) && !HomeBoardRange(p).Contains(n - 1) then slot.count else 0)
  }

  lemma {:induction false} CountSplit(b: BoardValue, p: Player, n: int)
    requires b.Valid() && 0 <= n <= NPoints
    ensures CheckersOn(b.points[..n], p) == InHomeCount(b, p, n) + OutsideCount(b, p, n)
  {
    if n > 0 {
      CountSplit(b, p, n - 1);
      assert b.points[..n][..n - 1] == b.points[..n - 1];
    }
  }

  lemma {:induction false} OutsideCountZero(b: BoardValue, p: Player, n: int)
    requires b.Valid() && 0 <= n <= NPoints
    ensures OutsideCount(b, p, n) == 0 <==>
      forall i | 0 <= i < n && !HomeBoardRange(p).Contains(i) :: b.points[i].owner != Owned(p)
  {
    if n > 0 {
      OutsideCountZero(b, p, n - 1);
      assert b.points[n - 1].Consistent();
    }
  }

  /** The counting test of `all_in_home` holds exactly when no checker of `p` is outside its home board or on the bar. */
  lemma AllCheckersHomeMeans(b: BoardValue, p: Player)
    requires b.Valid()
    ensures AllCheckersHome(b, p) <==> NoneOutsideHome(b, p)
  {
    CountSplit(b, p, NPoints);
    assert b.points[..NPoints] == b.points;
    OutsideCountZero(b, p, NPoints);
  }

  /** A checker of `p` on a point outside its home board makes `all_in_home` false. */
  lemma OutsideCheckerMeansNotHome(b: BoardValue, p: Player, i: int)
    requires b.Valid() && 0 <= i < NPoints
    requires b.points[i].owner == Owned(p) && !HomeBoardRange(p).Contains(i)
    ensures !AllCheckersHome(b, p)
  {
    AllCheckersHomeMeans(b, p);
  }

  /** `all_in_home`: the loop over the 24 points, with the short cut when every checker is borne off. */
  method AllInHome(board: Board, player: Player) returns (r: bool)
    requires board.Valid()
    ensures r == AllCheckersHome(board.Value(), player)
    ensures r <==> NoneOutsideHome(board.Value(), player)
  {
    AllCheckersHomeMeans(board.Value(), player);
    var home := HomeBoardRange(player);
    var total := board.TotalCheckersFor(player);
    var borneOff := board.borneOff[PlayerIndex(player)];
    if borneOff == total {
      return true;
    }
    var inHome := 0;
    for idx := 0 to NPoints
      invariant inHome == InHomeCount(board.Value(), player, idx)
    {
      if board.OwnerOfPoint(idx) == Owned(player) && home.Contains(idx) {
        inHome := inHome + board.CountOnPoint(idx);
      }
    }
    return inHome + borneOff == total;
  }

  // ----- Applying a step to a value -----

  /** The preconditions of the board primitives that `apply_step` calls hold for `st` in `s`. */
  predicate Applicable(s: StateValue, st: Step)
    requires s.Valid()
  {
    var p := s.currentPlayer;
    match st.hitIndex
    case None => CanMove(s.board, p, st.fromPoint, st.toPoint)
    case Some(h) =>
      CanHit(s.board, OtherPlayer(p), h)
      && CanMove(AfterHit(s.board, OtherPlayer(p), h), p, st.fromPoint, st.toPoint)
  }

  /**
   * The state after `apply_step`: the hit checker goes to its owner's bar first,
   * then the mover's checker moves. Whose turn it is does not change, and each
   * player keeps all of their checkers.
   */
  function StepResult(s: StateValue, st: Step): (r: StateValue)
    requires s.Valid() && Applicable(s, st)
    ensures r.Valid()
    ensures r.currentPlayer == s.currentPlayer && r.turnNumber == s.turnNumber
    ensures forall q :: r.board.TotalCheckersFor(q) == s.board.TotalCheckersFor(q)
  {
    var p := s.currentPlayer;
    var afterHit := if st.hitIndex.Some? then AfterHit(s.board, OtherPlayer(p), st.hitIndex.value) else s.board;
    s.(board := AfterMove(afterHit, p, st.fromPoint, st.toPoint))
  }

  /** A hit puts the victim's checker on its bar; a hit on the destination leaves the mover alone there. */
  lemma HitSendsVictimToBar(s: StateValue, st: Step)
    requires s.Valid() && Applicable(s, st) && st.hitIndex.Some?
    ensures StepResult(s, st).board.Bar(OtherPlayer(s.currentPlayer)) == s.board.Bar(OtherPlayer(s.currentPlayer)) + 1
    ensures st.toPoint == st.hitIndex ==>
      StepResult(s, st).board.points[st.toPoint.value] == Slot(Owned(s.currentPlayer), 1)
  {
    var p, v, h := s.currentPlayer, OtherPlayer(s.currentPlayer), st.hitIndex.value;
    var b1 := AfterHit(s.board, v, h);
    var b2 := AfterRemove(b1, p, st.fromPoint);
    assert PlayerIndex(p) != PlayerIndex(v);
    assert b2.Bar(v) == b1.Bar(v);
    if st.toPoint == st.hitIndex {
      if st.fromPoint == Some(h) {
        assert false;
      }
      assert b2.points[h] == b1.points[h];
    }
  }

  // ----- Single-die move generation -----

  /** A point held by the opponent of `p` (owner neither 0 nor `p`). */
  predicate HeldByOpponent(slot: Slot, p: Player) {
    slot.owner != Nobody && slot.owner != Owned(p)
  }

  /** Two or more opposing checkers: `p` may not land here. */
  predicate Blocks(slot: Slot, p: Player) {
    HeldByOpponent(slot, p) && slot.count > 1
  }

  /** Exactly one opposing checker: `p` may land here and hits it. */
  predicate IsBlot(slot: Slot, p: Player) {
    HeldByOpponent(slot, p) && slot.count == 1
  }

  /** The hit a checker of `p` landing on point `i` makes. */
  function HitAt(slot: Slot, p: Player, i: int): Option<int> {
    if IsBlot(slot, p) then Some(i) else None
  }

  /** The test the bar entry makes: empty, own point, or a lone checker not of `p`. */
  predicate EntryOpen(slot: Slot, p: Player) {
    slot.owner == Nobody || slot.owner == Owned(p) || (slot.owner != Owned(p) && slot.count == 1)
  }

  /** A checker of the mover that can leave `from` can land on any other point that does not block it. */
  lemma LandingApplicable(s: StateValue, from: Option<int>, t: int)
    requires s.Valid() && CanLeave(s.board, s.currentPlayer, from)
    requires 0 <= t < NPoints && from != Some(t) && !Blocks(s.board.points[t], s.currentPlayer)
    ensures Applicable(s, Step(from, Some(t), HitAt(s.board.points[t], s.currentPlayer, t)))
  {
    var p, v := s.currentPlayer, OtherPlayer(s.currentPlayer);
    var slot := s.board.points[t];
    assert slot.Consistent();
    assert PlayerIndex(p) != PlayerIndex(v);
    if IsBlot(slot, p) {
      assert slot.owner == Owned(v);
      var b1 := AfterHit(s.board, v, t);
      assert b1.points[t].owner == Nobody;
      assert CanLeave(b1, p, from);
      assert AfterRemove(b1, p, from).points[t] == b1.points[t];
    } else {
      assert slot.owner == Nobody || slot.owner == Owned(p);
      assert AfterRemove(s.board, p, from).points[t] == slot;
    }
  }

  /** The bar case: the one entry step, unless the entry point is blocked. */
  function BarEntry(s: StateValue, die: int): (moves: seq<Step>)
    requires s.Valid() && 1 <= die <= 6 && s.board.Bar(s.currentPlayer) > 0
    ensures forall st | st in moves :: Applicable(s, st)
  {
    var p := s.currentPlayer;
    var dest := EntryPointFromBar(p, die);
    var slot := s.board.points[dest];
    assert slot.Consistent();
    if EntryOpen(slot, p) then
      LandingApplicable(s, None, dest);
      [Step(None, Some(dest), HitAt(slot, p, dest))]
    else []
  }

  /** What the checkers on point `idx` can do with `die`: no step, or one. */
  function MoveFrom(s: StateValue, die: int, idx: int): (moves: seq<Step>)
    requires s.Valid() && 1 <= die <= 6 && 0 <= idx < NPoints
    ensures forall st | st in moves :: Applicable(s, st)
  {
    var p := s.currentPlayer;
    if s.board.points[idx].owner != Owned(p) then []
    else
      var target := idx + DirectionFor(p) * die;
      if target < 0 || target >= NPoints then
        if HomeBoardRange(p).Contains(idx) && AllCheckersHome(s.board, p) then [Step(Some(idx), None, None)] else []
      else
        var slot := s.board.points[target];
        assert slot.Consistent();
        if Blocks(slot, p) then []
        else
          LandingApplicable(s, Some(idx), target);
          [Step(Some(idx), Some(target), HitAt(slot, p, target))]
  }

  /** The board moves from the first `n` points, in ascending order of the source point. */
  function BoardMoves(s: StateValue, die: int, n: int): (moves: seq<Step>)
    requires s.Valid() && 1 <= die <= 6 && 0 <= n <= NPoints
    ensures forall st | st in moves :: Applicable(s, st)
  {
    if n == 0 then [] else BoardMoves(s, die, n - 1) + MoveFrom(s, die, n - 1)
  }

  /**
   * `single_die_moves` on a value: with checkers on the bar only the bar entry,
   * otherwise the board moves. Every step it gives can be applied to `s`.
   */
  function DieMoves(s: StateValue, die: int): (moves: seq<Step>)
    requires s.Valid() && 1 <= die <= 6
    ensures forall st | st in moves :: Applicable(s, st)
  {
    if s.board.Bar(s.currentPlayer) > 0 then BarEntry(s, die) else BoardMoves(s, die, NPoints)
  }

  /**
   * The legal single-die steps, stated of the step itself: from the bar, the
   * entry point unless blocked; otherwise from a point the mover holds, either
   * `die` points on to an unblocked point, or off the board from the home
   * board when all the mover's checkers are home. A step hits exactly when it
   * lands on a blot.
   */
  predicate LegalStep(s: StateValue, die: int, st: Step)
    requires s.Valid() && 1 <= die <= 6
  {
    var p := s.currentPlayer;
    var b := s.board;
    if b.Bar(p) > 0 then
      var e := EntryPointFromBar(p, die);
      st == Step(None, Some(e), HitAt(b.points[e], p, e)) && !Blocks(b.points[e], p)
    else
      && st.fromPoint.Some?
      && 0 <= st.fromPoint.value < NPoints
      && b.points[st.fromPoint.value].owner == Owned(p)
      && var i := st.fromPoint.value;
         var t := i + DirectionFor(p) * die;
         if 0 <= t < NPoints then
           st == Step(Some(i), Some(t), HitAt(b.points[t], p, t)) && !Blocks(b.points[t], p)
         else
           st == Step(Some(i), None, None) && HomeBoardRange(p).Contains(i) && AllCheckersHome(b, p)
  }

  lemma MoveFromMembers(s: StateValue, die: int, idx: int, st: Step)
    requires s.Valid() && 1 <= die <= 6 && 0 <= idx < NPoints && s.board.Bar(s.currentPlayer) == 0
    ensures st in MoveFrom(s, die, idx) <==> LegalStep(s, die, st) && st.fromPoint == Some(idx)
  {
  }

  lemma {:induction false} BoardMovesMembers(s: StateValue, die: int, n: int, st: Step)
    requires s.Valid() && 1 <= die <= 6 && 0 <= n <= NPoints && s.board.Bar(s.currentPlayer) == 0
    ensures st in BoardMoves(s, die, n) <==>
      LegalStep(s, die, st) && st.fromPoint.Some? && st.fromPoint.value < n
  {
    if n > 0 {
      BoardMovesMembers(s, die, n - 1, st);
      MoveFromMembers(s, die, n - 1, st);
    }
  }

  /** `single_die_moves` gives every legal step and nothing else. */
  lemma DieMovesComplete(s: StateValue, die: int, st: Step)
    requires s.Valid() && 1 <= die <= 6
    ensures st in DieMoves(s, die) <==> LegalStep(s, die, st)
  {
    var p := s.currentPlayer;
    if s.board.Bar(p) == 0 {
      BoardMovesMembers(s, die, NPoints, st);
    } else {
      assert s.board.points[EntryPointFromBar(p, die)].Consistent();
    }
  }

  /** Steps whose source points strictly increase. */
  predicate AscendingSources(moves: seq<Step>) {
    forall i, j | 0 <= i < j < |moves| ::
      moves[i].fromPoint.Some? && moves[j].fromPoint.Some? && moves[i].fromPoint.value < moves[j].fromPoint.value
  }

  lemma {:induction false} BoardMovesSources(s: StateValue, die: int, n: int)
    requires s.Valid() && 1 <= die <= 6 && 0 <= n <= NPoints
    ensures forall st | st in BoardMoves(s, die, n) :: st.fromPoint.Some? && 0 <= st.fromPoint.value < n
  {
    if n > 0 {
      BoardMovesSources(s, die, n - 1);
    }
  }

  lemma {:induction false} BoardMovesAscending(s: StateValue, die: int, n: int)
    requires s.Valid() && 1 <= die <= 6 && 0 <= n <= NPoints
    ensures AscendingSources(BoardMoves(s, die, n))
  {
    if n > 0 {
      var prefix, last := BoardMoves(s, die, n - 1), MoveFrom(s, die, n - 1);
      BoardMovesAscending(s, die, n - 1);
      BoardMovesSources(s, die, n - 1);
      assert |last| <= 1 && forall st | st in last :: st.fromPoint == Some(n - 1);
      var moves := prefix + last;
      forall i, j | 0 <= i < j < |moves|
        ensures moves[i].fromPoint.Some? && moves[j].fromPoint.Some?
        ensures moves[i].fromPoint.value < moves[j].fromPoint.value
      {
        if j >= |prefix| {
          assert moves[j] in last && moves[i] in prefix;
        }
      }
    }
  }

  /** With no checker on the bar, the board moves come in ascending order of their source point. */
  lemma DieMovesAscending(s: StateValue, die: int)
    requires s.Valid() && 1 <= die <= 6 && s.board.Bar(s.currentPlayer) == 0
    ensures AscendingSources(DieMoves(s, die))
  {
    BoardMovesAscending(s, die, NPoints);
  }

  /**
   * Bar priority: with a checker on the bar the only possible step is the entry
   * from the bar, and there is none exactly when two or more opposing checkers
   * hold the entry point.
   */
  lemma BarPriority(s: StateValue, die: int)
    requires s.Valid() && 1 <= die <= 6 && s.board.Bar(s.currentPlayer) > 0
    ensures |DieMoves(s, die)| <= 1
    ensures forall st | st in DieMoves(s, die) ::
      st.fromPoint == None && st.toPoint == Some(EntryPointFromBar(s.currentPlayer, die))
    ensures DieMoves(s, die) == [] <==>
      Blocks(s.board.points[EntryPointFromBar(s.currentPlayer, die)], s.currentPlayer)
  {
    assert s.board.points[EntryPointFromBar(s.currentPlayer, die)].Consistent();
  }

  /** No step lands on a point held by two or more opposing checkers. */
  lemma NeverOntoBlockedPoint(s: StateValue, die: int, st: Step)
    requires s.Valid() && 1 <= die <= 6 && st in DieMoves(s, die)
    ensures st.toPoint.Some? ==>
      0 <= st.toPoint.value < NPoints && !Blocks(s.board.points[st.toPoint.value], s.currentPlayer)
  {
    DieMovesComplete(s, die, st);
  }

  /** A step hits exactly when it lands on a lone opposing checker, and then it hits its destination. */
  lemma HitIffBlot(s: StateValue, die: int, st: Step)
    requires s.Valid() && 1 <= die <= 6 && st in DieMoves(s, die)
    ensures st.hitIndex.Some? ==> st.hitIndex == st.toPoint
    ensures st.toPoint.None? ==> st.hitIndex.None?
    ensures st.toPoint.Some? ==>
      0 <= st.toPoint.value < NPoints
      && (st.hitIndex.Some? <==> IsBlot(s.board.points[st.toPoint.value], s.currentPlayer))
  {
    DieMovesComplete(s, die, st);
  }

  /** A board move starts on a point the mover holds and, unless it bears off, ends `die` points on. */
  lemma BoardStepShape(s: StateValue, die: int, st: Step)
    requires s.Valid() && 1 <= die <= 6 && s.board.Bar(s.currentPlayer) == 0 && st in DieMoves(s, die)
    ensures st.fromPoint.Some? && 0 <= st.fromPoint.value < NPoints
    ensures s.board.points[st.fromPoint.value].owner == Owned(s.currentPlayer)
    ensures st.toPoint.Some? ==>
      0 <= st.toPoint.value < NPoints
      && st.toPoint.value == st.fromPoint.value + DirectionFor(s.currentPlayer) * die
  {
    DieMovesComplete(s, die, st);
  }

  /** Bearing off is offered only from the home board, when no checker is outside it or on the bar. */
  lemma BearOffOnlyWhenHome(s: StateValue, die: int, st: Step)
    requires s.Valid() && 1 <= die <= 6 && st in DieMoves(s, die) && st.toPoint.None?
    ensures st.fromPoint.Some? && HomeBoardRange(s.currentPlayer).Contains(st.fromPoint.value)
    ensures AllCheckersHome(s.board, s.currentPlayer)
    ensures NoneOutsideHome(s.board, s.currentPlayer)
  {
    DieMovesComplete(s, die, st);
    AllCheckersHomeMeans(s.board, s.currentPlayer);
  }

  /**
   * A move that overshoots the board starts on the mover's home board, so in
   * the bearing-off test only `all_in_home` can fail.
   */
  lemma OvershootOnlyFromHome(p: Player, idx: int, die: int)
    requires 0 <= idx < NPoints && 1 <= die <= 6
    requires idx + DirectionFor(p) * die < 0 || idx + DirectionFor(p) * die >= NPoints
    ensures HomeBoardRange(p).Contains(idx)
  {
  }

  /** `single_die_moves`: the bar entry, or the loop over the 24 points. */
  method SingleDieMoves(state: GameState, die: int) returns (moves: seq<Step>)
    requires state.Valid() && 1 <= die <= 6
    ensures moves == DieMoves(state.Value(), die)
  {
    var board := state.board;
    var player := state.currentPlayer;
    var dir := DirectionFor(player);
    moves := [];

    // Checkers on the bar must enter first.
    if board.bar[PlayerIndex(player)] > 0 {
      var dest := EntryPointFromBar(player, die);
      var owner := board.OwnerOfPoint(dest);
      var count := board.CountOnPoint(dest);
      if owner == Nobody || owner == Owned(player) || (owner != Owned(player) && count == 1) {
        var hitIdx := if owner != Nobody && owner != Owned(player) && count == 1 then Some(dest) else None;
        moves := moves + [Step(None, Some(dest), hitIdx)];
      }
      return;
    }

    var home := HomeBoardRange(player);
    for idx := 0 to NPoints
      invariant moves == BoardMoves(state.Value(), die, idx)
    {
      if board.OwnerOfPoint(idx) != Owned(player) {
        continue;
      }
      var target := idx + dir * die;

      if target < 0 || target >= NPoints {
        // Simplified bearing off: allowed from the home board once all checkers are home.
        if home.Contains(idx) {
          var allHome := AllInHome(board, player);
          if allHome {
            moves := moves + [Step(Some(idx), None, None)];
          }
        }
        continue;
      }

      var owner := board.OwnerOfPoint(target);
      var count := board.CountOnPoint(target);
      if owner != Nobody && owner != Owned(player) && count > 1 {
        continue;
      }
      var hitIdx := if owner != Nobody && owner != Owned(player) && count == 1 then Some(target) else None;
      moves := moves + [Step(Some(idx), Some(target), hitIdx)];
    }
  }

  // ----- Applying steps and actions to a game state object -----

  /** `apply_step`: a copy of the state with the hit and then the move applied; `state` itself is not changed. */
  method ApplyStep(state: GameState, step: Step) returns (next: GameState)
    requires state.Valid() && Applicable(state.Value(), step)
    ensures fresh(next) && fresh(next.board)
    ensures next.Valid() && next.Value() == StepResult(state.Value(), step)
  {
    next := state.Copy();
    var board := next.board;
    var player := next.currentPlayer;

    // The hit comes first: the victim's checker goes to its bar.
    if step.hitIndex.Some? {
      var victim := if player == Player2 then Player1 else Player2;
      board.HitCheckerAt(victim, step.hitIndex.value);
    }

    board.MoveChecker(player, step.fromPoint, step.toPoint);
  }

  /** The steps can be applied one after the other, each to the state the previous one left. */
  predicate ActionApplicable(s: StateValue, steps: seq<Step>)
    requires s.Valid()
    decreases |steps|
  {
    steps == [] || (Applicable(s, steps[0]) && ActionApplicable(StepResult(s, steps[0]), steps[1..]))
  }

  /**
   * `apply_action` on a value: `StepResult` folded over the steps. It does not
   * change whose turn it is, and each player keeps all of their checkers.
   */
  function ActionResult(s: StateValue, steps: seq<Step>): (r: StateValue)
    requires s.Valid() && ActionApplicable(s, steps)
    ensures r.Valid()
    ensures r.currentPlayer == s.currentPlayer && r.turnNumber == s.turnNumber
    ensures forall q :: r.board.TotalCheckersFor(q) == s.board.TotalCheckersFor(q)
    decreases |steps|
  {
    if steps == [] then s else ActionResult(StepResult(s, steps[0]), steps[1..])
  }

  /** An action of two steps is the second step applied to the result of the first. */
  lemma TwoStepActionResult(s: StateValue, x: Step, y: Step)
    requires s.Valid() && ActionApplicable(s, [x, y])
    ensures Applicable(s, x) && Applicable(StepResult(s, x), y)
    ensures ActionResult(s, [x, y]) == StepResult(StepResult(s, x), y)
  {
    assert [x, y][1..] == [y];
    assert [y][1..] == [];
    var s1 := StepResult(s, x);
    assert ActionResult(s, [x, y]) == ActionResult(s1, [y]);
    assert ActionResult(s1, [y]) == ActionResult(StepResult(s1, y), []);
  }

  /**
   * `apply_action`: threads the state through `ApplyStep`. With no steps it
   * gives back the very object it was given; otherwise a new one.
   */
  method ApplyAction(state: GameState, action: Action) returns (next: GameState)
    requires state.Valid() && ActionApplicable(state.Value(), action.steps)
    ensures next.Valid() && next.Value() == ActionResult(state.Value(), action.steps)
    ensures action.steps == [] ==> next == state
    ensures action.steps != [] ==> fresh(next) && fresh(next.board)
  {
    next := state;
    for i := 0 to |action.steps|
      invariant next.Valid() && ActionApplicable(next.Value(), action.steps[i..])
      invariant ActionResult(next.Value(), action.steps[i..]) == ActionResult(state.Value(), action.steps)
      invariant i == 0 ==> next == state
      invariant i > 0 ==> fresh(next) && fresh(next.board)
    {
      assert action.steps[i..][1..] == action.steps[i + 1..];
      next := ApplyStep(next, action.steps[i]);
    }
  }

  // ----- Two-step composition -----

  /** The one-step actions, one per step, in order. */
  function SingleActions(steps: seq<Step>): seq<Action> {
    seq(|steps|, i requires 0 <= i < |steps| => Action([steps[i]]))
  }

  /** The two-step actions that continue `step1` with each of `seconds`, in order. */
  function Followups(step1: Step, seconds: seq<Step>): seq<Action> {
    if seconds == [] then []
    else Followups(step1, seconds[..|seconds| - 1]) + [Action([step1, seconds[|seconds| - 1]])]
  }

  /** For each first step in turn, its continuations with `secondDie` from the state it leaves. */
  function Continuations(s: StateValue, firstSteps: seq<Step>, secondDie: int): (conts: seq<seq<Step>>)
    requires s.Valid() && 1 <= secondDie <= 6
    requires forall st | st in firstSteps :: Applicable(s, st)
    ensures |conts| == |firstSteps|
  {
    seq(|firstSteps|, k requires 0 <= k < |firstSteps| => DieMoves(StepResult(s, firstSteps[k]), secondDie))
  }

  /** The two-step actions made of the first `n` first steps, each followed by each of its continuations. */
  function Compose(firstSteps: seq<Step>, conts: seq<seq<Step>>, n: int): seq<Action>
    requires 0 <= n <= |firstSteps| == |conts|
  {
    if n == 0 then []
    else Compose(firstSteps, conts, n - 1) + Followups(firstSteps[n - 1], conts[n - 1])
  }

  /** The two-step actions for one order of the dice. */
  function ComposedActions(s: StateValue, firstSteps: seq<Step>, secondDie: int): seq<Action>
    requires s.Valid() && 1 <= secondDie <= 6
    requires forall st | st in firstSteps :: Applicable(s, st)
  {
    Compose(firstSteps, Continuations(s, firstSteps, secondDie), |firstSteps|)
  }

  /** Every candidate that `legal_actions` collects, duplicates included. */
  function CandidateActions(s: StateValue, d1: int, d2: int): seq<Action>
    requires s.Valid() && 1 <= d1 <= 6 && 1 <= d2 <= 6
  {
    var steps1 := DieMoves(s, d1);
    var steps2 := DieMoves(s, d2);
    SingleActions(steps1 + steps2)
      + ComposedActions(s, steps1, d2)
      + ComposedActions(s, steps2, d1)
  }

  /** The distinct elements of `xs`, each at its first occurrence. */
  function Dedup<T(==, !new)>(xs: seq<T>): (r: seq<T>)
    ensures forall i, j | 0 <= i < j < |r| :: r[i] != r[j]
    ensures forall x :: x in r <==> x in xs
  {
    if xs == [] then []
    else
      var r := Dedup(xs[..|xs| - 1]);
      if xs[|xs| - 1] in r then r else r + [xs[|xs| - 1]]
  }

  /** `legal_actions` on a value. */
  function ActionsFor(s: StateValue, d1: int, d2: int): seq<Action>
    requires s.Valid() && 1 <= d1 <= 6 && 1 <= d2 <= 6
  {
    Dedup(CandidateActions(s, d1, d2))
  }

  /** A step for `first` and, from the state it leaves, a step for `second`. */
  predicate TwoStep(s: StateValue, first: int, second: int, x: Step, y: Step)
    requires s.Valid() && 1 <= first <= 6 && 1 <= second <= 6
  {
    x in DieMoves(s, first) && y in DieMoves(StepResult(s, x), second)
  }

  /**
   * The actions a pair of dice allows, stated of the action itself: one step
   * for either die, or two steps using the dice in either order. Playing one
   * die is offered even when both could be played.
   */
  predicate LegalAction(s: StateValue, d1: int, d2: int, a: Action)
    requires s.Valid() && 1 <= d1 <= 6 && 1 <= d2 <= 6
  {
    || (|a.steps| == 1 && (a.steps[0] in DieMoves(s, d1) || a.steps[0] in DieMoves(s, d2)))
    || (|a.steps| == 2
        && (TwoStep(s, d1, d2, a.steps[0], a.steps[1]) || TwoStep(s, d2, d1, a.steps[0], a.steps[1])))
  }

  lemma SingleActionsMembers(steps: seq<Step>, a: Action)
    ensures a in SingleActions(steps) <==> |a.steps| == 1 && a.steps[0] in steps
  {
    var r := SingleActions(steps);
    if |a.steps| == 1 && a.steps[0] in steps {
      var i :| 0 <= i < |steps| && steps[i] == a.steps[0];
      assert a == Action([steps[i]]) == r[i];
    }
  }

  lemma {:induction false} FollowupsMembers(step1: Step, seconds: seq<Step>, a: Action)
    ensures a in Followups(step1, seconds) <==>
      |a.steps| == 2 && a.steps[0] == step1 && a.steps[1] in seconds
  {
    if seconds != [] {
      var n := |seconds|;
      FollowupsMembers(step1, seconds[..n - 1], a);
      assert seconds == seconds[..n - 1] + [seconds[n - 1]];
      if |a.steps| == 2 && a.steps[0] == step1 && a.steps[1] == seconds[n - 1] {
        assert a == Action([step1, seconds[n - 1]]);
      }
    }
  }

  lemma {:induction false} ComposeMembers(firstSteps: seq<Step>, conts: seq<seq<Step>>, n: int, a: Action)
    requires 0 <= n <= |firstSteps| == |conts|
    ensures a in Compose(firstSteps, conts, n) <==>
      |a.steps| == 2 && exists k | 0 <= k < n :: firstSteps[k] == a.steps[0] && a.steps[1] in conts[k]
  {
    if n > 0 {
      ComposeMembers(firstSteps, conts, n - 1, a);
      FollowupsMembers(firstSteps[n - 1], conts[n - 1], a);
    }
  }

  lemma ComposedMembers(s: StateValue, firstSteps: seq<Step>, secondDie: int, a: Action)
    requires s.Valid() && 1 <= secondDie <= 6
    requires forall st | st in firstSteps :: Applicable(s, st)
    ensures a in ComposedActions(s, firstSteps, secondDie) <==>
      && |a.steps| == 2
      && a.steps[0] in firstSteps
      && a.steps[1] in DieMoves(StepResult(s, a.steps[0]), secondDie)
  {
    var conts := Continuations(s, firstSteps, secondDie);
    ComposeMembers(firstSteps, conts, |firstSteps|, a);
    if |a.steps| == 2 && a.steps[0] in firstSteps {
      var k :| 0 <= k < |firstSteps| && firstSteps[k] == a.steps[0];
      assert conts[k] == DieMoves(StepResult(s, a.steps[0]), secondDie);
    }
  }

  /** `legal_actions` gives exactly the legal actions. */
  lemma ActionsForMembers(s: StateValue, d1: int, d2: int, a: Action)
    requires s.Valid() && 1 <= d1 <= 6 && 1 <= d2 <= 6
    ensures a in ActionsFor(s, d1, d2) <==> LegalAction(s, d1, d2, a)
  {
    var steps1, steps2 := DieMoves(s, d1), DieMoves(s, d2);
    SingleActionsMembers(steps1 + steps2, a);
    ComposedMembers(s, steps1, d2, a);
    ComposedMembers(s, steps2, d1, a);
  }

  /** Every action has one step or two. */
  lemma ActionsHaveOneOrTwoSteps(s: StateValue, d1: int, d2: int, a: Action)
    requires s.Valid() && 1 <= d1 <= 6 && 1 <= d2 <= 6
    ensures a in ActionsFor(s, d1, d2) ==> 1 <= |a.steps| <= 2
  {
    ActionsForMembers(s, d1, d2, a);
  }

  /** Every step either die allows on its own is offered as a one-step action. */
  lemma SingleStepsOffered(s: StateValue, d1: int, d2: int, st: Step)
    requires s.Valid() && 1 <= d1 <= 6 && 1 <= d2 <= 6
    requires st in DieMoves(s, d1) + DieMoves(s, d2)
    ensures Action([st]) in ActionsFor(s, d1, d2)
  {
    ActionsForMembers(s, d1, d2, Action([st]));
  }

  /** Every action offered can be applied to the state it was generated from. */
  lemma ActionsApplicable(s: StateValue, d1: int, d2: int, a: Action)
    requires s.Valid() && 1 <= d1 <= 6 && 1 <= d2 <= 6
    ensures a in ActionsFor(s, d1, d2) ==> ActionApplicable(s, a.steps)
  {
    ActionsForMembers(s, d1, d2, a);
    if a in ActionsFor(s, d1, d2) {
      LegalActionApplicable(s, d1, d2, a);
    }
  }

  lemma LegalActionApplicable(s: StateValue, d1: int, d2: int, a: Action)
    requires s.Valid() && 1 <= d1 <= 6 && 1 <= d2 <= 6 && LegalAction(s, d1, d2, a)
    ensures ActionApplicable(s, a.steps)
  {
    if |a.steps| == 1 {
      if a.steps[0] in DieMoves(s, d1) {
        OneStepApplicable(s, d1, a.steps[0]);
      } else {
        OneStepApplicable(s, d2, a.steps[0]);
      }
      assert a.steps == [a.steps[0]];
    } else {
      var x, y := a.steps[0], a.steps[1];
      if TwoStep(s, d1, d2, x, y) {
        OneThenAnother(s, d1, d2, x, y);
      } else {
        OneThenAnother(s, d2, d1, x, y);
      }
      assert a.steps == [x, y];
    }
  }

  lemma OneStepApplicable(s: StateValue, die: int, x: Step)
    requires s.Valid() && 1 <= die <= 6 && x in DieMoves(s, die)
    ensures ActionApplicable(s, [x])
  {
    assert [x][1..] == [];
  }

  lemma OneThenAnother(s: StateValue, first: int, second: int, x: Step, y: Step)
    requires s.Valid() && 1 <= first <= 6 && 1 <= second <= 6 && TwoStep(s, first, second, x, y)
    ensures ActionApplicable(s, [x, y])
  {
    var s1 := StepResult(s, x);
    assert Applicable(s1, y);
    assert [x, y][1..] == [y] && [y][1..] == [];
  }

  /** The body of the loop over the two dice orders: every first step, each of its continuations. */
  method ComposeTwoSteps(state: GameState, firstSteps: seq<Step>, secondDie: int) returns (composed: seq<Action>)
    requires state.Valid() && 1 <= secondDie <= 6
    requires forall st | st in firstSteps :: Applicable(state.Value(), st)
    ensures composed == ComposedActions(state.Value(), firstSteps, secondDie)
  {
    ghost var conts := Continuations(state.Value(), firstSteps, secondDie);
    composed := [];
    for i := 0 to |firstSteps|
      invariant composed == Compose(firstSteps, conts, i)
    {
      var step1 := firstSteps[i];
      // The first step is applied to a copy of the state.
      var tmpState := ApplyStep(state, step1);
      var secondSteps := SingleDieMoves(tmpState, secondDie);
      composed := AppendFollowups(composed, step1, secondSteps);
    }
  }

  /** The inner loop of the composition: one two-step action per second step. */
  method AppendFollowups(actions: seq<Action>, step1: Step, secondSteps: seq<Step>) returns (r: seq<Action>)
    ensures r == actions + Followups(step1, secondSteps)
  {
    r := actions;
    for j := 0 to |secondSteps|
      invariant r == actions + Followups(step1, secondSteps[..j])
    {
      assert secondSteps[..j + 1][..j] == secondSteps[..j];
      r := r + [Action([step1, secondSteps[j]])];
    }
    assert secondSteps[..|secondSteps|] == secondSteps;
  }

  /**
   * `legal_actions`: the one-step actions for both dice, the two-step actions in
   * both dice orders, duplicates removed.
   */
  method LegalActions(state: GameState, dice: (int, int)) returns (actions: seq<Action>)
    requires state.Valid() && 1 <= dice.0 <= 6 && 1 <= dice.1 <= 6
    ensures actions == ActionsFor(state.Value(), dice.0, dice.1)
    ensures forall i, j | 0 <= i < j < |actions| :: actions[i] != actions[j]
    ensures forall a :: a in actions <==> LegalAction(state.Value(), dice.0, dice.1, a)
  {
    var (d1, d2) := dice;
    var stepsD1 := SingleDieMoves(state, d1);
    var stepsD2 := SingleDieMoves(state, d2);
    var candidates := SingleActions(stepsD1 + stepsD2);

    // Two-step actions, first in the order (d1, d2), then (d2, d1).
    var composed12 := ComposeTwoSteps(state, stepsD1, d2);
    var composed21 := ComposeTwoSteps(state, stepsD2, d1);
    candidates := candidates + composed12 + composed21;

    actions := Dedup(candidates);
    forall a {
      ActionsForMembers(state.Value(), d1, d2, a);
    }
  }
}
