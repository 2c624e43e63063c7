/**
 * The board that the rules engine reads and moves checkers on: two players,
 * 24 points, a bar and a borne-off tray per player.
 *
 * The board's own implementation is not part of this model. What is written
 * here is the minimal behaviour the rules engine relies on, and it is an
 * assumption: a point is empty (owner `Nobody`, count 0) or held by one
 * player with a positive count; `MoveChecker` takes a checker off its source
 * point (or the bar) and then puts it on its target point (or the borne-off
 * tray); `HitCheckerAt` takes one checker off a point and puts it on its
 * owner's bar.
 */
module Boards {
  import opened Wrappers

  datatype Player = Player1 | Player2

  /** Number of points on the board; point indices run 0..23. */
  const NPoints: int := 24

  /** Position of a player's entry in the per-player bar and borne-off lists. */
  function PlayerIndex(p: Player): (k: nat)
    ensures k < 2
    ensures k == 0 <==> p == Player1
  {
    if p == Player1 then 0 else 1
  }

  /** Who holds a point; `Nobody` is the board's owner value 0. */
  datatype Owner = Nobody | Owned(player: Player)

  /** One point: its owner and how many checkers stand on it. */
  datatype Slot = Slot(owner: Owner, count: nat) {
    /** An empty point has no owner; an owned point holds at least one checker. */
    predicate Consistent() {
      owner == Nobody <==> count == 0
    }
  }

  /** The checkers of `p` that stand on `slot`. */
  function Holding(slot: Slot, p: Player): nat {
    if slot.owner == Owned(p) then slot.count else 0
  }

  /** The checkers of `p` on all of `points`. */
  function CheckersOn(points: seq<Slot>, p: Player): nat {
    if points == [] then 0
    else CheckersOn(points[..|points| - 1], p) + Holding(points[|points| - 1], p)
  }

  /** Replacing one point changes a player's count by the difference of the two points. */
  lemma {:induction false} CheckersOnUpdate(points: seq<Slot>, i: int, x: Slot)
    requires 0 <= i < |points|
    ensures forall q: Player ::
      CheckersOn(points[i := x], q) + Holding(points[i], q) == CheckersOn(points, q) + Holding(x, q)
  {
    var n := |points|;
    if i == n - 1 {
      assert points[i := x][..n - 1] == points[..n - 1];
    } else {
      assert points[i := x][..n - 1] == points[..n - 1][i := x];
      CheckersOnUpdate(points[..n - 1], i, x);
    }
  }

  /** The value of a board: its points, bars and borne-off trays, indexed by `PlayerIndex`. */
  datatype BoardValue = BoardValue(points: seq<Slot>, bar: seq<nat>, borneOff: seq<nat>) {

    predicate Valid() {
      && |points| == NPoints
      && |bar| == 2
      && |borneOff| == 2
      && forall i | 0 <= i < |points| :: points[i].Consistent()
    }

    function Bar(p: Player): nat
      requires Valid()
    {
      bar[PlayerIndex(p)]
    }

    function BorneOff(p: Player): nat
      requires Valid()
    {
      borneOff[PlayerIndex(p)]
    }

    /** All checkers of `p`: on the points, on the bar and borne off. */
    function TotalCheckersFor(p: Player): nat
      requires Valid()
    {
      CheckersOn(points, p) + Bar(p) + BorneOff(p)
    }
  }

  /** The point after one checker leaves it. */
  function Decremented(slot: Slot): (r: Slot)
    requires slot.Consistent() && slot.count > 0
    ensures r.Consistent() && r.count == slot.count - 1
    ensures r.count > 0 ==> r.owner == slot.owner
  {
    if slot.count == 1 then Slot(Nobody, 0) else Slot(slot.owner, slot.count - 1)
  }

  /** The point after a checker of `p` lands on it (it was empty or held by `p`). */
  function Landed(slot: Slot, p: Player): (r: Slot)
    requires slot.Consistent() && (slot.owner == Nobody || slot.owner == Owned(p))
    ensures r.Consistent() && r.owner == Owned(p) && r.count == slot.count + 1
  {
    Slot(Owned(p), slot.count + 1)
  }

  /** A checker of `p` can leave `from`: the bar (None) if it is not empty, or a point `p` holds. */
  predicate CanLeave(b: BoardValue, p: Player, from: Option<int>)
    requires b.Valid()
  {
    match from
    case None => b.Bar(p) > 0
    case Some(i) => 0 <= i < NPoints && b.points[i].owner == Owned(p)
  }

  /** A checker of `p` can arrive at `to`: the borne-off tray (None), or a point no opponent holds. */
  predicate CanLand(b: BoardValue, p: Player, to: Option<int>)
    requires b.Valid()
  {
    match to
    case None => true
    case Some(t) => 0 <= t < NPoints && (b.points[t].owner == Nobody || b.points[t].owner == Owned(p))
  }

  /** The board after a checker of `p` leaves `from`. */
  function AfterRemove(b: BoardValue, p: Player, from: Option<int>): (r: BoardValue)
    requires b.Valid() && CanLeave(b, p, from)
    ensures r.Valid()
    ensures r.TotalCheckersFor(p) + 1 == b.TotalCheckersFor(p)
    ensures forall q | q != p :: r.TotalCheckersFor(q) == b.TotalCheckersFor(q)
  {
    match from
    case None =>
      b.(bar := b.bar[PlayerIndex(p) := b.Bar(p) - 1])
    case Some(i) =>
      CheckersOnUpdate(b.points, i, Decremented(b.points[i]));
      b.(points := b.points[i := Decremented(b.points[i])])
  }

  /** The board after a checker of `p` arrives at `to`. */
  function AfterAdd(b: BoardValue, p: Player, to: Option<int>): (r: BoardValue)
    requires b.Valid() && CanLand(b, p, to)
    ensures r.Valid()
    ensures r.TotalCheckersFor(p) == b.TotalCheckersFor(p) + 1
    ensures forall q | q != p :: r.TotalCheckersFor(q) == b.TotalCheckersFor(q)
  {
    match to
    case None =>
      b.(borneOff := b.borneOff[PlayerIndex(p) := b.BorneOff(p) + 1])
    case Some(t) =>
      CheckersOnUpdate(b.points, t, Landed(b.points[t], p));
      b.(points := b.points[t := Landed(b.points[t], p)])
  }

  /** `move_checker` may be called: the source can be left and, once it is, the target reached. */
  predicate CanMove(b: BoardValue, p: Player, from: Option<int>, to: Option<int>) {
    b.Valid() && CanLeave(b, p, from) && CanLand(AfterRemove(b, p, from), p, to)
  }

  /** The board after `move_checker`: source first, target second; every player keeps all checkers. */
  function AfterMove(b: BoardValue, p: Player, from: Option<int>, to: Option<int>): (r: BoardValue)
    requires CanMove(b, p, from, to)
    ensures r.Valid()
    ensures forall q :: r.TotalCheckersFor(q) == b.TotalCheckersFor(q)
  {
    AfterAdd(AfterRemove(b, p, from), p, to)
  }

  /** `hit_checker_at` may be called: `victim` holds the point. */
  predicate CanHit(b: BoardValue, victim: Player, index: int) {
    b.Valid() && 0 <= index < NPoints && b.points[index].owner == Owned(victim)
  }

  /** The board after `hit_checker_at`: one of the victim's checkers goes from the point to its bar. */
  function AfterHit(b: BoardValue, victim: Player, index: int): (r: BoardValue)
    requires CanHit(b, victim, index)
    ensures r.Valid()
    ensures r.Bar(victim) == b.Bar(victim) + 1
    ensures r.points[index].count + 1 == b.points[index].count
    ensures forall q :: r.TotalCheckersFor(q) == b.TotalCheckersFor(q)
  {
    CheckersOnUpdate(b.points, index, Decremented(b.points[index]));
    b.(points := b.points[index := Decremented(b.points[index])],
       bar := b.bar[PlayerIndex(victim) := b.Bar(victim) + 1])
  }

  /** The mutable board object of the game. */
  class Board {
    var points: seq<Slot>
    var bar: seq<nat>
    var borneOff: seq<nat>

    function Value(): BoardValue
      reads this
    {
      BoardValue(points, bar, borneOff)
    }

    predicate Valid()
      reads this
    {
      Value().Valid()
    }

    constructor (v: BoardValue)
      requires v.Valid()
      ensures Valid() && Value() == v
    {
      points, bar, borneOff := v.points, v.bar, v.borneOff;
    }

    function OwnerOfPoint(i: int): Owner
      reads this
      requires Valid() && 0 <= i < NPoints
    {
      points[i].owner
    }

    function CountOnPoint(i: int): nat
      reads this
      requires Valid() && 0 <= i < NPoints
    {
      points[i].count
    }

    function TotalCheckersFor(p: Player): nat
      reads this
      requires Valid()
    {
      Value().TotalCheckersFor(p)
    }

    /** Move one checker of `player`: off `fromIdx` (None: the bar), then onto `toIdx` (None: off the board). */
    method MoveChecker(player: Player, fromIdx: Option<int>, toIdx: Option<int>)
      requires Valid() && CanMove(Value(), player, fromIdx, toIdx)
      modifies this
      ensures Valid()
      ensures Value() == AfterMove(old(Value()), player, fromIdx, toIdx)
    {
      var k := PlayerIndex(player);
      match fromIdx {
        case None =>
          bar := bar[k := bar[k] - 1];
        case Some(i) =>
          points := points[i := Decremented(points[i])];
      }
      match toIdx {
        case None =>
          borneOff := borneOff[k := borneOff[k] + 1];
        case Some(t) =>
          points := points[t := Landed(points[t], player)];
      }
    }

    /** Send one checker of `victimPlayer` from point `index` to its bar. */
    method HitCheckerAt(victimPlayer: Player, index: int)
      requires CanHit(Value(), victimPlayer, index)
      modifies this
      ensures Valid()
      ensures Value() == AfterHit(old(Value()), victimPlayer, index)
    {
      var k := PlayerIndex(victimPlayer);
      points := points[index := Decremented(points[index])];
      bar := bar[k := bar[k] + 1];
    }
  }
}
