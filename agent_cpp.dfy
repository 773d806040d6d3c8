/**
 * agent.cpp: `RandomAgent::select_move` of the C++ port. It draws `i` in
 * `0 .. popcount(moves) - 1`, clears the lowest square of the legal mask `i`
 * times, and plays the highest square left, `63 - __builtin_clzll(moves)`.
 * The draw is a parameter. Clearing lowest squares never reaches the
 * highest one, so the move is the highest legal square whatever the draw.
 */
module AgentCpp {
  import opened Wrappers
  import Bitboard
  import BoardCpp

  type Sq = Bitboard.Sq
  type Player = Bitboard.Player

  /** The C++ `Action`: the square played and the board it leads to. */
  datatype Action = Action(pos: Sq, board: Bitboard.Board)

  // ------------------------------------------------------------ bit tricks

  /** `moves & (~moves + 1)`, the body of the loop before the subtraction. */
  function LowBit(x: bv64): bv64 {
    x & (!x + 1)
  }

  /** `moves -= moves & (~moves + 1)`. */
  function DropLow(x: bv64): bv64 {
    x - LowBit(x)
  }

  /** `moves` after `k` turns of the loop. */
  function Dropped(x: bv64, k: nat): bv64 {
    if k == 0 then x else DropLow(Dropped(x, k - 1))
  }

  /** The first disc met scanning down from square `i`, or square 0. */
  function TopFrom(x: bv64, i: Sq): (r: Sq)
    ensures r <= i
    decreases i
  {
    if Bitboard.Bit(x, i) || i == 0 then i else TopFrom(x, i - 1)
  }

  /** The highest disc of a non-empty `x`. */
  function Highest(x: bv64): Sq {
    TopFrom(x, 63)
  }

  /** `__builtin_clzll(x)`: the number of squares above the highest disc. */
  function Clz(x: bv64): bv64 {
    63 - Highest(x)
  }

  /** The first disc met scanning up from square `i`, or square 63. */
  function BottomFrom(x: bv64, i: Sq): (r: Sq)
    ensures i <= r
    decreases 63 - i
  {
    if Bitboard.Bit(x, i) || i == 63 then i else BottomFrom(x, i + 1)
  }

  /** `__builtin_ctzll(x)`: the number of squares below the lowest disc. */
  function Ctz(x: bv64): Sq {
    BottomFrom(x, 0)
  }

  /** Square `i` is the highest disc of `x`. */
  predicate IsTop(x: bv64, i: Sq) {
    x >> i == 1
  }

  /** Square `i` is the lowest disc of `x`. */
  predicate IsBottom(x: bv64, i: Sq) {
    Bitboard.Bit(x, i) && x & (Bitboard.Single(i) - 1) == 0
  }

  /** No disc of `x` is above square `i`. */
  predicate NoneAbove(x: bv64, i: Sq) {
    i == 63 || x >> (i + 1) == 0
  }

  /** No disc of `x` is below square `i`. */
  predicate NoneBelow(x: bv64, i: Sq) {
    x & (Bitboard.Single(i) - 1) == 0
  }

  lemma TopHere(x: bv64, i: Sq)
    requires NoneAbove(x, i) && Bitboard.Bit(x, i)
    ensures IsTop(x, i)
  {}

  lemma AboveStep(x: bv64, i: Sq)
    requires NoneAbove(x, i) && !Bitboard.Bit(x, i) && i != 0
    ensures NoneAbove(x, i - 1)
  {}

  lemma NothingLeft(x: bv64)
    requires NoneAbove(x, 0) && !Bitboard.Bit(x, 0)
    ensures x == 0
  {}

  lemma {:induction false} TopFromTop(x: bv64, i: Sq)
    requires x != 0 && NoneAbove(x, i)
    ensures IsTop(x, TopFrom(x, i))
    decreases i
  {
    if Bitboard.Bit(x, i) {
      TopHere(x, i);
    } else if i != 0 {
      AboveStep(x, i);
      TopFromTop(x, i - 1);
    } else {
      NothingLeft(x);
      assert false;
    }
  }

  /** `Highest` is the highest disc of a non-empty `x`. */
  lemma HighestTop(x: bv64)
    requires x != 0
    ensures IsTop(x, Highest(x))
  {
    TopFromTop(x, 63);
  }

  /** `63 - __builtin_clzll(x)` is a square and, on a non-empty mask, its highest disc. */
  lemma ClzIs(x: bv64)
    ensures Clz(x) <= 63
    ensures x != 0 ==> IsTop(x, 63 - Clz(x))
  {
    if x != 0 {
      HighestTop(x);
    }
  }

  lemma BottomHere(x: bv64, i: Sq)
    requires NoneBelow(x, i) && Bitboard.Bit(x, i)
    ensures IsBottom(x, i)
  {}

  lemma BelowStep(x: bv64, i: Sq)
    requires NoneBelow(x, i) && !Bitboard.Bit(x, i) && i != 63
    ensures NoneBelow(x, i + 1)
  {}

  lemma NothingBelowLeft(x: bv64)
    requires NoneBelow(x, 63) && !Bitboard.Bit(x, 63)
    ensures x == 0
  {}

  lemma {:induction false} BottomFromBottom(x: bv64, i: Sq)
    requires x != 0 && NoneBelow(x, i)
    ensures IsBottom(x, BottomFrom(x, i))
    decreases 63 - i
  {
    if Bitboard.Bit(x, i) {
      BottomHere(x, i);
    } else if i != 63 {
      BelowStep(x, i);
      BottomFromBottom(x, i + 1);
    } else {
      NothingBelowLeft(x);
      assert false;
    }
  }

  lemma NoneBelowZero(x: bv64)
    ensures NoneBelow(x, 0)
  {}

  /** `__builtin_ctzll(x)` is the lowest disc of a non-empty `x`. */
  lemma CtzBottom(x: bv64)
    requires x != 0
    ensures IsBottom(x, Ctz(x))
  {
    NoneBelowZero(x);
    BottomFromBottom(x, 0);
  }

  /** `x & (~x + 1)` is the lowest disc of `x`, so the subtraction clears exactly that square. */
  lemma LowBitIs(x: bv64, l: Sq)
    requires IsBottom(x, l)
    ensures LowBit(x) == Bitboard.Single(l)
  {}

  lemma DropLowIs(x: bv64, l: Sq)
    requires IsBottom(x, l)
    ensures DropLow(x) == x & !Bitboard.Single(l)
  {
    LowBitIs(x, l);
    ClearBit(x, l);
  }

  lemma ClearBit(x: bv64, l: Sq)
    requires Bitboard.Bit(x, l)
    ensures x - Bitboard.Single(l) == x & !Bitboard.Single(l)
  {}

  /** The lowest disc is not above the highest. */
  lemma BottomBelowTop(x: bv64, l: Sq, h: Sq)
    requires IsBottom(x, l) && IsTop(x, h)
    ensures l <= h
  {}

  /** A set whose lowest and highest discs coincide is that one square. */
  lemma BottomIsTop(x: bv64, h: Sq)
    requires IsBottom(x, h) && IsTop(x, h)
    ensures x == Bitboard.Single(h)
  {}

  lemma PopSingle(h: Sq)
    ensures Bitboard.Pop(Bitboard.Single(h)) == 1
  {
    Bitboard.PopRemove(Bitboard.Single(h), h);
    ClearSingle(h);
  }

  lemma ClearSingle(h: Sq)
    ensures Bitboard.Single(h) & !Bitboard.Single(h) == 0
  {}

  /** Clearing a square below the highest keeps the highest. */
  lemma KeepTop(x: bv64, l: Sq, h: Sq)
    requires IsTop(x, h) && l < h
    ensures IsTop(x & !Bitboard.Single(l), h)
  {}

  lemma ClearWithin(x: bv64, l: Sq)
    ensures Bitboard.Within(x & !Bitboard.Single(l), x)
  {}

  lemma WithinTrans(x: bv64, y: bv64, z: bv64)
    requires Bitboard.Within(x, y) && Bitboard.Within(y, z)
    ensures Bitboard.Within(x, z)
  {}

  /** One turn of the loop on a set of two or more squares: one square fewer, the same highest. */
  lemma DropLowStep(x: bv64, h: Sq)
    requires IsTop(x, h) && Bitboard.Pop(x) >= 2
    ensures IsTop(DropLow(x), h) && Bitboard.Pop(DropLow(x)) == Bitboard.Pop(x) - 1
    ensures Bitboard.Within(DropLow(x), x)
  {
    var l := Ctz(x);
    CtzBottom(x);
    DropLowIs(x, l);
    BottomBelowTop(x, l, h);
    if l == h {
      BottomIsTop(x, h);
      PopSingle(h);
      assert false;
    }
    KeepTop(x, l, h);
    Bitboard.PopRemove(x, l);
    ClearWithin(x, l);
  }

  /**
   * After `k` turns with `k` below the number of squares, `moves` is a
   * subset of the legal mask with `k` squares fewer and the same highest
   * square.
   */
  lemma {:induction false} DroppedTop(x: bv64, k: nat, h: Sq)
    requires IsTop(x, h) && k < Bitboard.Pop(x)
    ensures IsTop(Dropped(x, k), h) && Bitboard.Pop(Dropped(x, k)) == Bitboard.Pop(x) - k
    ensures Bitboard.Within(Dropped(x, k), x)
  {
    if k == 0 {
      Bitboard.Inside(x, x);
    } else {
      var y := Dropped(x, k - 1);
      DroppedTop(x, k - 1, h);
      DropLowStep(y, h);
      WithinTrans(DropLow(y), y, x);
    }
  }

  lemma TopIsBit(x: bv64, h: Sq)
    requires IsTop(x, h)
    ensures Bitboard.Bit(x, h) && x != 0
  {}

  /** A legal move is a free square, so `place_at` does not throw on it. */
  lemma LegalIsFree(black: bv64, white: bv64, p: Player, t: BoardCpp.Table, pos: Sq)
    requires !BoardCpp.Overlaps(black, white)
    requires Bitboard.Bit(BoardCpp.MovesOf(black, white, p, t), pos)
    ensures BoardCpp.PlaceOf(black, white, p, pos, t).Ok?
  {
    var me := if p == Bitboard.Black then black else white;
    var opp := if p == Bitboard.Black then white else black;
    BoardCpp.MovesUpToWithin(me, opp, Bitboard.EmptyOf(black, white), t, 8);
    Bitboard.InsideOf(BoardCpp.MovesOf(black, white, p, t), Bitboard.EmptyOf(black, white), pos);
    FreeOf(black, white, pos);
    if p == Bitboard.Black {
      BoardCpp.PlaceThrows(black, white, p, pos, t);
    } else {
      BoardCpp.PlaceThrows(white, black, p, pos, t);
    }
  }

  lemma FreeOf(black: bv64, white: bv64, pos: Sq)
    requires !BoardCpp.Overlaps(black, white) && Bitboard.Bit(Bitboard.EmptyOf(black, white), pos)
    ensures !Bitboard.Bit(black, pos) && !Bitboard.Bit(white, pos)
    ensures Bitboard.DisjointBits(black, white) && Bitboard.DisjointBits(white, black)
  {}

  // ------------------------------------------------------------ the agent

  /**
   * The square `select_move` plays from what its loop leaves: the highest,
   * `63 - __builtin_clzll(moves)`, as written, or the lowest,
   * `__builtin_ctzll(moves)`, which plays the `i`-th lowest legal square.
   */
  datatype Pick = WrittenPick | IntendedPick

  /** `move` is a legal square; the highest as written, the `draw`-th lowest as intended. */
  predicate Selected(legal: bv64, pick: Pick, draw: nat, move: Sq) {
    Bitboard.Bit(legal, move)
    && (pick == WrittenPick ==> IsTop(legal, move))
    && (pick == IntendedPick ==> move == IntendedMove(legal, draw))
  }

  /** `a` plays a `Selected` square of `valid_moves(p)` and holds the board `place_at` makes of it. */
  predicate SelectedAction(black: bv64, white: bv64, p: Player, t: BoardCpp.Table, pick: Pick, draw: nat, a: Action) {
    Selected(BoardCpp.MovesOf(black, white, p, t), pick, draw, a.pos)
    && BoardCpp.PlaceOf(black, white, p, a.pos, t) == Ok(a.board)
  }

  /**
   * `RandomAgent::select_move(board, p)` with `dist` drawing `draw` from
   * `0 .. popcount(moves) - 1`. The legal mask must be non-empty, or that
   * range is invalid and `assert(moves > 0)` fails.
   */
  method RandomSelectMove(board: BoardCpp.Board, p: Player, t: BoardCpp.Table, pick: Pick, draw: nat) returns (a: Action)
    requires !BoardCpp.Overlaps(board.black, board.white)
    requires BoardCpp.MovesOf(board.black, board.white, p, t) != 0
    requires draw < Bitboard.Pop(BoardCpp.MovesOf(board.black, board.white, p, t))
    ensures SelectedAction(board.black, board.white, p, t, pick, draw, a)
  {
    var moves := board.ValidMoves(p, t);
    var rest := ClearLowest(moves, draw);
    var move := PickFrom(moves, draw, rest, pick);
    Chosen(board.black, board.white, p, t, pick, draw, moves, move);
    var r := board.PlaceAt(p, move, t);
    a := Action(move, r.value.Value());
    Played(board.black, board.white, p, t, pick, draw, a);
  }

  lemma Played(black: bv64, white: bv64, p: Player, t: BoardCpp.Table, pick: Pick, draw: nat, a: Action)
    requires Selected(BoardCpp.MovesOf(black, white, p, t), pick, draw, a.pos)
    requires BoardCpp.PlaceOf(black, white, p, a.pos, t).Ok? && a.board == BoardCpp.PlaceOf(black, white, p, a.pos, t).value
    ensures SelectedAction(black, white, p, t, pick, draw, a)
  {}

  /** The square played from what the loop leaves of the legal mask. */
  method PickFrom(legal: bv64, draw: nat, rest: bv64, pick: Pick) returns (move: Sq)
    requires legal != 0 && draw < Bitboard.Pop(legal) && rest == Dropped(legal, draw)
    ensures Selected(legal, pick, draw, move)
  {
    if pick == WrittenPick {
      PickIsTop(legal, draw, rest);
      move := HighestOf(rest);
      TopIsBit(legal, move);
    } else {
      move := Ctz(rest);
      IntendedIsLegal(legal, draw);
    }
  }

  /** The loop of `select_move`: `i` turns of `moves -= moves & (~moves + 1)`. */
  method ClearLowest(legal: bv64, draw: nat) returns (moves: bv64)
    ensures moves == Dropped(legal, draw)
  {
    moves := legal;
    var i := draw;
    while i != 0
      invariant 0 <= i <= draw
      invariant moves == Dropped(legal, draw - i)
      decreases i
    {
      moves := moves - (moves & (!moves + 1));
      i := i - 1;
    }
  }

  /** `63 - __builtin_clzll(moves)`. */
  method HighestOf(moves: bv64) returns (move: Sq)
    ensures move == Highest(moves)
  {
    ClzIs(moves);
    move := 63 - Clz(moves);
  }

  /** `place_at` does not throw on a square of the legal mask. */
  lemma Chosen(black: bv64, white: bv64, p: Player, t: BoardCpp.Table, pick: Pick, draw: nat, moves: bv64, move: Sq)
    requires !BoardCpp.Overlaps(black, white) && moves == BoardCpp.MovesOf(black, white, p, t)
    requires Selected(moves, pick, draw, move)
    ensures Selected(BoardCpp.MovesOf(black, white, p, t), pick, draw, move)
    ensures BoardCpp.PlaceOf(black, white, p, move, t).Ok?
  {
    LegalIsFree(black, white, p, t, move);
  }

  /** What is left after fewer turns than squares is non-empty and has the legal mask's highest square. */
  lemma PickIsTop(legal: bv64, draw: nat, rest: bv64)
    requires legal != 0 && draw < Bitboard.Pop(legal) && rest == Dropped(legal, draw)
    ensures rest != 0 && IsTop(legal, Highest(rest))
  {
    HighestTop(legal);
    DroppedTop(legal, draw, Highest(legal));
    TopIsBit(rest, Highest(legal));
    HighestTop(rest);
    SameTop(rest, Highest(rest), Highest(legal));
  }

  lemma SameTop(x: bv64, i: Sq, j: Sq)
    requires IsTop(x, i) && IsTop(x, j)
    ensures i == j
  {}

  /** The move of `select_move` as written, for the legal mask `legal` and the draw `draw`. */
  function WrittenMove(legal: bv64, draw: nat): bv64 {
    63 - Clz(Dropped(legal, draw))
  }

  lemma WrittenMoveIs(legal: bv64, draw: nat)
    ensures WrittenMove(legal, draw) == Highest(Dropped(legal, draw))
  {
    ClzIs(Dropped(legal, draw));
  }

  /** Every draw `dist` can make gives the same move: the highest legal square. */
  lemma WrittenIgnoresDraw(legal: bv64, d1: nat, d2: nat)
    requires legal != 0 && d1 < Bitboard.Pop(legal) && d2 < Bitboard.Pop(legal)
    ensures WrittenMove(legal, d1) == WrittenMove(legal, d2) == Highest(legal)
  {
    PickIsTop(legal, d1, Dropped(legal, d1));
    PickIsTop(legal, d2, Dropped(legal, d2));
    HighestTop(legal);
    SameTop(legal, Highest(Dropped(legal, d1)), Highest(legal));
    SameTop(legal, Highest(Dropped(legal, d2)), Highest(legal));
    WrittenMoveIs(legal, d1);
    WrittenMoveIs(legal, d2);
  }

  // ------------------------------------------------------- the intended pick

  /** The move of `select_move` with `__builtin_ctzll`: the lowest square left after `draw` turns. */
  function IntendedMove(legal: bv64, draw: nat): Sq {
    Ctz(Dropped(legal, draw))
  }

  lemma DropLowWithin(x: bv64)
    ensures Bitboard.Within(DropLow(x), x)
  {}

  /** The loop only ever clears squares. */
  lemma {:induction false} DroppedWithin(x: bv64, k: nat)
    ensures Bitboard.Within(Dropped(x, k), x)
  {
    if k == 0 {
      Bitboard.Inside(x, x);
    } else {
      DroppedWithin(x, k - 1);
      DropLowWithin(Dropped(x, k - 1));
      WithinTrans(Dropped(x, k), Dropped(x, k - 1), x);
    }
  }

  /** `a` turns and then `b` more are `a + b` turns. */
  lemma {:induction false} DroppedAdd(x: bv64, a: nat, b: nat)
    ensures Dropped(Dropped(x, a), b) == Dropped(x, a + b)
    decreases b
  {
    if b != 0 {
      DroppedAdd(x, a, b - 1);
    }
  }

  lemma PopZero()
    ensures Bitboard.Pop(0) == 0
  {}

  /** Fewer turns than squares leave a square. */
  lemma DroppedNonEmpty(x: bv64, k: nat)
    requires k < Bitboard.Pop(x)
    ensures Dropped(x, k) != 0
  {
    PopZero();
    HighestTop(x);
    DroppedTop(x, k, Highest(x));
    TopIsBit(Dropped(x, k), Highest(x));
  }

  /** The intended move is a legal square. */
  lemma IntendedIsLegal(legal: bv64, draw: nat)
    requires draw < Bitboard.Pop(legal)
    ensures Bitboard.Bit(legal, IntendedMove(legal, draw))
  {
    DroppedNonEmpty(legal, draw);
    CtzBottom(Dropped(legal, draw));
    DroppedWithin(legal, draw);
    Bitboard.InsideOf(Dropped(legal, draw), legal, IntendedMove(legal, draw));
  }

  /** Every square left after clearing the lowest square `l` of `y` is above `l`. */
  lemma ClearedAbove(y: bv64, l: Sq, z: bv64, m: Sq)
    requires IsBottom(y, l) && Bitboard.Within(z, y & !Bitboard.Single(l)) && Bitboard.Bit(z, m)
    ensures l < m
  {
    Bitboard.InsideOf(z, y & !Bitboard.Single(l), m);
    BitOfCleared(y, l, m);
  }

  lemma BitOfCleared(y: bv64, l: Sq, m: Sq)
    requires IsBottom(y, l) && Bitboard.Bit(y & !Bitboard.Single(l), m)
    ensures l < m
  {}

  /**
   * Later draws play higher squares, so the `popcount(moves)` draws play
   * `popcount(moves)` different legal squares.
   */
  lemma IntendedOrder(legal: bv64, d1: nat, d2: nat)
    requires d1 < d2 < Bitboard.Pop(legal)
    ensures IntendedMove(legal, d1) < IntendedMove(legal, d2)
  {
    LaterWithin(legal, d1, d2);
    DroppedNonEmpty(legal, d1);
    DroppedNonEmpty(legal, d2);
    DroppedNext(legal, d1);
    LowestRises(Dropped(legal, d1), Dropped(legal, d1 + 1), Dropped(legal, d2));
  }

  lemma DroppedNext(x: bv64, k: nat)
    ensures Dropped(x, k + 1) == DropLow(Dropped(x, k))
  {}

  /** What a later draw leaves is inside what one turn more than an earlier draw leaves. */
  lemma LaterWithin(legal: bv64, d1: nat, d2: nat)
    requires d1 < d2
    ensures Bitboard.Within(Dropped(legal, d2), Dropped(legal, d1 + 1))
  {
    DroppedAdd(legal, d1 + 1, d2 - d1 - 1);
    DroppedWithin(Dropped(legal, d1 + 1), d2 - d1 - 1);
  }

  /** A non-empty set inside `y` with its lowest square cleared has a higher lowest square. */
  lemma LowestRises(y: bv64, y': bv64, z: bv64)
    requires y != 0 && z != 0 && y' == DropLow(y) && Bitboard.Within(z, y')
    ensures Ctz(y) < Ctz(z)
  {
    CtzBottom(y);
    CtzBottom(z);
    DropLowIs(y, Ctz(y));
    ClearedAbove(y, Ctz(y), z, Ctz(z));
  }

  // ------------------------------------------------------ the initial position

  /** Black's legal squares on the initial board: D3, C4, F5 and E6. */
  const OpeningMoves: bv64 := 0x0000_1020_0408_0000

  /** On the opening mask, draws 0 and 1 both play D3 as written ... */
  lemma WrittenSameOpening()
    ensures WrittenMove(OpeningMoves, 0) == WrittenMove(OpeningMoves, 1) == 44
  {
    OpeningPop();
    OpeningTop();
    WrittenIgnoresDraw(OpeningMoves, 0, 1);
  }

  /** ... and E6 then F5 as intended. */
  lemma IntendedOpening()
    ensures IntendedMove(OpeningMoves, 0) == 19 && IntendedMove(OpeningMoves, 1) == 26
  {
    OpeningPop();
    DroppedNonEmpty(OpeningMoves, 0);
    DroppedNonEmpty(OpeningMoves, 1);
    CtzBottom(OpeningMoves);
    SameBottom(OpeningMoves, Ctz(OpeningMoves), 19);
    assert Dropped(OpeningMoves, 1) == DropLow(OpeningMoves);
    DropLowIs(OpeningMoves, 19);
    CtzBottom(Dropped(OpeningMoves, 1));
    SameBottom(Dropped(OpeningMoves, 1), Ctz(Dropped(OpeningMoves, 1)), 26);
  }

  lemma SameBottom(x: bv64, i: Sq, j: Sq)
    requires IsBottom(x, i) && IsBottom(x, j)
    ensures i == j
  {}

  lemma OpeningPop()
    ensures Bitboard.Pop(OpeningMoves) >= 2
  {
    Bitboard.PopRemove(OpeningMoves, 44);
    Bitboard.PopRemove(OpeningMoves & !Bitboard.Single(44), 37);
  }

  lemma OpeningTop()
    ensures Highest(OpeningMoves) == 44
  {
    HighestTop(OpeningMoves);
    SameTop(OpeningMoves, Highest(OpeningMoves), 44);
  }
}
