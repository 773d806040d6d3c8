/**
 * The two board operations the drivers, agents and the tree search call:
 * the legal-move mask (`valid_moves_fast`) and the board after a move
 * (`place_at_unchecked`), and the list `valid_moves` derives from them. The
 * drivers are stated for any pair of operations and used with `Engine`, the
 * pair of src/board.rs, so that their proofs do not depend on how the moves
 * are computed.
 */
module Game {
  import opened Wrappers
  import opened Bitboard
  import Moves

  datatype Rules = Rules(moves: (Board, Player) -> bv64, play: (Board, Player, Sq) -> Board)

  const Engine: Rules := Rules(MovesMask, PlaceAt)

  /** Playing each square of `s` in turn from `b`. */
  function Plays(g: Rules, b: Board, p: Player, s: seq<Sq>): (r: seq<Action>)
    ensures |r| == |s|
    ensures forall k | 0 <= k < |s| :: r[k] == Action(s[k], g.play(b, p, s[k]))
  {
    if s == [] then [] else [Action(s[0], g.play(b, p, s[0]))] + Plays(g, b, p, s[1..])
  }

  /** `valid_moves`: every legal square, lowest bit first, with the board it makes. */
  function Legal(g: Rules, b: Board, p: Player): seq<Action> {
    Plays(g, b, p, Moves.SquaresIn(g.moves(b, p), Moves.Ascending))
  }

  /** An action is listed exactly when its square is in the mask and its board is the one the move makes. */
  lemma LegalMembers(g: Rules, b: Board, p: Player)
    ensures forall a :: a in Legal(g, b, p) <==> Bit(g.moves(b, p), a.at) && a.board == g.play(b, p, a.at)
  {
    var s := Moves.SquaresIn(g.moves(b, p), Moves.Ascending);
    Moves.SquaresInMembers(g.moves(b, p), Moves.Ascending);
    Moves.AscendingShape();
    forall a: Action | Bit(g.moves(b, p), a.at) && a.board == g.play(b, p, a.at)
      ensures a in Legal(g, b, p)
    {
      var k :| 0 <= k < |s| && s[k] == a.at;
      assert Legal(g, b, p)[k] == a;
    }
  }

  /** There is no legal move exactly when the mask is empty. */
  lemma LegalEmpty(g: Rules, b: Board, p: Player)
    ensures Legal(g, b, p) == [] <==> g.moves(b, p) == 0
  {
    var m := g.moves(b, p);
    if m == 0 {
      Moves.SquaresInNone(Moves.Ascending);
    } else {
      var l := m & (!m + 1);
      Moves.LowestIsSingle(m);
      var t := Moves.TrailingZeros(l);
      Moves.LowestIn(m, l, t);
      LegalMembers(g, b, p);
      assert Action(t, g.play(b, p, t)) in Legal(g, b, p);
    }
  }

  /** A position never has more than 64 legal moves. */
  lemma LegalBound(g: Rules, b: Board, p: Player)
    ensures |Legal(g, b, p)| <= 64
  {
    SquaresInLength(g.moves(b, p), Moves.Ascending);
    AscendingLength(0);
  }

  lemma {:induction false} SquaresInLength(m: bv64, s: seq<Sq>)
    ensures |Moves.SquaresIn(m, s)| <= |s|
  {
    if s != [] { SquaresInLength(m, s[1..]); }
  }

  lemma {:induction false} AscendingLength(c: Sq)
    ensures |Moves.AscendingFrom(c)| == 64 - c as int
    decreases 63 - c
  {
    if c != 63 { AscendingLength(c + 1); }
  }

  lemma {:induction false} PlaysEngine(b: Board, p: Player, s: seq<Sq>)
    ensures Plays(Engine, b, p, s) == Moves.Actions(b, p, s)
  {
    if s != [] { PlaysEngine(b, p, s[1..]); }
  }

  /** With the operations of src/board.rs, the list is the one the `valid_moves` loop builds. */
  lemma LegalEngine(b: Board, p: Player)
    ensures Legal(Engine, b, p) == Moves.FastMoves(b, p)
  {
    PlaysEngine(b, p, Moves.SquaresIn(MovesMask(b, p), Moves.Ascending));
  }

  /**
   * What the drivers need of the operations: from a board without overlaps,
   * a square of the move mask leads to a board without overlaps and with
   * fewer empty squares, so a game cannot go on for ever.
   */
  ghost predicate Sound(g: Rules) {
    forall b: Board, p: Player, i: Sq | b.Disjoint() && Bit(g.moves(b, p), i) ::
      g.play(b, p, i).Disjoint() && Pop(g.play(b, p, i).Empty()) < Pop(b.Empty())
  }

  /** The operations of src/board.rs meet it: a legal move fills exactly one empty square. */
  lemma EngineSound()
    ensures Sound(Engine)
  {
    forall b: Board, p: Player, i: Sq | b.Disjoint() && Bit(Engine.moves(b, p), i)
      ensures Engine.play(b, p, i).Disjoint() && Pop(Engine.play(b, p, i).Empty()) < Pop(b.Empty())
    {
      PlaceAtFills(b, p, i);
    }
  }

  /** A listed move keeps the board without overlaps and fills a square. */
  lemma LegalFills(g: Rules, b: Board, p: Player, a: Action)
    requires Sound(g) && b.Disjoint() && a in Legal(g, b, p)
    ensures a.board.Disjoint() && Pop(a.board.Empty()) < Pop(b.Empty())
  {
    LegalMembers(g, b, p);
  }

  /** `choose` on an iterator: nothing from an empty one, otherwise the element the draw `k` selects. */
  function Choose<T>(xs: seq<T>, k: nat): (r: Option<T>)
    ensures r.None? <==> xs == []
    ensures r.Some? ==> r.value in xs
  {
    if xs == [] then None else Some(xs[k % |xs|])
  }

  /** Every element can be drawn. */
  lemma ChooseAny<T>(xs: seq<T>, i: nat)
    requires i < |xs|
    ensures Choose(xs, i) == Some(xs[i])
  {}
}
