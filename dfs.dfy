/**
 * src/dfs_agent.rs: the depth-limited negamax search `dfs`. At depth zero a
 * position is worth the mover's disc count; otherwise it is worth the best
 * of the negated values of the positions the legal moves lead to, starting
 * from -1000, so a position without a legal move is worth -1000.
 */
module DfsSearch {
  import opened Bitboard
  import opened Game

  /** `valid_moves`: the moves of a position, with the boards they make. */
  type Lister = (Board, Player) -> seq<Action>

  /** `valid_moves` of the operations `g`. */
  function ListOf(g: Rules): Lister {
    (b: Board, p: Player) => Legal(g, b, p)
  }

  /** The starting value of `best_score`. */
  const NoMove: int := -1000

  /** The value `dfs` computes. */
  function Dfs(list: Lister, b: Board, p: Player, depth: nat): int
    decreases depth, 1, 0
  {
    if depth == 0 then b.Count(p) else BestOf(list, list(b, p), p, depth - 1, NoMove)
  }

  /** The loop over `valid_moves`: `best` raised to each move's negated value in turn. */
  function BestOf(list: Lister, acts: seq<Action>, p: Player, depth: nat, best: int): int
    decreases depth + 1, 0, |acts|
  {
    if acts == [] then best
    else
      var score := -Dfs(list, acts[0].board, p.Opponent(), depth);
      BestOf(list, acts[1..], p, depth, if score > best then score else best)
  }

  /** The negated value of a move's position, one level down. */
  function Score(list: Lister, p: Player, depth: nat, a: Action): int {
    -Dfs(list, a.board, p.Opponent(), depth)
  }

  /** The loop ends on the largest of `best` and the scores of the moves. */
  lemma {:induction false} BestOfIsMax(list: Lister, acts: seq<Action>, p: Player, depth: nat, best: int)
    ensures BestOf(list, acts, p, depth, best) >= best
    ensures forall a | a in acts :: BestOf(list, acts, p, depth, best) >= Score(list, p, depth, a)
    ensures BestOf(list, acts, p, depth, best) == best
      || exists a | a in acts :: BestOf(list, acts, p, depth, best) == Score(list, p, depth, a)
    decreases |acts|
  {
    if acts != [] {
      var score := Score(list, p, depth, acts[0]);
      var best' := if score > best then score else best;
      BestOfIsMax(list, acts[1..], p, depth, best');
      var r := BestOf(list, acts, p, depth, best);
      assert r == BestOf(list, acts[1..], p, depth, best');
      forall a | a in acts ensures r >= Score(list, p, depth, a) {
        if a != acts[0] { assert a in acts[1..]; }
      }
      if r != best' {
        var a :| a in acts[1..] && r == Score(list, p, depth, a);
        assert a in acts;
      }
    }
  }

  /**
   * Above depth zero a position is worth at least -1000 and at least the
   * negated value of each of its moves' positions ...
   */
  lemma DfsIsMax(list: Lister, b: Board, p: Player, depth: nat)
    requires depth > 0
    ensures Dfs(list, b, p, depth) >= NoMove
    ensures forall a | a in list(b, p) :: Dfs(list, b, p, depth) >= Score(list, p, depth - 1, a)
  {
    BestOfIsMax(list, list(b, p), p, depth - 1, NoMove);
  }

  /** ... and it is exactly -1000 or one of those values. */
  lemma DfsAttained(list: Lister, b: Board, p: Player, depth: nat)
    requires depth > 0
    ensures Dfs(list, b, p, depth) == NoMove
      || exists a | a in list(b, p) :: Dfs(list, b, p, depth) == Score(list, p, depth - 1, a)
  {
    BestOfIsMax(list, list(b, p), p, depth - 1, NoMove);
  }

  /** A position without a legal move is worth -1000 at any positive depth. */
  lemma DfsNoMove(g: Rules, b: Board, p: Player, depth: nat)
    requires depth > 0 && g.moves(b, p) == 0
    ensures Dfs(ListOf(g), b, p, depth) == NoMove
  {
    LegalEmpty(g, b, p);
    assert ListOf(g)(b, p) == [];
  }

  /** At depth zero a position is worth the mover's disc count. */
  lemma DfsLeaf(list: Lister, b: Board, p: Player)
    ensures Dfs(list, b, p, 0) == b.Count(p) && 0 <= b.Count(p) <= 64
  {}

  /**
   * The only values: a disc count at depth zero, and otherwise -1000, 1000
   * (a move that leaves the opponent without a reply) or the negation of a
   * value one level down.
   */
  lemma {:induction false} DfsRange(list: Lister, b: Board, p: Player, depth: nat)
    ensures depth == 0 ==> 0 <= Dfs(list, b, p, depth) <= 64
    ensures Dfs(list, b, p, depth) == NoMove || Dfs(list, b, p, depth) == -NoMove || -64 <= Dfs(list, b, p, depth) <= 64
    decreases depth
  {
    if depth == 0 {
      DfsLeaf(list, b, p);
    } else {
      DfsAttained(list, b, p, depth);
      var r := Dfs(list, b, p, depth);
      if r != NoMove {
        var a :| a in list(b, p) && r == Score(list, p, depth - 1, a);
        DfsRange(list, a.board, p.Opponent(), depth - 1);
      }
    }
  }

  /** `dfs`, with `valid_moves` given by `list`. */
  method Search(list: Lister, b: Board, p: Player, depth: nat) returns (bestScore: int)
    ensures bestScore == Dfs(list, b, p, depth)
    decreases depth
  {
    if depth == 0 {
      return b.Count(p);
    }
    bestScore := NoMove;
    var moves := list(b, p);
    for k := 0 to |moves|
      invariant BestOf(list, moves[k..], p, depth - 1, bestScore) == Dfs(list, b, p, depth)
    {
      assert moves[k..][1..] == moves[k + 1..];
      var score := Search(list, moves[k].board, p.Opponent(), depth - 1);
      score := -score;
      if score > bestScore {
        bestScore := score;
      }
    }
  }
}
