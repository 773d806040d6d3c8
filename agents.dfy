/**
 * src/agent.rs: the random agent, the corner-preferring one-step lookahead
 * agent, and the breadth-first enumeration of positions with symmetric
 * duplicates removed. A random pick is a draw `k` supplied by the caller.
 */
module Agents {
  import opened Wrappers
  import opened Bitboard
  import opened Game

  /** `RandomAgent::select_move`: a random legal move, or a pass when there is none. */
  function RandomMove(g: Rules, b: Board, p: Player, k: nat): (r: Option<Action>)
    ensures r.None? <==> g.moves(b, p) == 0
    ensures r.Some? ==> Bit(g.moves(b, p), r.value.at) && r.value.board == g.play(b, p, r.value.at)
  {
    LegalEmpty(g, b, p);
    LegalMembers(g, b, p);
    Choose(Legal(g, b, p), k)
  }

  /** A1, A8, H1 or H8. */
  predicate IsCorner(q: Sq) {
    q == 63 || q == 7 || q == 56 || q == 0
  }

  /** The four corners as a disc set, `0x8100000000000081`. */
  const Corners: bv64 := 0x8100_0000_0000_0081

  lemma CornersAreCorners(q: Sq)
    ensures Bit(Corners, q) <==> IsCorner(q)
  {}

  /** `find` of the first corner move: its index in `moves`. */
  function FirstCorner(moves: seq<Action>): (r: Option<nat>)
    ensures r.Some? ==> r.value < |moves| && IsCorner(moves[r.value].at)
    ensures r.Some? ==> forall j | 0 <= j < r.value :: !IsCorner(moves[j].at)
    ensures r.None? ==> forall j | 0 <= j < |moves| :: !IsCorner(moves[j].at)
  {
    if moves == [] then None
    else if IsCorner(moves[0].at) then Some(0)
    else match FirstCorner(moves[1..])
      case None => None
      case Some(i) => Some(i + 1)
  }

  /** A move after which the opponent cannot take a corner. */
  predicate Safe(g: Rules, p: Player, a: Action) {
    g.moves(a.board, p.Opponent()) & Corners == 0
  }

  /** The `filter` of safe moves, in order. */
  function SafeMoves(g: Rules, p: Player, moves: seq<Action>): (r: seq<Action>)
    ensures forall a :: a in r <==> a in moves && Safe(g, p, a)
  {
    if moves == [] then []
    else if Safe(g, p, moves[0]) then [moves[0]] + SafeMoves(g, p, moves[1..])
    else SafeMoves(g, p, moves[1..])
  }

  /**
   * `OneStepLookaheadAgent::select_move`: the first corner move if there is
   * one, else a random safe move, else a random move; `k1` and `k2` are the
   * two draws.
   */
  function Lookahead(g: Rules, b: Board, p: Player, k1: nat, k2: nat): Option<Action> {
    var moves := Legal(g, b, p);
    match FirstCorner(moves)
    case Some(i) => Some(moves[i])
    case None =>
      var safe := SafeMoves(g, p, moves);
      if safe != [] then Choose(safe, k1) else Choose(moves, k2)
  }

  /** It passes exactly when there is no legal move, and otherwise plays a legal one. */
  lemma LookaheadLegal(g: Rules, b: Board, p: Player, k1: nat, k2: nat)
    ensures var r := Lookahead(g, b, p, k1, k2);
      (r.None? <==> g.moves(b, p) == 0)
      && (r.Some? ==> Bit(g.moves(b, p), r.value.at) && r.value.board == g.play(b, p, r.value.at))
  {
    LegalEmpty(g, b, p);
    LegalMembers(g, b, p);
    var moves := Legal(g, b, p);
    match FirstCorner(moves)
    case Some(i) => assert moves[i] in moves;
    case None =>
  }

  /** A corner move is taken whenever there is one: the first in the order of `valid_moves`. */
  lemma LookaheadCorner(g: Rules, b: Board, p: Player, k1: nat, k2: nat, i: nat)
    requires i < |Legal(g, b, p)| && IsCorner(Legal(g, b, p)[i].at)
    ensures var r := Lookahead(g, b, p, k1, k2);
      r.Some? && IsCorner(r.value.at)
      && exists j | 0 <= j <= i :: (r.value == Legal(g, b, p)[j]
           && forall l | 0 <= l < j :: !IsCorner(Legal(g, b, p)[l].at))
  {
    var moves := Legal(g, b, p);
    var j := FirstCorner(moves).value;
    assert Lookahead(g, b, p, k1, k2) == Some(moves[j]);
  }

  /** Without a corner move, a safe move is taken whenever there is one. */
  lemma LookaheadSafe(g: Rules, b: Board, p: Player, k1: nat, k2: nat, a: Action)
    requires forall j | 0 <= j < |Legal(g, b, p)| :: !IsCorner(Legal(g, b, p)[j].at)
    requires a in Legal(g, b, p) && Safe(g, p, a)
    ensures var r := Lookahead(g, b, p, k1, k2);
      r.Some? && r.value in Legal(g, b, p) && Safe(g, p, r.value)
  {
    var moves := Legal(g, b, p);
    assert a in SafeMoves(g, p, moves);
  }

  // -------------------------------------------------------------------- bfs

  /** An element of the visited set: whose turn it is, and the board. */
  datatype State = State(player: Player, board: Board)

  /** An element of the queue: the depth still to explore, then the state. */
  datatype Entry = Entry(depth: nat, player: Player, board: Board)

  /** The three board symmetries `bfs` compares against. */
  datatype Mirrors = Mirrors(diagA1H8: Board -> Board, diagA8H1: Board -> Board, half: Board -> Board)

  const Symmetries: Mirrors := Mirrors((b: Board) => b.FlippedA1H8(), (b: Board) => b.FlippedA8H1(), (b: Board) => b.Rotated180())

  ghost predicate Involutive(m: Mirrors) {
    forall b: Board :: m.diagA1H8(m.diagA1H8(b)) == b && m.diagA8H1(m.diagA8H1(b)) == b && m.half(m.half(b)) == b
  }

  lemma SymmetriesInvolutive()
    ensures Involutive(Symmetries)
  {
    forall b: Board
      ensures Symmetries.diagA1H8(Symmetries.diagA1H8(b)) == b
      ensures Symmetries.diagA8H1(Symmetries.diagA8H1(b)) == b
      ensures Symmetries.half(Symmetries.half(b)) == b
    {
      Bitboard.SymmetriesInvolutive(b);
    }
  }

  /** The four `vis.contains` tests: the state or one of its images was already visited. */
  predicate Seen(vis: set<State>, m: Mirrors, s: State) {
    s in vis || State(s.player, m.diagA1H8(s.board)) in vis
    || State(s.player, m.diagA8H1(s.board)) in vis || State(s.player, m.half(s.board)) in vis
  }

  /** No visited state is an image of another visited state with the same player. */
  predicate NoTwins(vis: set<State>, m: Mirrors) {
    forall x, y | x in vis && y in vis && x.player == y.player
      && (y.board == m.diagA1H8(x.board) || y.board == m.diagA8H1(x.board) || y.board == m.half(x.board))
      :: x == y
  }

  /** One turn: a legal move, or the same board when the mover must pass. */
  ghost predicate Step(g: Rules, s: State, t: State) {
    t.player == s.player.Opponent()
    && if Legal(g, s.board, s.player) == [] then t.board == s.board
       else exists a | a in Legal(g, s.board, s.player) :: a.board == t.board
  }

  /** `t` is reached from `s0` in at most `n` turns. */
  ghost predicate Reach(g: Rules, s0: State, t: State, n: nat)
    decreases n
  {
    t == s0 || (n > 0 && (Reach(g, s0, t, n - 1) || exists u :: Reach(g, s0, u, n - 1) && Step(g, u, t)))
  }

  lemma {:induction false} ReachMore(g: Rules, s0: State, t: State, n: nat, n': nat)
    requires Reach(g, s0, t, n) && n <= n'
    ensures Reach(g, s0, t, n')
    decreases n'
  {
    if n < n' && t != s0 {
      ReachMore(g, s0, t, n, n' - 1);
    }
  }

  lemma ReachStep(g: Rules, s0: State, u: State, t: State, n: nat)
    requires Reach(g, s0, u, n) && Step(g, u, t)
    ensures Reach(g, s0, t, n + 1)
  {}

  /** The number of turns a state taken from the queue with depth `d` may be away from the start. */
  function Spent(depth: nat, d: nat): nat {
    var used := if d == 0 then 1 else d;
    if used <= Span(depth) then Span(depth) - used else 0
  }

  /** How far `bfs` reaches: `depth` turns, and one turn when `depth` is 0. */
  function Span(depth: nat): nat {
    if depth == 0 then 1 else depth
  }

  /** Every queued state lies within its budget of the start. */
  ghost predicate Queued(g: Rules, s0: State, depth: nat, q: seq<Entry>) {
    forall k | 0 <= k < |q| :: q[k].depth <= depth && (q[k].depth == 0 ==> depth == 0)
      && Reach(g, s0, State(q[k].player, q[k].board), Spent(depth, q[k].depth))
  }

  ghost predicate Within(g: Rules, s0: State, depth: nat, vis: set<State>) {
    forall s | s in vis :: Reach(g, s0, s, Span(depth))
  }

  function Pow65(d: nat): (r: nat)
    ensures r >= 1
  {
    if d == 0 then 1 else 65 * Pow65(d - 1)
  }

  /** The weight of `n` entries of weight `w` each. */
  function Times(n: nat, w: nat): nat {
    if n == 0 then 0 else Times(n - 1, w) + w
  }

  /** The termination measure: an entry of depth `d` weighs 65^d, more than the at most 64 entries it adds. */
  function Weight(q: seq<Entry>): nat {
    if q == [] then 0 else Pow65(q[0].depth) + Weight(q[1..])
  }

  lemma {:induction false} WeightSnoc(q: seq<Entry>, e: Entry)
    ensures Weight(q + [e]) == Weight(q) + Pow65(e.depth)
  {
    if q == [] {
      assert [] + [e] == [e];
    } else {
      assert (q + [e])[1..] == q[1..] + [e];
      WeightSnoc(q[1..], e);
    }
  }

  lemma {:induction false} TimesIs(n: nat, w: nat)
    ensures Times(n, w) == n * w
  {
    if n != 0 { TimesIs(n - 1, w); }
  }

  /** The at most 64 successors of an entry of depth `d` weigh less than it does. */
  lemma Lighter(n: nat, d: nat)
    requires n <= 64 && d > 1
    ensures Times(n, Pow65(d - 1)) < Pow65(d)
  {
    TimesMono(n, 64, Pow65(d - 1));
    TimesIs(64, Pow65(d - 1));
  }

  lemma {:induction false} TimesMono(n: nat, m: nat, w: nat)
    requires n <= m
    ensures Times(n, w) <= Times(m, w)
    decreases m
  {
    if n < m { TimesMono(n, m - 1, w); }
  }

  /** What an entry of depth `d` adds to the queue for each successor, at most. */
  function Child(d: nat): nat {
    if d > 1 then Pow65(d - 1) else 0
  }

  /**
   * `bfs`: every state reached from `(p, board)` in at most `depth` turns, with
   * states whose mirror image under one of the three symmetries was already
   * visited left out.
   */
  method Bfs(g: Rules, m: Mirrors, board: Board, p: Player, depth: nat) returns (vis: set<State>)
    requires Involutive(m)
    ensures State(p, board) in vis
    ensures forall s | s in vis :: Reach(g, State(p, board), s, Span(depth))
    ensures NoTwins(vis, m)
  {
    var s0 := State(p, board);
    vis := {s0};
    var q := [Entry(depth, p, board)];
    while q != []
      invariant s0 in vis && NoTwins(vis, m)
      invariant Within(g, s0, depth, vis)
      invariant Queued(g, s0, depth, q)
      decreases Weight(q)
    {
      var e := q[0];
      q := q[1..];
      ghost var base := Weight(q);
      var actions := Legal(g, e.board, e.player);
      var o := e.player.Opponent();
      ghost var from := State(e.player, e.board);
      ghost var n := Spent(depth, e.depth);
      assert Reach(g, s0, from, n);
      if actions != [] {
        LegalBound(g, e.board, e.player);
        for k := 0 to |actions|
          invariant s0 in vis && NoTwins(vis, m)
          invariant Within(g, s0, depth, vis)
          invariant Queued(g, s0, depth, q)
          invariant Weight(q) <= base + Times(k, Child(e.depth))
        {
          var next := State(o, actions[k].board);
          assert Step(g, from, next);
          vis, q := Visit(g, m, s0, depth, vis, q, e.depth, from, next);
        }
        if e.depth > 1 {
          Lighter(|actions|, e.depth);
        } else {
          TimesIs(|actions|, 0);
        }
      } else {
        var next := State(o, e.board);
        assert Step(g, from, next);
        vis, q := Visit(g, m, s0, depth, vis, q, e.depth, from, next);
      }
    }
  }

  /** The body of the inner loop: insert and enqueue `next` unless it or an image was seen. */
  method Visit(g: Rules, m: Mirrors, ghost s0: State, depth: nat, vis: set<State>, q: seq<Entry>,
               d: nat, ghost from: State, next: State)
    returns (vis': set<State>, q': seq<Entry>)
    requires Involutive(m) && NoTwins(vis, m) && s0 in vis
    requires Within(g, s0, depth, vis) && Queued(g, s0, depth, q)
    requires d <= depth && (d == 0 ==> depth == 0)
    requires Reach(g, s0, from, Spent(depth, d)) && Step(g, from, next)
    ensures s0 in vis' && NoTwins(vis', m)
    ensures Within(g, s0, depth, vis') && Queued(g, s0, depth, q')
    ensures vis' == if Seen(vis, m, next) then vis else vis + {next}
    ensures q' == if !Seen(vis, m, next) && d > 1 then q + [Entry(d - 1, next.player, next.board)] else q
    ensures Weight(q') <= Weight(q) + Child(d)
  {
    vis', q' := vis, q;
    if !Seen(vis, m, next) {
      ReachStep(g, s0, from, next, Spent(depth, d));
      ReachMore(g, s0, next, Spent(depth, d) + 1, Span(depth));
      NoTwinsInsert(vis, m, next);
      WithinInsert(g, s0, depth, vis, next);
      vis' := vis + {next};
      if d > 1 {
        var e := Entry(d - 1, next.player, next.board);
        assert Spent(depth, d - 1) == Spent(depth, d) + 1;
        QueuedSnoc(g, s0, depth, q, e);
        q' := q + [e];
        WeightSnoc(q, e);
      }
    }
  }

  lemma WithinInsert(g: Rules, s0: State, depth: nat, vis: set<State>, s: State)
    requires Within(g, s0, depth, vis) && Reach(g, s0, s, Span(depth))
    ensures Within(g, s0, depth, vis + {s})
  {}

  lemma QueuedSnoc(g: Rules, s0: State, depth: nat, q: seq<Entry>, e: Entry)
    requires Queued(g, s0, depth, q) && 1 <= e.depth <= depth
    requires Reach(g, s0, State(e.player, e.board), Spent(depth, e.depth))
    ensures Queued(g, s0, depth, q + [e])
  {
    assert (q + [e])[|q|] == e;
    assert forall k | 0 <= k < |q| :: (q + [e])[k] == q[k];
  }

  lemma NoTwinsInsert(vis: set<State>, m: Mirrors, c: State)
    requires Involutive(m) && NoTwins(vis, m) && !Seen(vis, m, c)
    ensures NoTwins(vis + {c}, m)
  {
  }
}
