/**
 * src/mcts_agent.rs: Monte Carlo tree search. The nodes of the tree live in
 * one sequence, the arena; a node names its parent and its children by their
 * positions in it, and a node is always placed after its parent. The UCT
 * selection, the final choice of a child and the random draws of the
 * rollouts are parameters: they are computed in floating point or drawn at
 * random in the source. Rewards are integers.
 */
module Mcts {
  import opened Wrappers
  import opened Bitboard
  import opened Game
  import Moves

  // ------------------------------------------------------------------ states

  /** `OthelloState`: the board, the number of turns played, the player to move. */
  datatype State = State(board: Board, nSteps: nat, player: Player)

  /** The state one turn later: the board a move made (the same board for a pass, `None`), the other player to move. */
  function Step(s: State, cause: Option<Action>): State {
    State(if cause.Some? then cause.value.board else s.board, s.nSteps + 1, s.player.Opponent())
  }

  /** `is_terminal_node` (`Board::is_final`): neither player has a legal move. */
  predicate Terminal(g: Rules, b: Board) {
    g.moves(b, Black) == 0 && g.moves(b, White) == 0
  }

  /** With the operations of src/board.rs this is `is_final`. */
  lemma TerminalEngine(b: Board)
    ensures Terminal(Engine, b) == IsFinal(b)
  {}

  /** `cause` is a legal move of `s`, or a pass (`None`) when the player to move has none. */
  predicate Allowed(g: Rules, s: State, cause: Option<Action>) {
    if cause.Some? then Bit(g.moves(s.board, s.player), cause.value.at) && cause.value.board == g.play(s.board, s.player, cause.value.at)
    else g.moves(s.board, s.player) == 0
  }

  /**
   * `untried_actions` of a new node: every legal move in `valid_moves` order,
   * or `None` when the player to move has to pass.
   */
  function Untried(g: Rules, s: State): (r: Option<seq<Action>>)
    ensures r.None? <==> g.moves(s.board, s.player) == 0
    ensures r.Some? ==> r.value != [] && forall a :: a in r.value <==> Allowed(g, s, Some(a))
  {
    LegalEmpty(g, s.board, s.player);
    LegalMembers(g, s.board, s.player);
    var moves := Legal(g, s.board, s.player);
    if moves == [] then None else Some(moves)
  }

  // ------------------------------------------------------------------- nodes

  /**
   * `MCTSNode`: its state, its parent (`None` for the root), its children,
   * `n_visits`, `reward`, the action that led to it (`None` for the root and
   * for a pass) and the actions not yet expanded (`None` for a pass).
   */
  datatype Node = Node(
    state: State, parent: Option<nat>, children: seq<nat>,
    visits: nat, reward: int, cause: Option<Action>, untried: Option<seq<Action>>)

  /** `MCTSNode::new_root`. */
  function Root(g: Rules, b: Board, p: Player): Node {
    var s := State(b, 0, p);
    Node(s, None, [], 0, 0, None, Untried(g, s))
  }

  /** `MCTSNode::new`: a node without children or visits under node `v`. */
  function Fresh(g: Rules, s: State, v: nat, cause: Option<Action>): Node {
    Node(s, Some(v), [], 0, 0, cause, Untried(g, s))
  }

  // --------------------------------------------------------------- the arena

  /** Node `i` hangs under an earlier node, by a legal move or a forced pass of that node's state. */
  predicate Linked(g: Rules, ns: seq<Node>, i: nat)
    requires i < |ns|
  {
    var n := ns[i];
    n.parent.Some? && n.parent.value < i
    && Allowed(g, ns[n.parent.value].state, n.cause)
    && n.state == Step(ns[n.parent.value].state, n.cause)
  }

  /** The children of node `i` come after it and name it as their parent. */
  predicate Owns(ns: seq<Node>, i: nat)
    requires i < |ns|
  {
    forall k | 0 <= k < |ns[i].children| ::
      i < ns[i].children[k] < |ns| && ns[ns[i].children[k]].parent == Some(i)
  }

  /**
   * A node's board has no overlaps, its untried actions are legal moves of its
   * state, and they are `None` exactly when its player has to pass.
   */
  predicate Grounded(g: Rules, n: Node) {
    n.state.board.Disjoint()
    && (n.untried.None? <==> g.moves(n.state.board, n.state.player) == 0)
    && (n.untried.Some? ==> forall a | a in n.untried.value :: Allowed(g, n.state, Some(a)))
  }

  /** A node whose untried actions are used up has a child. */
  predicate Live(n: Node) {
    n.untried.Some? ==> n.untried.value != [] || n.children != []
  }

  /** Everything the arena keeps except `Live`. */
  predicate Structured(g: Rules, ns: seq<Node>) {
    |ns| > 0 && ns[0].parent.None?
    && (forall i | 0 < i < |ns| :: Linked(g, ns, i))
    && (forall i | 0 <= i < |ns| :: Owns(ns, i))
    && (forall i | 0 <= i < |ns| :: Grounded(g, ns[i]))
  }

  /** The invariant of the tree. */
  predicate WellFormed(g: Rules, ns: seq<Node>) {
    Structured(g, ns) && forall i | 0 <= i < |ns| :: Live(ns[i])
  }

  /** Node `a` is node `u` or one of its ancestors. */
  predicate Above(ns: seq<Node>, a: nat, u: nat)
    requires u < |ns|
    decreases u
  {
    a == u || (ns[u].parent.Some? && ns[u].parent.value < u && Above(ns, a, ns[u].parent.value))
  }

  /** Node `n` with its untried actions replaced (`Vec::pop`, `swap_remove`). */
  function Retried(ns: seq<Node>, v: nat, untried: Option<seq<Action>>): seq<Node>
    requires v < |ns|
  {
    ns[v := ns[v].(untried := untried)]
  }

  /** `expand_impl(v, cause)`: the new node goes at the end and becomes `v`'s last child. */
  function Appended(g: Rules, ns: seq<Node>, v: nat, cause: Option<Action>): seq<Node>
    requires v < |ns|
  {
    ns[v := ns[v].(children := ns[v].children + [|ns|])] + [Fresh(g, Step(ns[v].state, cause), v, cause)]
  }

  /** An old node keeps its state, parent and action, and its children only gain new ones at the end. */
  predicate Kept(n: Node, n': Node) {
    n.state == n'.state && n.parent == n'.parent && n.cause == n'.cause && n.children <= n'.children
  }

  /** The arena `ns'` is `ns` with nodes added and with the old nodes kept. */
  predicate Extends(ns: seq<Node>, ns': seq<Node>) {
    |ns| <= |ns'| && forall i | 0 <= i < |ns| :: Kept(ns[i], ns'[i])
  }

  /** Moreover no visit or reward of an old node changed. */
  predicate Grows(ns: seq<Node>, ns': seq<Node>) {
    Extends(ns, ns') && forall i | 0 <= i < |ns| :: ns'[i].visits == ns[i].visits && ns'[i].reward == ns[i].reward
  }

  /** The two agree on everything but visits and rewards. */
  predicate Reshaped(n: Node, n': Node) {
    n.state == n'.state && n.parent == n'.parent && n.children == n'.children
    && n.cause == n'.cause && n.untried == n'.untried
  }

  // ------------------------------------------------------- keeping the shape

  /** The arena a new node is placed in keeps the invariant. */
  lemma AppendedWellFormed(g: Rules, ns: seq<Node>, v: nat, cause: Option<Action>)
    requires Sound(g) && Structured(g, ns) && v < |ns|
    requires forall i | 0 <= i < |ns| && i != v :: Live(ns[i])
    requires Allowed(g, ns[v].state, cause)
    ensures WellFormed(g, Appended(g, ns, v, cause))
  {
    var ns' := Appended(g, ns, v, cause);
    FreshGrounded(g, ns[v].state, v, cause);
    AppendedLinked(g, ns, v, cause);
    AppendedOwns(g, ns, v, cause);
    AppendedGrounded(g, ns, v, cause);
  }

  /** Where each node of the grown arena comes from. */
  lemma AppendedAt(g: Rules, ns: seq<Node>, v: nat, cause: Option<Action>, i: nat)
    requires v < |ns| && i <= |ns|
    ensures |Appended(g, ns, v, cause)| == |ns| + 1
    ensures Appended(g, ns, v, cause)[i] ==
      if i == |ns| then Fresh(g, Step(ns[v].state, cause), v, cause)
      else if i == v then ns[v].(children := ns[v].children + [|ns|])
      else ns[i]
  {}

  lemma AppendedLinked(g: Rules, ns: seq<Node>, v: nat, cause: Option<Action>)
    requires v < |ns| && forall i | 0 < i < |ns| :: Linked(g, ns, i)
    requires Allowed(g, ns[v].state, cause)
    ensures forall i | 0 < i < |ns| + 1 :: Linked(g, Appended(g, ns, v, cause), i)
  {
    var ns' := Appended(g, ns, v, cause);
    forall i | 0 < i < |ns| + 1 ensures Linked(g, ns', i) {
      AppendedAt(g, ns, v, cause, i);
      if i < |ns| {
        assert Linked(g, ns, i);
        AppendedAt(g, ns, v, cause, ns[i].parent.value);
      } else {
        AppendedAt(g, ns, v, cause, v);
      }
    }
  }

  lemma AppendedOwns(g: Rules, ns: seq<Node>, v: nat, cause: Option<Action>)
    requires v < |ns| && forall i | 0 <= i < |ns| :: Owns(ns, i)
    ensures forall i | 0 <= i < |ns| + 1 :: Owns(Appended(g, ns, v, cause), i)
  {
    var ns' := Appended(g, ns, v, cause);
    forall i | 0 <= i < |ns| + 1 ensures Owns(ns', i) {
      AppendedAt(g, ns, v, cause, i);
      if i < |ns| {
        assert Owns(ns, i);
        forall k | 0 <= k < |ns'[i].children|
          ensures i < ns'[i].children[k] < |ns'| && ns'[ns'[i].children[k]].parent == Some(i)
        {
          if k < |ns[i].children| {
            AppendedAt(g, ns, v, cause, ns[i].children[k]);
          } else {
            AppendedAt(g, ns, v, cause, |ns|);
          }
        }
      }
    }
  }

  lemma AppendedGrounded(g: Rules, ns: seq<Node>, v: nat, cause: Option<Action>)
    requires v < |ns| && forall i | 0 <= i < |ns| :: Grounded(g, ns[i])
    requires forall i | 0 <= i < |ns| && i != v :: Live(ns[i])
    requires Grounded(g, Fresh(g, Step(ns[v].state, cause), v, cause))
    ensures forall i | 0 <= i < |ns| + 1 :: Grounded(g, Appended(g, ns, v, cause)[i]) && Live(Appended(g, ns, v, cause)[i])
  {
    var ns' := Appended(g, ns, v, cause);
    forall i | 0 <= i < |ns| + 1 ensures Grounded(g, ns'[i]) && Live(ns'[i]) {
      AppendedAt(g, ns, v, cause, i);
      if i < |ns| { assert Grounded(g, ns[i]); }
    }
  }

  /** A move from a board without overlaps makes one without overlaps. */
  lemma FreshGrounded(g: Rules, s: State, v: nat, cause: Option<Action>)
    requires Sound(g) && s.board.Disjoint() && Allowed(g, s, cause)
    ensures Grounded(g, Fresh(g, Step(s, cause), v, cause)) && Live(Fresh(g, Step(s, cause), v, cause))
  {}

  /** Taking untried actions away keeps everything but `Live` at that node. */
  lemma RetriedStructured(g: Rules, ns: seq<Node>, v: nat, untried: Option<seq<Action>>)
    requires WellFormed(g, ns) && v < |ns|
    requires untried.None? == ns[v].untried.None?
    requires untried.Some? ==> forall a | a in untried.value :: a in ns[v].untried.value
    ensures Structured(g, Retried(ns, v, untried))
    ensures forall i | 0 <= i < |ns| && i != v :: Live(Retried(ns, v, untried)[i])
  {
    RetriedLinked(g, ns, v, untried);
    RetriedOwns(ns, v, untried);
    RetriedGrounded(g, ns, v, untried);
  }

  lemma RetriedAt(ns: seq<Node>, v: nat, untried: Option<seq<Action>>, i: nat)
    requires v < |ns| && i < |ns|
    ensures |Retried(ns, v, untried)| == |ns|
    ensures Retried(ns, v, untried)[i] == if i == v then ns[v].(untried := untried) else ns[i]
  {}

  lemma RetriedLinked(g: Rules, ns: seq<Node>, v: nat, untried: Option<seq<Action>>)
    requires v < |ns| && forall i | 0 < i < |ns| :: Linked(g, ns, i)
    ensures forall i | 0 < i < |ns| :: Linked(g, Retried(ns, v, untried), i)
  {
    var ns' := Retried(ns, v, untried);
    forall i | 0 < i < |ns| ensures Linked(g, ns', i) {
      assert Linked(g, ns, i);
      RetriedAt(ns, v, untried, i);
      RetriedAt(ns, v, untried, ns[i].parent.value);
    }
  }

  lemma RetriedOwns(ns: seq<Node>, v: nat, untried: Option<seq<Action>>)
    requires v < |ns| && forall i | 0 <= i < |ns| :: Owns(ns, i)
    ensures forall i | 0 <= i < |ns| :: Owns(Retried(ns, v, untried), i)
  {
    var ns' := Retried(ns, v, untried);
    forall i | 0 <= i < |ns| ensures Owns(ns', i) {
      assert Owns(ns, i);
      RetriedAt(ns, v, untried, i);
      forall k | 0 <= k < |ns'[i].children| ensures ns'[ns'[i].children[k]].parent == Some(i) {
        RetriedAt(ns, v, untried, ns[i].children[k]);
      }
    }
  }

  lemma RetriedGrounded(g: Rules, ns: seq<Node>, v: nat, untried: Option<seq<Action>>)
    requires WellFormed(g, ns) && v < |ns|
    requires untried.None? == ns[v].untried.None?
    requires untried.Some? ==> forall a | a in untried.value :: a in ns[v].untried.value
    ensures forall i | 0 <= i < |ns| :: Grounded(g, Retried(ns, v, untried)[i])
    ensures forall i | 0 <= i < |ns| && i != v :: Live(Retried(ns, v, untried)[i])
  {
    var ns' := Retried(ns, v, untried);
    forall i | 0 <= i < |ns| ensures Grounded(g, ns'[i]) && (i != v ==> Live(ns'[i])) {
      assert Grounded(g, ns[i]) && Live(ns[i]);
      RetriedAt(ns, v, untried, i);
    }
  }

  /** Changing only visits and rewards keeps the invariant. */
  lemma ReshapedWellFormed(g: Rules, ns: seq<Node>, ns': seq<Node>)
    requires WellFormed(g, ns) && |ns'| == |ns|
    requires forall i | 0 <= i < |ns| :: Reshaped(ns[i], ns'[i])
    ensures WellFormed(g, ns')
  {
    forall i | 0 < i < |ns'| ensures Linked(g, ns', i) {
      assert Linked(g, ns, i);
      assert Reshaped(ns[ns[i].parent.value], ns'[ns[i].parent.value]);
    }
    forall i | 0 <= i < |ns'| ensures Owns(ns', i) {
      assert Owns(ns, i);
      forall k | 0 <= k < |ns[i].children| ensures ns'[ns[i].children[k]].parent == Some(i) {
        assert Reshaped(ns[ns[i].children[k]], ns'[ns[i].children[k]]);
      }
    }
    forall i | 0 <= i < |ns'| ensures Grounded(g, ns'[i]) && Live(ns'[i]) {
      assert Grounded(g, ns[i]) && Live(ns[i]);
    }
  }

  /** A new node leaves every old one untouched. */
  lemma AppendedGrows(g: Rules, ns: seq<Node>, v: nat, cause: Option<Action>)
    requires v < |ns|
    ensures Grows(ns, Appended(g, ns, v, cause))
  {}

  /** So does taking untried actions away. */
  lemma RetriedGrows(ns: seq<Node>, v: nat, untried: Option<seq<Action>>)
    requires v < |ns|
    ensures Grows(ns, Retried(ns, v, untried))
  {}

  lemma GrowsTrans(a: seq<Node>, b: seq<Node>, c: seq<Node>)
    requires Grows(a, b) && Grows(b, c)
    ensures Grows(a, c)
  {
    ExtendsTrans(a, b, c);
  }

  lemma ExtendsTrans(a: seq<Node>, b: seq<Node>, c: seq<Node>)
    requires Extends(a, b) && Extends(b, c)
    ensures Extends(a, c)
  {
    forall i | 0 <= i < |a| ensures Kept(a[i], c[i]) {
      assert Kept(a[i], b[i]) && Kept(b[i], c[i]);
    }
  }

  /** Ancestry among old nodes is the same in an extended arena. */
  lemma {:induction false} AboveExtends(ns: seq<Node>, ns': seq<Node>, a: nat, u: nat)
    requires Extends(ns, ns') && u < |ns|
    ensures Above(ns', a, u) == Above(ns, a, u)
    decreases u
  {
    assert Kept(ns[u], ns'[u]);
    if ns[u].parent.Some? && ns[u].parent.value < u {
      AboveExtends(ns, ns', a, ns[u].parent.value);
    }
  }

  /** An ancestor of an ancestor is an ancestor. */
  lemma {:induction false} AboveTrans(ns: seq<Node>, a: nat, b: nat, u: nat)
    requires b < |ns| && u < |ns| && Above(ns, a, b) && Above(ns, b, u)
    ensures Above(ns, a, u)
    decreases u
  {
    if b != u {
      AboveTrans(ns, a, b, ns[u].parent.value);
    }
  }

  /** The same holds when only visits and rewards changed. */
  lemma {:induction false} AboveReshaped(ns: seq<Node>, ns': seq<Node>, a: nat, u: nat)
    requires |ns| == |ns'| && u < |ns|
    requires forall i | 0 <= i < |ns| :: ns'[i].parent == ns[i].parent
    ensures Above(ns', a, u) == Above(ns, a, u)
    decreases u
  {
    if ns[u].parent.Some? && ns[u].parent.value < u {
      AboveReshaped(ns, ns', a, ns[u].parent.value);
    }
  }

  /** An ancestor never comes after its descendant. */
  lemma {:induction false} AboveBefore(ns: seq<Node>, a: nat, u: nat)
    requires u < |ns| && Above(ns, a, u)
    ensures a <= u
    decreases u
  {
    if a != u {
      AboveBefore(ns, a, ns[u].parent.value);
    }
  }

  /** In a well-formed arena every node lies under the root. */
  lemma {:induction false} RootAbove(g: Rules, ns: seq<Node>, u: nat)
    requires Structured(g, ns) && u < |ns|
    ensures Above(ns, 0, u)
    decreases u
  {
    if u != 0 {
      assert Linked(g, ns, u);
      RootAbove(g, ns, ns[u].parent.value);
    }
  }

  // ---------------------------------------------------------- backpropagation

  /** One more visit and `r` more reward. */
  function Bumped(n: Node, r: int): Node {
    n.(visits := n.visits + 1, reward := n.reward + r)
  }

  /**
   * `backpropagate(u, r)`: node `u` gains a visit and `r`, then its parent a
   * visit and `-r`, and so on up to the root.
   */
  function Backed(ns: seq<Node>, u: nat, r: int): (ns': seq<Node>)
    requires u < |ns|
    ensures |ns'| == |ns|
    decreases u
  {
    var ns1 := ns[u := Bumped(ns[u], r)];
    if ns[u].parent.Some? && ns[u].parent.value < u then Backed(ns1, ns[u].parent.value, -r) else ns1
  }

  /** The player to move changes along every edge. */
  predicate Alternates(ns: seq<Node>) {
    forall i | 0 <= i < |ns| && ns[i].parent.Some? && ns[i].parent.value < i ::
      ns[ns[i].parent.value].state.player != ns[i].state.player
  }

  lemma StructuredAlternates(g: Rules, ns: seq<Node>)
    requires Structured(g, ns)
    ensures Alternates(ns)
  {
    forall i | 0 <= i < |ns| && ns[i].parent.Some? && ns[i].parent.value < i
      ensures ns[ns[i].parent.value].state.player != ns[i].state.player
    {
      assert Linked(g, ns, i);
    }
  }

  /** The reward node `i` gets from a result `r` of node `u`: `r` if the same player moves in both, `-r` otherwise. */
  function Share(ns: seq<Node>, i: nat, u: nat, r: int): int
    requires i < |ns| && u < |ns|
  {
    if ns[i].state.player == ns[u].state.player then r else -r
  }

  /**
   * After backpropagating `r` from `u`, node `i` has one more visit and its
   * share of `r` exactly when it is `u` or an ancestor of `u`, and is
   * unchanged otherwise.
   */
  lemma {:induction false} BackedAt(ns: seq<Node>, u: nat, r: int, i: nat)
    requires Alternates(ns) && u < |ns| && i < |ns|
    ensures Backed(ns, u, r)[i] == if Above(ns, i, u) then Bumped(ns[i], Share(ns, i, u, r)) else ns[i]
    decreases u
  {
    var ns1 := ns[u := Bumped(ns[u], r)];
    if ns[u].parent.Some? && ns[u].parent.value < u {
      var p := ns[u].parent.value;
      BumpedAlternates(ns, u, r);
      BackedAt(ns1, p, -r, i);
      AboveReshaped(ns, ns1, i, p);
      if i == u {
        if Above(ns, u, p) { AboveBefore(ns, u, p); }
      } else {
        assert ns1[i] == ns[i];
        assert ns1[p].state.player == ns[p].state.player != ns[u].state.player;
      }
    }
  }

  lemma BumpedAlternates(ns: seq<Node>, u: nat, r: int)
    requires Alternates(ns) && u < |ns|
    ensures Alternates(ns[u := Bumped(ns[u], r)])
    ensures forall i | 0 <= i < |ns| :: ns[u := Bumped(ns[u], r)][i].parent == ns[i].parent
  {
    var ns1 := ns[u := Bumped(ns[u], r)];
    forall i | 0 <= i < |ns| && ns1[i].parent.Some? && ns1[i].parent.value < i
      ensures ns1[ns1[i].parent.value].state.player != ns1[i].state.player
    {
      assert ns1[i].parent == ns[i].parent && ns1[i].state == ns[i].state;
      assert ns1[ns[i].parent.value].state == ns[ns[i].parent.value].state;
    }
  }

  /** The two arenas have the same size and the same parent links. */
  predicate SameParents(ns: seq<Node>, ns': seq<Node>) {
    |ns| == |ns'| && forall i | 0 <= i < |ns| :: ns[i].parent == ns'[i].parent
  }

  lemma BumpedParents(ns: seq<Node>, ns0: seq<Node>, u: nat, r: int)
    requires u < |ns| && SameParents(ns, ns0)
    ensures SameParents(ns[u := Bumped(ns[u], r)], ns0) && ns[u].parent == ns0[u].parent
  {}

  /** At the root backpropagation stops. */
  lemma BackedStop(ns: seq<Node>, u: nat, r: int)
    requires u < |ns| && ns[u].parent.None?
    ensures Backed(ns, u, r) == ns[u := Bumped(ns[u], r)]
  {}

  /** Elsewhere it goes on at the parent with the opposite sign. */
  lemma BackedStep(ns: seq<Node>, u: nat, r: int, p: nat)
    requires u < |ns| && ns[u].parent == Some(p) && p < u
    ensures Backed(ns, u, r) == Backed(ns[u := Bumped(ns[u], r)], p, -r)
  {}

  /** Backpropagation keeps the invariant: only visits and rewards change. */
  lemma BackedWellFormed(g: Rules, ns: seq<Node>, u: nat, r: int)
    requires WellFormed(g, ns) && u < |ns|
    ensures WellFormed(g, Backed(ns, u, r))
  {
    StructuredAlternates(g, ns);
    var ns' := Backed(ns, u, r);
    forall i | 0 <= i < |ns| ensures Reshaped(ns[i], ns'[i]) {
      BackedAt(ns, u, r, i);
    }
    ReshapedWellFormed(g, ns, ns');
  }

  // ---------------------------------------------------------------- rollouts

  /** A1, A8, H1, H8: the squares `rollout_policy` tries first, in this order. */
  const Corners: seq<Sq> := [63, 7, 56, 0]

  /** The corner list names the squares A1, A8, H1, H8 in this order. */
  lemma CornerNames()
    ensures |Corners| == 4
    ensures PosName(Corners[0]) == "A1" && PosName(Corners[1]) == "A8"
    ensures PosName(Corners[2]) == "H1" && PosName(Corners[3]) == "H8"
  {}

  /** The first square of `cs` in the mask `m`. */
  function FirstIn(m: bv64, cs: seq<Sq>): (r: Option<Sq>)
    ensures r.None? <==> forall k | 0 <= k < |cs| :: !Bit(m, cs[k])
    ensures r.Some? ==> exists k | 0 <= k < |cs| :: cs[k] == r.value && Bit(m, cs[k]) && forall j | 0 <= j < k :: !Bit(m, cs[j])
  {
    if cs == [] then None
    else if Bit(m, cs[0]) then Some(cs[0])
    else
      var r := FirstIn(m, cs[1..]);
      assert forall k | 0 <= k < |cs[1..]| :: cs[1..][k] == cs[k + 1];
      r
  }

  /**
   * `rollout_policy`: the first corner the player to move can take, else
   * the move of `valid_moves` that the draw `k` selects; `None` for a pass.
   */
  function Policy(g: Rules, s: State, k: nat): (r: Option<Action>)
    ensures r.None? <==> g.moves(s.board, s.player) == 0
    ensures r.Some? ==> Allowed(g, s, r)
    ensures FirstIn(g.moves(s.board, s.player), Corners).Some? ==> r.Some? && r.value.at == FirstIn(g.moves(s.board, s.player), Corners).value
  {
    var m := g.moves(s.board, s.player);
    match FirstIn(m, Corners)
    case Some(c) => Some(Action(c, g.play(s.board, s.player, c)))
    case None =>
      ChooseAllowed(g, s, k);
      Choose(Legal(g, s.board, s.player), k)
  }

  /** A drawn move is a legal one, and there is none exactly when the player has to pass. */
  lemma ChooseAllowed(g: Rules, s: State, k: nat)
    ensures var r := Choose(Legal(g, s.board, s.player), k);
      (r.None? <==> g.moves(s.board, s.player) == 0) && (r.Some? ==> Allowed(g, s, r))
  {
    LegalEmpty(g, s.board, s.player);
    LegalMembers(g, s.board, s.player);
  }

  /**
   * The board the `rollout` loop ends on from state `s` when `draw(n)` is the
   * draw of turn `n`: play on, passing when there is no move, until two
   * passes in a row. `passed` says the turn before was a pass.
   */
  function Playout(g: Rules, s: State, passed: bool, draw: nat -> nat): Board
    requires Sound(g) && s.board.Disjoint()
    decreases Pop(s.board.Empty()), if passed then 0 else 1
  {
    match Policy(g, s, draw(s.nSteps))
    case Some(a) => Playout(g, Step(s, Some(a)), false, draw)
    case None => if passed then s.board else Playout(g, Step(s, None), true, draw)
  }

  /** A rollout ends on a final board: neither player has a move. */
  lemma {:induction false} PlayoutEnds(g: Rules, s: State, passed: bool, draw: nat -> nat)
    requires Sound(g) && s.board.Disjoint()
    requires passed ==> g.moves(s.board, s.player.Opponent()) == 0
    ensures Terminal(g, Playout(g, s, passed, draw))
    ensures Playout(g, s, passed, draw).Disjoint()
    decreases Pop(s.board.Empty()), if passed then 0 else 1
  {
    match Policy(g, s, draw(s.nSteps))
    case Some(a) => PlayoutEnds(g, Step(s, Some(a)), false, draw);
    case None =>
      if !passed {
        assert Step(s, None).player.Opponent() == s.player;
        PlayoutEnds(g, Step(s, None), true, draw);
      }
  }

  /** `i32::signum`. */
  function Sign(x: int): (r: int)
    ensures -1 <= r <= 1 && (r == 1 <==> x > 0) && (r == -1 <==> x < 0)
  {
    if x > 0 then 1 else if x < 0 then -1 else 0
  }

  /** The result of a rollout for `p`: 1 if `p` has more discs on `b`, -1 if fewer, 0 for a draw. */
  function Outcome(b: Board, p: Player): (r: int)
    ensures -1 <= r <= 1
    ensures r == 1 <==> b.Count(p) > b.Count(p.Opponent())
    ensures r == -1 <==> b.Count(p) < b.Count(p.Opponent())
  {
    Sign(b.Count(p) - b.Count(p.Opponent()))
  }

  /** Seen by the other player a result changes sign. */
  lemma OutcomeSwap(b: Board, p: Player)
    ensures Outcome(b, p.Opponent()) == -Outcome(b, p)
  {
    assert p.Opponent().Opponent() == p;
  }

  /** `rollout_policy`. */
  method RolloutPolicy(g: Rules, s: State, k: nat) returns (r: Option<Action>)
    ensures r == Policy(g, s, k)
  {
    var mask := g.moves(s.board, s.player);
    for j := 0 to |Corners|
      invariant FirstIn(mask, Corners) == FirstIn(mask, Corners[j..])
    {
      var c := Corners[j];
      if Bit(mask, c) {
        FirstInHit(mask, Corners, j);
        return Some(Action(c, g.play(s.board, s.player, c)));
      }
      FirstInMiss(mask, Corners, j);
    }
    assert Corners[|Corners|..] == [];
    r := Choose(Legal(g, s.board, s.player), k);
  }

  lemma FirstInHit(m: bv64, cs: seq<Sq>, j: nat)
    requires j < |cs| && Bit(m, cs[j])
    ensures FirstIn(m, cs[j..]) == Some(cs[j])
  {}

  lemma FirstInMiss(m: bv64, cs: seq<Sq>, j: nat)
    requires j < |cs| && !Bit(m, cs[j])
    ensures FirstIn(m, cs[j..]) == FirstIn(m, cs[j + 1..])
  {
    assert cs[j..][1..] == cs[j + 1..];
  }

  /** A move of the policy is taken and play goes on with the other player. */
  lemma PlayoutMove(g: Rules, s: State, passed: bool, draw: nat -> nat, a: Action)
    requires Sound(g) && s.board.Disjoint() && Policy(g, s, draw(s.nSteps)) == Some(a)
    ensures Step(s, Some(a)).board.Disjoint() && Pop(Step(s, Some(a)).board.Empty()) < Pop(s.board.Empty())
    ensures Playout(g, s, passed, draw) == Playout(g, Step(s, Some(a)), false, draw)
  {}

  /** A first pass hands the turn over on the same board. */
  lemma PlayoutPass(g: Rules, s: State, draw: nat -> nat)
    requires Sound(g) && s.board.Disjoint() && Policy(g, s, draw(s.nSteps)).None?
    ensures Playout(g, s, false, draw) == Playout(g, Step(s, None), true, draw)
  {}

  /** A second pass in a row ends the rollout. */
  lemma PlayoutStop(g: Rules, s: State, draw: nat -> nat)
    requires Sound(g) && s.board.Disjoint() && Policy(g, s, draw(s.nSteps)).None?
    ensures Playout(g, s, true, draw) == s.board
  {}

  /** `rollout` from state `s`, with `draw(n)` the draw of `choose` on turn `n`. */
  method Rollout(g: Rules, s: State, draw: nat -> nat) returns (r: int)
    requires Sound(g) && s.board.Disjoint()
    ensures r == Outcome(Playout(g, s, false, draw), s.player)
  {
    var current := s;
    var passed := false;
    while true
      invariant current.board.Disjoint()
      invariant Playout(g, current, passed, draw) == Playout(g, s, false, draw)
      decreases Pop(current.board.Empty()), if passed then 0 else 1
    {
      var action := RolloutPolicy(g, current, draw(current.nSteps));
      if action.Some? {
        PlayoutMove(g, current, passed, draw, action.value);
        passed := false;
        current := Step(current, action);
      } else {
        if passed {
          PlayoutStop(g, current, draw);
          break;
        }
        PlayoutPass(g, current, draw);
        passed := true;
        current := Step(current, None);
      }
    }
    var board := current.board;
    var diff := board.Count(s.player) as int - board.Count(s.player.Opponent()) as int;
    r := Sign(diff);
  }

  // ------------------------------------------------------------ list helpers

  /** `has_been_expanded_on`: the first of `kids` reached by `action`. */
  function FindChild(ns: seq<Node>, kids: seq<nat>, action: Option<Action>): (r: Option<nat>)
    requires forall c | c in kids :: c < |ns|
    ensures r.Some? ==> r.value in kids && ns[r.value].cause == action
    ensures r.None? ==> forall c | c in kids :: ns[c].cause != action
  {
    if kids == [] then None
    else
      assert kids[0] in kids;
      if ns[kids[0]].cause == action then Some(kids[0])
      else
        assert forall c | c in kids[1..] :: c in kids;
        var r := FindChild(ns, kids[1..], action);
        assert kids == [kids[0]] + kids[1..];
        r
  }

  /** `iter().position(|x| x.at == at)`: the first index of a move to `at`. */
  function Position(l: seq<Action>, at: Sq): (r: Option<nat>)
    ensures r.Some? ==> r.value < |l| && l[r.value].at == at && forall j | 0 <= j < r.value :: l[j].at != at
    ensures r.None? ==> forall j | 0 <= j < |l| :: l[j].at != at
  {
    if l == [] then None
    else if l[0].at == at then Some(0)
    else match Position(l[1..], at)
      case Some(k) => Some(k + 1)
      case None => None
  }

  /** `Vec::swap_remove(k)`: the last element takes the place of the `k`-th, which leaves. */
  function SwapRemove<T>(l: seq<T>, k: nat): (r: seq<T>)
    requires k < |l|
    ensures |r| == |l| - 1
    ensures multiset(r) + multiset{l[k]} == multiset(l)
  {
    SwapRemoveCount(l, k);
    l[k := l[|l| - 1]][..|l| - 1]
  }

  lemma SwapRemoveCount<T>(l: seq<T>, k: nat)
    requires k < |l|
    ensures multiset(l[k := l[|l| - 1]][..|l| - 1]) + multiset{l[k]} == multiset(l)
  {
    var n := |l| - 1;
    if k == n {
      assert l == l[..n] + [l[n]];
    } else {
      assert l == l[..k] + [l[k]] + l[k + 1..n] + [l[n]];
      assert l[k := l[n]][..n] == l[..k] + [l[n]] + l[k + 1..n];
    }
  }

  /** What is left after `swap_remove` was in the list. */
  lemma SwapRemoveWithin<T>(l: seq<T>, k: nat)
    requires k < |l|
    ensures forall a | a in SwapRemove(l, k) :: a in l
  {
    forall a | a in SwapRemove(l, k) ensures a in l {
      assert a in multiset(SwapRemove(l, k));
    }
  }

  /** The squares of an increasing list that are in a mask stay increasing. */
  lemma {:induction false} SquaresInIncreasing(m: bv64, s: seq<Sq>)
    requires Moves.Increasing(s)
    ensures Moves.Increasing(Moves.SquaresIn(m, s))
  {
    if s != [] {
      Moves.IncreasingTail(s);
      SquaresInIncreasing(m, s[1..]);
      if Bit(m, s[0]) {
        TailAbove(m, s);
        Moves.ConsIncreasing(s[0], Moves.SquaresIn(m, s[1..]));
      }
    }
  }

  lemma TailAbove(m: bv64, s: seq<Sq>)
    requires Moves.Increasing(s) && s != []
    ensures forall j | j in Moves.SquaresIn(m, s[1..]) :: s[0] < j
  {
    SquaresInWithin(m, s[1..]);
    Moves.IncreasingTail(s);
    forall j | j in Moves.SquaresIn(m, s[1..]) ensures s[0] < j {
      var k :| 0 <= k < |s[1..]| && s[1..][k] == j;
    }
  }

  lemma {:induction false} SquaresInWithin(m: bv64, s: seq<Sq>)
    ensures forall j | j in Moves.SquaresIn(m, s) :: j in s
  {
    if s != [] {
      SquaresInWithin(m, s[1..]);
      assert forall j | j in s[1..] :: j in s;
    }
  }

  /**
   * A new node's untried actions end with its highest legal square, so the
   * first `expand` of a node (`Vec::pop`) tries the highest square.
   */
  lemma PopsHighest(g: Rules, s: State)
    requires Untried(g, s).Some?
    ensures var l := Untried(g, s).value; forall a | a in l :: a.at <= l[|l| - 1].at
  {
    var l := Untried(g, s).value;
    var m := g.moves(s.board, s.player);
    var sq := Moves.SquaresIn(m, Moves.Ascending);
    UntriedIsLegal(g, s);
    Moves.AscendingShape();
    SquaresInIncreasing(m, Moves.Ascending);
    PlaysSquares(g, s.board, s.player, sq, l);
    LastHighest(l, sq);
  }

  lemma PlaysSquares(g: Rules, b: Board, p: Player, sq: seq<Sq>, l: seq<Action>)
    requires l == Plays(g, b, p, sq)
    ensures |l| == |sq| && forall k | 0 <= k < |sq| :: l[k].at == sq[k]
  {}

  lemma UntriedIsLegal(g: Rules, s: State)
    requires Untried(g, s).Some?
    ensures Untried(g, s).value == Plays(g, s.board, s.player, Moves.SquaresIn(g.moves(s.board, s.player), Moves.Ascending))
  {}

  lemma LastHighest(l: seq<Action>, sq: seq<Sq>)
    requires |l| == |sq| && l != [] && Moves.Increasing(sq)
    requires forall k | 0 <= k < |sq| :: l[k].at == sq[k]
    ensures forall a | a in l :: a.at <= l[|l| - 1].at
  {
    forall a | a in l ensures a.at <= l[|l| - 1].at {
      var k :| 0 <= k < |l| && l[k] == a;
      assert a.at == sq[k];
    }
  }

  /** Backpropagation keeps the shape of the arena. */
  lemma BackedExtends(g: Rules, ns: seq<Node>, u: nat, r: int)
    requires Structured(g, ns) && u < |ns|
    ensures Extends(ns, Backed(ns, u, r))
  {
    StructuredAlternates(g, ns);
    forall i | 0 <= i < |ns| ensures Kept(ns[i], Backed(ns, u, r)[i]) {
      BackedAt(ns, u, r, i);
    }
  }

  /** The arena of a new tree keeps the invariant. */
  lemma RootWellFormed(g: Rules, b: Board, p: Player)
    requires b.Disjoint()
    ensures WellFormed(g, [Root(g, b, p)])
  {
    assert Owns([Root(g, b, p)], 0);
  }

  // --------------------------------------------------------------- the tree

  /** A choice of a child of node `v`: UCT in `tree_policy`, `best_child` in `best_action`. */
  type Selector = (seq<Node>, nat) -> nat

  /** The choice is always one of the children when there are any. */
  ghost predicate Picks(select: Selector) {
    forall ns: seq<Node>, v: nat | v < |ns| && ns[v].children != [] :: select(ns, v) in ns[v].children
  }

  /** The two panics of `force_expand_on_action`. */
  datatype Panic = NotUntried | PassMismatch

  /** The child's action is the one asked for: a pass for a pass, a move to the same square for a move. */
  predicate Matches(cause: Option<Action>, action: Option<Action>) {
    cause.None? == action.None? && (action.Some? ==> cause.value.at == action.value.at)
  }

  /** `MCTS` over the operations `g`; node 0 is `root`. */
  class Tree {
    const g: Rules
    var nodes: seq<Node>

    ghost predicate Valid()
      reads this
    {
      Sound(g) && WellFormed(g, nodes)
    }

    /** `MCTS::new(board, p)`. */
    constructor (g: Rules, b: Board, p: Player)
      requires Sound(g) && b.Disjoint()
      ensures Valid() && this.g == g && nodes == [Root(g, b, p)]
    {
      this.g := g;
      nodes := [Root(g, b, p)];
      RootWellFormed(g, b, p);
    }

    /** `expand_impl(v, cause)`: a node for the state `cause` leads to, added as `v`'s last child. */
    method ExpandImpl(v: nat, cause: Option<Action>) returns (c: nat)
      requires Sound(g) && Structured(g, nodes) && v < |nodes|
      requires forall i | 0 <= i < |nodes| && i != v :: Live(nodes[i])
      requires cause.None? == nodes[v].untried.None? && Allowed(g, nodes[v].state, cause)
      modifies this
      ensures Valid() && c == old(|nodes|) && nodes == Appended(g, old(nodes), v, cause)
    {
      var n := nodes[v];
      var newState := State(if cause.Some? then cause.value.board else n.state.board, n.state.nSteps + 1, n.state.player.Opponent());
      assert newState == Step(n.state, cause);
      var child := Fresh(g, newState, v, cause);
      ghost var grown := Appended(g, nodes, v, cause);
      assert grown == nodes[v := n.(children := n.children + [|nodes|])] + [child];
      AppendedWellFormed(g, nodes, v, cause);
      c := |nodes|;
      nodes := nodes[v := n.(children := n.children + [c])] + [child];
      assert nodes == grown;
    }

    /**
     * `expand(v)`: the last untried action is taken off and expanded; a node
     * with none left is fully expanded; a node that must pass gets its one pass
     * child.
     */
    method Expand(v: nat) returns (c: Option<nat>)
      requires Valid() && v < |nodes|
      modifies this
      ensures Valid() && Grows(old(nodes), nodes) && Expanded(g, old(nodes), nodes, v, c)
      ensures c.None? ==> nodes[v].children != []
      ensures c.Some? ==> c.value == old(|nodes|) && c.value < |nodes| && nodes[c.value].parent == Some(v)
    {
      match nodes[v].untried
      case Some(l) =>
        if l != [] {
          var action := l[|l| - 1];
          assert action in l && forall a | a in l[..|l| - 1] :: a in l;
          TakeStep(g, nodes, v, l, l[..|l| - 1], action);
          nodes := nodes[v := nodes[v].(untried := Some(l[..|l| - 1]))];
          ghost var mid := nodes;
          var child := ExpandImpl(v, Some(action));
          AppendedGrows(g, mid, v, Some(action));
          AppendedAt(g, mid, v, Some(action), |mid|);
          return Some(child);
        }
        assert Live(nodes[v]);
        return None;
      case None =>
        if nodes[v].children != [] {
          return None;
        }
        assert Grounded(g, nodes[v]);
        AppendedGrows(g, nodes, v, None);
        AppendedAt(g, nodes, v, None, |nodes|);
        var child := ExpandImpl(v, None);
        return Some(child);
    }

    /** Taking an untried action out (`Vec::pop`, `swap_remove`) keeps what `expand_impl` needs. */
    static lemma TakeStep(g: Rules, ns: seq<Node>, v: nat, l: seq<Action>, rest: seq<Action>, taken: Action)
      requires WellFormed(g, ns) && v < |ns| && ns[v].untried == Some(l)
      requires taken in l && forall a | a in rest :: a in l
      ensures Structured(g, Retried(ns, v, Some(rest)))
      ensures forall i | 0 <= i < |ns| && i != v :: Live(Retried(ns, v, Some(rest))[i])
      ensures Allowed(g, ns[v].state, Some(taken))
      ensures Grows(ns, Appended(g, Retried(ns, v, Some(rest)), v, Some(taken)))
    {
      assert Grounded(g, ns[v]);
      RetriedStructured(g, ns, v, Some(rest));
      var mid := Retried(ns, v, Some(rest));
      RetriedGrows(ns, v, Some(rest));
      AppendedGrows(g, mid, v, Some(taken));
      GrowsTrans(ns, mid, Appended(g, mid, v, Some(taken)));
    }

    /**
     * `force_expand_on_action(v, action)`: the child `action` already led to,
     * or else a new child for it: the pass child of a node that must pass, or
     * the first untried move to the same square, taken out by `swap_remove`.
     * The new state is `Forced`.
     */
    method ForceExpandOnAction(v: nat, action: Option<Action>) returns (r: Result<nat, Panic>)
      requires Valid() && v < |nodes|
      modifies this
      ensures Valid() && Grows(old(nodes), nodes)
      ensures (r, nodes) == Forced(g, old(nodes), v, action)
    {
      assert Owns(nodes, v);
      OwnsBound(nodes, v);
      var existing := FindChild(nodes, nodes[v].children, action);
      if existing.Some? {
        r := Ok(existing.value);
      } else if nodes[v].untried.None? && action.None? {
        assert Grounded(g, nodes[v]);
        AppendedGrows(g, nodes, v, None);
        var c := ExpandImpl(v, None);
        r := Ok(c);
      } else if nodes[v].untried.Some? && action.Some? {
        var untried := nodes[v].untried.value;
        var index := Position(untried, action.value.at);
        if index.Some? {
          var removed := untried[index.value];
          var rest := SwapRemove(untried, index.value);
          SwapRemoveWithin(untried, index.value);
          TakeStep(g, nodes, v, untried, rest, removed);
          nodes := nodes[v := nodes[v].(untried := Some(rest))];
          ghost var mid := nodes;
          var c := ExpandImpl(v, Some(removed));
          AppendedGrows(g, mid, v, Some(removed));
          r := Ok(c);
        } else {
          r := Err(NotUntried);
        }
      } else {
        r := Err(PassMismatch);
      }
    }

    /**
     * `backpropagate(v, result)`: from `v` up to the root, each node gains a
     * visit and the result, whose sign changes at every step.
     */
    method Backpropagate(v: nat, result: int)
      requires Valid() && v < |nodes|
      modifies this
      ensures Valid() && nodes == Backed(old(nodes), v, result)
    {
      ghost var target := Backed(nodes, v, result);
      BackedWellFormed(g, nodes, v, result);
      ghost var ns0 := nodes;
      assert Structured(g, ns0);
      var ns := nodes;
      assert SameParents(ns, ns0);
      var u: nat := v;
      var r := result;
      while true
        invariant u < |ns| && SameParents(ns, ns0)
        invariant Backed(ns, u, r) == target
        decreases u
      {
        var x := ns[u];
        BumpedParents(ns, ns0, u, r);
        ghost var before := ns;
        ns := ns[u := Bumped(x, r)];
        r := -r;
        match x.parent
        case None =>
          BackedStop(before, u, -r);
          break;
        case Some(parent) =>
          assert u != 0;
          assert Linked(g, ns0, u);
          BackedStep(before, u, -r, parent);
          u := parent;
      }
      nodes := ns;
      assert nodes == target;
    }

    /**
     * `tree_policy(start)`: walk down from `start` by the UCT choice `uct`
     * until a terminal node, or until `expand` makes a new node.
     */
    method TreePolicy(start: nat, uct: Selector) returns (leaf: nat)
      requires Valid() && start < |nodes| && Picks(uct)
      modifies this
      ensures Valid() && Grows(old(nodes), nodes) && |nodes| <= old(|nodes|) + 1
      ensures leaf < |nodes| && Above(nodes, start, leaf)
      ensures leaf == old(|nodes|) || Terminal(g, nodes[leaf].state.board)
      ensures Terminal(g, old(nodes)[start].state.board) ==> leaf == start && nodes == old(nodes)
      ensures !Terminal(g, old(nodes)[start].state.board) ==> nodes[start].children != []
    {
      var current := start;
      while true
        invariant Valid() && nodes == old(nodes) && current < |nodes| && Above(nodes, start, current)
        invariant current == start || (nodes[start].children != [] && !Terminal(g, nodes[start].state.board))
        decreases |nodes| - current
      {
        if Terminal(g, nodes[current].state.board) {
          return current;
        }
        ghost var before := nodes;
        var node := Expand(current);
        if node.Some? {
          NewLeaf(before, nodes, start, current, node.value);
          return node.value;
        }
        var child := uct(nodes, current);
        assert Owns(nodes, current);
        ChildBelow(nodes, start, current, child);
        current := child;
      }
    }

    /** One pass of the loop of `best_action`: select a node, play out from it, backpropagate. */
    method Simulate(start: nat, uct: Selector, draw: nat -> nat)
      requires Valid() && start < |nodes| && Picks(uct)
      modifies this
      ensures Valid() && Extends(old(nodes), nodes)
      ensures VisitedBy(old(nodes), nodes, start, 1)
      ensures !Terminal(g, old(nodes)[start].state.board) ==> nodes[start].children != []
    {
      ghost var before := nodes;
      var v := TreePolicy(start, uct);
      assert Grounded(g, nodes[v]);
      var reward := Rollout(g, nodes[v].state, draw);
      ghost var mid := nodes;
      BackedExtends(g, nodes, v, reward);
      Backpropagate(v, reward);
      ExtendsTrans(before, mid, nodes);
      Visited(g, before, mid, start, v, reward);
    }

    /**
     * `best_action(start, n)`: `n` simulations, then the child `best` picks,
     * `None` when `start` has no child.
     */
    method BestAction(start: nat, n: nat, uct: Selector, best: Selector, draw: (nat, nat) -> nat) returns (r: Option<nat>)
      requires Valid() && start < |nodes| && Picks(uct) && Picks(best)
      modifies this
      ensures Valid() && Extends(old(nodes), nodes)
      ensures VisitedBy(old(nodes), nodes, start, n)
      ensures r.None? <==> nodes[start].children == []
      ensures r.Some? ==> r.value in nodes[start].children
      ensures n > 0 && !Terminal(g, old(nodes)[start].state.board) ==> r.Some?
    {
      VisitedNone(nodes, start);
      for i := 0 to n
        invariant Valid() && Extends(old(nodes), nodes)
        invariant VisitedBy(old(nodes), nodes, start, i)
        invariant i > 0 && !Terminal(g, old(nodes)[start].state.board) ==> nodes[start].children != []
      {
        ghost var before := nodes;
        Simulate(start, uct, (k: nat) => draw(i, k));
        ExtendsTrans(old(nodes), before, nodes);
        Revisited(old(nodes), before, nodes, start, i);
      }
      if nodes[start].children == [] {
        r := None;
      } else {
        r := Some(best(nodes, start));
      }
    }
  }

  /**
   * The arena and result of `expand(v)`: the last untried action is taken
   * off and expanded; a node with none left is fully expanded (`None`); a
   * node that must pass gets its pass child, unless it has it already.
   */
  predicate Expanded(g: Rules, ns: seq<Node>, ns': seq<Node>, v: nat, c: Option<nat>)
    requires v < |ns|
  {
    match ns[v].untried
    case Some(l) =>
      if l == [] then c.None? && ns' == ns
      else c == Some(|ns|) && ns' == Appended(g, Retried(ns, v, Some(l[..|l| - 1])), v, Some(l[|l| - 1]))
    case None =>
      if ns[v].children != [] then c.None? && ns' == ns
      else c == Some(|ns|) && ns' == Appended(g, ns, v, None)
  }

  /** The children of node `v` are nodes of the arena. */
  lemma OwnsBound(ns: seq<Node>, v: nat)
    requires v < |ns| && Owns(ns, v)
    ensures forall c | c in ns[v].children :: c < |ns|
  {}

  /**
   * The arena and result of `force_expand_on_action(v, action)`; a panic
   * leaves the arena as it was.
   */
  function Forced(g: Rules, ns: seq<Node>, v: nat, action: Option<Action>): (Result<nat, Panic>, seq<Node>)
    requires v < |ns| && Owns(ns, v)
  {
    OwnsBound(ns, v);
    match FindChild(ns, ns[v].children, action)
    case Some(c) => (Ok(c), ns)
    case None =>
      match (ns[v].untried, action)
      case (None, None) => (Ok(|ns|), Appended(g, ns, v, None))
      case (Some(l), Some(a)) =>
        (match Position(l, a.at)
         case Some(k) => (Ok(|ns|), Appended(g, Retried(ns, v, Some(SwapRemove(l, k))), v, Some(l[k])))
         case None => (Err(NotUntried), ns))
      case _ => (Err(PassMismatch), ns)
  }

  /**
   * What `force_expand_on_action` promises: the node it returns is a child of
   * `v` reached by the action asked for; it panics with `PassMismatch`
   * exactly when a pass is asked of a player with a move or a move of a
   * player without one, and with `NotUntried` exactly when no untried action
   * and no child moves to that square.
   */
  lemma ForcedChild(g: Rules, ns: seq<Node>, v: nat, action: Option<Action>)
    requires WellFormed(g, ns) && v < |ns|
    ensures Owns(ns, v)
    ensures var (r, ns') := Forced(g, ns, v, action);
      (r.Ok? ==> r.value < |ns'| && r.value in ns'[v].children && ns'[r.value].parent == Some(v) && Matches(ns'[r.value].cause, action))
      && (r.Err? ==> ns' == ns)
      && (r == Err(PassMismatch) <==>
            FindChild(ns, ns[v].children, action).None? && (action.None? <==> g.moves(ns[v].state.board, ns[v].state.player) != 0))
      && (r == Err(NotUntried) <==>
            FindChild(ns, ns[v].children, action).None? && action.Some? && g.moves(ns[v].state.board, ns[v].state.player) != 0
            && forall a | a in ns[v].untried.value :: a.at != action.value.at)
  {
    assert Owns(ns, v) && Grounded(g, ns[v]);
    OwnsBound(ns, v);
    var found := FindChild(ns, ns[v].children, action);
    if found.Some? {
      var k :| 0 <= k < |ns[v].children| && ns[v].children[k] == found.value;
    } else if ns[v].untried.Some? && action.Some? {
      var l := ns[v].untried.value;
      match Position(l, action.value.at)
      case Some(k) =>
        var mid := Retried(ns, v, Some(SwapRemove(l, k)));
        AppendedAt(g, mid, v, Some(l[k]), |ns|);
        AppendedAt(g, mid, v, Some(l[k]), v);
      case None =>
        forall a | a in l ensures a.at != action.value.at {
          var j :| 0 <= j < |l| && l[j] == a;
        }
    } else if ns[v].untried.None? && action.None? {
      AppendedAt(g, ns, v, None, |ns|);
      AppendedAt(g, ns, v, None, v);
    }
  }

  /** A node `expand` just made under `current` lies under `start`. */
  lemma NewLeaf(ns: seq<Node>, ns': seq<Node>, start: nat, current: nat, c: nat)
    requires Grows(ns, ns') && current < |ns| && c < |ns'| && current < c && ns'[c].parent == Some(current)
    requires start < |ns| && Above(ns, start, current)
    ensures Above(ns', start, c)
  {
    AboveExtends(ns, ns', start, current);
  }

  /** A child of a node under `start` is under `start`. */
  lemma ChildBelow(ns: seq<Node>, start: nat, current: nat, child: nat)
    requires current < |ns| && Owns(ns, current) && child in ns[current].children
    requires Above(ns, start, current)
    ensures current < child < |ns| && Above(ns, start, child)
  {
    var k :| 0 <= k < |ns[current].children| && ns[current].children[k] == child;
  }

  /** Each of `start` and its ancestors has `k` more visits in `ns'` than in `ns`. */
  predicate VisitedBy(ns: seq<Node>, ns': seq<Node>, start: nat, k: nat)
    requires start < |ns|
  {
    |ns| <= |ns'| && forall a | 0 <= a < |ns| && Above(ns, a, start) :: ns'[a].visits == ns[a].visits + k
  }

  /** Backpropagation from a leaf under `start` visits every ancestor of `start` once. */
  lemma Visited(g: Rules, ns: seq<Node>, mid: seq<Node>, start: nat, v: nat, r: int)
    requires Structured(g, mid) && Grows(ns, mid) && start < |ns| && v < |mid| && Above(mid, start, v)
    ensures VisitedBy(ns, Backed(mid, v, r), start, 1)
  {
    StructuredAlternates(g, mid);
    forall a | 0 <= a < |ns| && Above(ns, a, start) ensures Backed(mid, v, r)[a].visits == ns[a].visits + 1 {
      AboveExtends(ns, mid, a, start);
      AboveTrans(mid, a, start, v);
      BackedAt(mid, v, r, a);
    }
  }

  /** Counting the visits of the ancestors of `start` across one more simulation. */
  lemma Revisited(ns: seq<Node>, before: seq<Node>, after: seq<Node>, start: nat, i: nat)
    requires Extends(ns, before) && Extends(before, after) && start < |ns|
    requires VisitedBy(ns, before, start, i) && VisitedBy(before, after, start, 1)
    ensures VisitedBy(ns, after, start, i + 1)
  {
    forall a | 0 <= a < |ns| && Above(ns, a, start) ensures after[a].visits == ns[a].visits + i + 1 {
      AboveExtends(ns, before, a, start);
    }
  }

  /** No simulation yet: no visit. */
  lemma VisitedNone(ns: seq<Node>, start: nat)
    requires start < |ns|
    ensures VisitedBy(ns, ns, start, 0)
  {}

  // -------------------------------------------------------------- the agent

  /**
   * `MCTSAgent`: one tree for the whole game and a cursor on the node of the
   * current position, which follows the moves of both players.
   */
  class MctsAgent {
    const tree: Tree
    var cursor: nat
    const nSimulations: nat

    ghost predicate Valid()
      reads this, tree
    {
      tree.Valid() && cursor < |tree.nodes|
    }

    /** `MCTSAgent::new(n_simulations, c)`: the tree of the initial board with Black to move. */
    constructor (g: Rules, nSimulations: nat)
      requires Sound(g)
      ensures Valid() && fresh(tree) && tree.g == g && tree.nodes == [Root(g, Initial(), Black)]
      ensures cursor == 0 && this.nSimulations == nSimulations
    {
      tree := new Tree(g, Initial(), Black);
      cursor := 0;
      this.nSimulations := nSimulations;
    }

    /** `initialize`: the cursor goes back to the root; the tree is kept. */
    method Initialize()
      requires Valid()
      modifies this
      ensures Valid() && cursor == 0 && tree.nodes == old(tree.nodes)
    {
      cursor := 0;
    }

    /**
     * `opponent_move_callback(action)`: the cursor moves to the child for the
     * opponent's action, which `force_expand_on_action` makes if need be; its
     * panics leave everything as it was.
     */
    method OpponentMoveCallback(action: Option<Action>) returns (r: Result<(), Panic>)
      requires Valid()
      modifies this, tree
      ensures Valid() && Grows(old(tree.nodes), tree.nodes)
      ensures r.Ok? ==> cursor in tree.nodes[old(cursor)].children && Matches(tree.nodes[cursor].cause, action)
      ensures r.Err? ==> cursor == old(cursor) && tree.nodes == old(tree.nodes)
    {
      ForcedChild(tree.g, tree.nodes, cursor, action);
      var next := tree.ForceExpandOnAction(cursor, action);
      match next
      case Ok(c) =>
        cursor := c;
        r := Ok(());
      case Err(e) =>
        r := Err(e);
    }

    /**
     * `select_move(board, p)`: `n_simulations` simulations from the cursor,
     * then the cursor moves to the best child, whose action is played (`None`
     * for a pass, and when the cursor has no child).
     */
    method SelectMove(board: Board, p: Player, uct: Selector, best: Selector, draw: (nat, nat) -> nat) returns (a: Option<Action>)
      requires Valid() && Picks(uct) && Picks(best)
      requires tree.nodes[cursor].state.player == p && tree.nodes[cursor].state.board == board
      modifies this, tree
      ensures Valid() && Extends(old(tree.nodes), tree.nodes)
      ensures VisitedBy(old(tree.nodes), tree.nodes, old(cursor), nSimulations)
      ensures cursor == old(cursor) <==> tree.nodes[old(cursor)].children == []
      ensures cursor == old(cursor) ==> a.None?
      ensures cursor != old(cursor) ==> Played(tree.g, tree.nodes, old(cursor), cursor, p, a)
      ensures nSimulations > 0 && !Terminal(tree.g, board) ==> cursor != old(cursor)
    {
      var bestNode := tree.BestAction(cursor, nSimulations, uct, best, draw);
      match bestNode
      case None =>
        a := None;
      case Some(x) =>
        ChildPlayed(tree.g, old(tree.nodes), tree.nodes, cursor, x, p);
        a := tree.nodes[x].cause;
        cursor := x;
    }
  }

  /** Node `c` is a child of node `v`, with the other player to move, and `a` is the action that led to it. */
  predicate Played(g: Rules, ns: seq<Node>, v: nat, c: nat, p: Player, a: Option<Action>) {
    v < |ns| && c < |ns| && c in ns[v].children && ns[c].state.player == p.Opponent() && a == ns[c].cause
  }

  lemma ChildPlayed(g: Rules, ns: seq<Node>, ns': seq<Node>, v: nat, c: nat, p: Player)
    requires Extends(ns, ns') && Structured(g, ns') && v < |ns| && ns[v].state.player == p
    requires c in ns'[v].children
    ensures v < c < |ns'| && Played(g, ns', v, c, p, ns'[c].cause)
  {
    assert Kept(ns[v], ns'[v]) && Owns(ns', v);
    var k :| 0 <= k < |ns'[v].children| && ns'[v].children[k] == c;
    assert Linked(g, ns', c);
  }
}
