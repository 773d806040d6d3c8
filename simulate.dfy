/**
 * src/simulate.rs: one game between two agents. Black moves first; the
 * players alternate; a move replaces the board, a pass does not; the game
 * ends at the second pass in a row, and the winner is the player with more
 * discs on the final board. An agent's answer may depend on everything it
 * has seen so far (its own state, its random draws), so an agent here is a
 * function of the calls made before it and of the position it is asked
 * about. The callback is modelled by the sequence of calls the method
 * returns.
 */
module Simulation {
  import opened Wrappers
  import opened Bitboard
  import opened Game

  /** One call of `call_back`: the board and player to move, and the agent's choice. */
  datatype Call = Call(board: Board, player: Player, choice: Option<Action>)

  /** `select_move`, answering from the calls made so far. */
  type Agent = (seq<Call>, Board, Player) -> Option<Action>

  /** An agent that only ever answers with a legal move and the board it makes (or passes). */
  ghost predicate Obeys(g: Rules, agent: Agent) {
    forall h: seq<Call>, b: Board, p: Player | agent(h, b, p).Some? ::
      Bit(g.moves(b, p), agent(h, b, p).value.at) && agent(h, b, p).value.board == g.play(b, p, agent(h, b, p).value.at)
  }

  /** An agent that passes only when it has no legal move. */
  ghost predicate Complete(g: Rules, agent: Agent) {
    forall h: seq<Call>, b: Board, p: Player | agent(h, b, p).None? :: g.moves(b, p) == 0
  }

  /** The `match p` that picks the agent to ask. */
  function Ask(black: Agent, white: Agent, h: seq<Call>, b: Board, p: Player): Option<Action> {
    match p
    case Black => black(h, b, p)
    case White => white(h, b, p)
  }

  /** The board after a call: the chosen move's, or the same one after a pass. */
  function After(c: Call): Board {
    match c.choice
    case Some(a) => a.board
    case None => c.board
  }

  /** The number of calls that were moves. */
  function Played(calls: seq<Call>): (n: nat)
    ensures n <= |calls|
  {
    if calls == [] then 0
    else Played(calls[..|calls| - 1]) + (if calls[|calls| - 1].choice.Some? then 1 else 0)
  }

  /** Each call continues from the previous one, with the other player. */
  predicate Linked(calls: seq<Call>) {
    forall k | 0 <= k < |calls| - 1 :: calls[k + 1].board == After(calls[k]) && calls[k + 1].player == calls[k].player.Opponent()
  }

  /** Each choice is what the player's agent answered, given the calls before it. */
  predicate Answered(black: Agent, white: Agent, calls: seq<Call>) {
    forall k | 0 <= k < |calls| :: calls[k].choice == Ask(black, white, calls[..k], calls[k].board, calls[k].player)
  }

  /** No two passes in a row. */
  predicate NoDoublePass(calls: seq<Call>) {
    forall k | 0 <= k < |calls| - 1 :: calls[k].choice.Some? || calls[k + 1].choice.Some?
  }

  /** The calls of a game still in progress, whose next call is on `b` with `p` to move. */
  predicate Partial(black: Agent, white: Agent, start: Board, calls: seq<Call>, b: Board, p: Player, passed: bool) {
    if calls == [] then b == start && p == Black && !passed
    else
      calls[0].board == start && calls[0].player == Black
      && Linked(calls) && Answered(black, white, calls) && NoDoublePass(calls)
      && b == After(calls[|calls| - 1]) && p == calls[|calls| - 1].player.Opponent()
      && passed == calls[|calls| - 1].choice.None?
  }

  /** The calls of a whole game from `start`: it stops at the first second pass in a row. */
  predicate Transcript(black: Agent, white: Agent, start: Board, calls: seq<Call>) {
    |calls| >= 2 && calls[0].board == start && calls[0].player == Black
    && Linked(calls) && Answered(black, white, calls) && NoDoublePass(calls[..|calls| - 1])
    && calls[|calls| - 2].choice.None? && calls[|calls| - 1].choice.None?
  }

  /** The `cmp` of the two disc counts. */
  function Winner(b: Board): Option<Player> {
    if b.Count(Black) > b.Count(White) then Some(Black)
    else if b.Count(Black) < b.Count(White) then Some(White)
    else None
  }

  /**
   * `simulate`: plays the game out and returns the winner (`None` for a
   * draw), the number of moves (`n_steps`, passes not counted) and the calls
   * of `call_back`. A game lasts no more moves than the start has empty
   * squares.
   */
  method Simulate(g: Rules, start: Board, black: Agent, white: Agent)
    returns (winner: Option<Player>, nSteps: nat, calls: seq<Call>)
    requires Sound(g) && Obeys(g, black) && Obeys(g, white) && start.Disjoint()
    ensures Transcript(black, white, start, calls)
    ensures nSteps == Played(calls) && nSteps <= Pop(start.Empty())
    ensures winner == Winner(calls[|calls| - 1].board)
  {
    var board := start;
    var p := Black;
    var passed := false;
    nSteps := 0;
    calls := [];
    while true
      invariant board.Disjoint()
      invariant Partial(black, white, start, calls, board, p, passed)
      invariant nSteps == Played(calls) && nSteps + Pop(board.Empty()) <= Pop(start.Empty())
      decreases 2 * Pop(board.Empty()) + (if passed then 0 else 1)
    {
      var after, next, nowPassed, over := Turn(g, start, black, white, calls, board, p, passed);
      calls := after;
      if over {
        break;
      }
      if !nowPassed {
        nSteps := nSteps + 1;
      }
      board, passed := next, nowPassed;
      p := p.Opponent();
    }
    winner := Winner(board);
  }

  /**
   * One pass of the loop body: ask the agent of `p`, report the call, and
   * either play the move, end the game at a second pass, or note the pass.
   */
  method Turn(g: Rules, start: Board, black: Agent, white: Agent, calls: seq<Call>, board: Board, p: Player, passed: bool)
    returns (after: seq<Call>, next: Board, nowPassed: bool, over: bool)
    requires Sound(g) && Obeys(g, black) && Obeys(g, white)
    requires board.Disjoint() && Partial(black, white, start, calls, board, p, passed)
    ensures over <==> passed && Ask(black, white, calls, board, p).None?
    ensures over ==> Transcript(black, white, start, after) && after[|after| - 1].board == board && Played(after) == Played(calls)
    ensures !over ==> next.Disjoint() && Partial(black, white, start, after, next, p.Opponent(), nowPassed)
    ensures !over && nowPassed ==> next == board && Played(after) == Played(calls) && !passed
    ensures !over && !nowPassed ==> Pop(next.Empty()) < Pop(board.Empty()) && Played(after) == Played(calls) + 1
  {
    var choice := Ask(black, white, calls, board, p);
    after := calls + [Call(board, p, choice)];
    next, nowPassed, over := board, true, false;
    if choice.Some? {
      AskFills(g, black, white, calls, board, p);
      MoveStep(black, white, start, calls, board, p, passed, choice.value);
      next, nowPassed := choice.value.board, false;
    } else if passed {
      EndStep(black, white, start, calls, board, p);
      over := true;
    } else {
      PassStep(black, white, start, calls, board, p);
    }
  }

  /** An obedient agent's move keeps the board without overlaps and fills a square. */
  lemma AskFills(g: Rules, black: Agent, white: Agent, h: seq<Call>, b: Board, p: Player)
    requires Sound(g) && Obeys(g, black) && Obeys(g, white) && b.Disjoint()
    ensures Ask(black, white, h, b, p).Some? ==>
      Ask(black, white, h, b, p).value.board.Disjoint() && Pop(Ask(black, white, h, b, p).value.board.Empty()) < Pop(b.Empty())
  {}

  /** A move continues the game from its board, with the other player, and counts as a step. */
  lemma MoveStep(black: Agent, white: Agent, start: Board, calls: seq<Call>, b: Board, p: Player, passed: bool, a: Action)
    requires Partial(black, white, start, calls, b, p, passed)
    requires Ask(black, white, calls, b, p) == Some(a)
    ensures Partial(black, white, start, calls + [Call(b, p, Some(a))], a.board, p.Opponent(), false)
    ensures Played(calls + [Call(b, p, Some(a))]) == Played(calls) + 1
  {
    var cs := calls + [Call(b, p, Some(a))];
    Appended(black, white, start, calls, b, p, passed, Some(a));
    assert cs[..|cs| - 1] == calls;
    forall k | 0 <= k < |cs| - 1
      ensures cs[k].choice.Some? || cs[k + 1].choice.Some?
    {
      if k < |calls| - 1 { assert cs[k] == calls[k] && cs[k + 1] == calls[k + 1]; }
    }
  }

  /** A first pass continues the game on the same board, with the other player. */
  lemma PassStep(black: Agent, white: Agent, start: Board, calls: seq<Call>, b: Board, p: Player)
    requires Partial(black, white, start, calls, b, p, false)
    requires Ask(black, white, calls, b, p) == None
    ensures Partial(black, white, start, calls + [Call(b, p, None)], b, p.Opponent(), true)
    ensures Played(calls + [Call(b, p, None)]) == Played(calls)
  {
    var cs := calls + [Call(b, p, None)];
    Appended(black, white, start, calls, b, p, false, None);
    assert cs[..|cs| - 1] == calls;
    if calls != [] {
      assert calls[|calls| - 1].choice.Some?;
      forall k | 0 <= k < |cs| - 1
        ensures cs[k].choice.Some? || cs[k + 1].choice.Some?
      {
        assert cs[k] == calls[k];
        if k < |calls| - 1 { assert cs[k + 1] == calls[k + 1]; }
      }
    }
  }

  /** A second pass in a row ends the game. */
  lemma EndStep(black: Agent, white: Agent, start: Board, calls: seq<Call>, b: Board, p: Player)
    requires Partial(black, white, start, calls, b, p, true)
    requires Ask(black, white, calls, b, p) == None
    ensures Transcript(black, white, start, calls + [Call(b, p, None)])
    ensures Played(calls + [Call(b, p, None)]) == Played(calls)
    ensures (calls + [Call(b, p, None)])[|calls|].board == b
  {
    var cs := calls + [Call(b, p, None)];
    Appended(black, white, start, calls, b, p, true, None);
    assert cs[..|cs| - 1] == calls;
  }

  /** The call appended to a game in progress starts, links and answers like the rest. */
  lemma Appended(black: Agent, white: Agent, start: Board, calls: seq<Call>, b: Board, p: Player, passed: bool, choice: Option<Action>)
    requires Partial(black, white, start, calls, b, p, passed)
    requires choice == Ask(black, white, calls, b, p)
    ensures var cs := calls + [Call(b, p, choice)];
      cs[0].board == start && cs[0].player == Black && Linked(cs) && Answered(black, white, cs)
  {
    var cs := calls + [Call(b, p, choice)];
    assert cs[..|calls|] == calls;
    forall k | 0 <= k < |cs|
      ensures cs[k].choice == Ask(black, white, cs[..k], cs[k].board, cs[k].player)
    {
      if k < |calls| {
        assert cs[..k] == calls[..k];
      }
    }
  }
}

module SimulationFacts {
  import opened Wrappers
  import opened Bitboard
  import opened Game
  import opened Simulation
  import Agents

  /** Black makes the even-numbered calls and White the odd-numbered ones. */
  lemma {:induction false} PlayerAt(calls: seq<Call>, k: nat)
    requires |calls| > 0 && calls[0].player == Black && Linked(calls) && k < |calls|
    ensures calls[k].player == if k % 2 == 0 then Black else White
  {
    if k > 0 {
      PlayerAt(calls, k - 1);
    }
  }

  /**
   * When neither agent passes while it has a move, the game stops exactly
   * on a final board: neither player has a legal move there.
   */
  lemma EndsFinal(g: Rules, black: Agent, white: Agent, start: Board, calls: seq<Call>)
    requires Complete(g, black) && Complete(g, white) && Transcript(black, white, start, calls)
    ensures g.moves(calls[|calls| - 1].board, Black) == 0 && g.moves(calls[|calls| - 1].board, White) == 0
  {
    var n := |calls|;
    assert calls[n - 1].board == calls[n - 2].board;
    assert calls[n - 1].player == calls[n - 2].player.Opponent();
  }

  /** With the operations of src/board.rs that board is `is_final`. */
  lemma EngineEndsFinal(black: Agent, white: Agent, start: Board, calls: seq<Call>)
    requires Complete(Engine, black) && Complete(Engine, white) && Transcript(black, white, start, calls)
    ensures IsFinal(calls[|calls| - 1].board)
  {
    EndsFinal(Engine, black, white, start, calls);
  }

  /** Swapping the colours of every disc swaps the winner. */
  lemma WinnerSwap(b: Board)
    ensures Winner(Board(b.white, b.black)) == match Winner(b) case Some(q) => Some(q.Opponent()) case None => None
  {}

  /** The random agent, drawing `draw(h)` after the calls `h`. */
  function RandomAgent(g: Rules, draw: seq<Call> -> nat): Agent {
    (h: seq<Call>, b: Board, p: Player) => Agents.RandomMove(g, b, p, draw(h))
  }

  /** It plays only legal moves and passes only when it must. */
  lemma RandomAgentObeys(g: Rules, draw: seq<Call> -> nat)
    ensures Obeys(g, RandomAgent(g, draw)) && Complete(g, RandomAgent(g, draw))
  {
    var agent := RandomAgent(g, draw);
    forall h: seq<Call>, b: Board, p: Player | agent(h, b, p).Some?
      ensures Bit(g.moves(b, p), agent(h, b, p).value.at) && agent(h, b, p).value.board == g.play(b, p, agent(h, b, p).value.at)
    {
      assert agent(h, b, p) == Agents.RandomMove(g, b, p, draw(h));
    }
    forall h: seq<Call>, b: Board, p: Player | agent(h, b, p).None?
      ensures g.moves(b, p) == 0
    {
      assert agent(h, b, p) == Agents.RandomMove(g, b, p, draw(h));
    }
  }
}
