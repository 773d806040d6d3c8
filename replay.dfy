/**
 * `boards_from` of src/board.rs: a recorded game replayed from a starting
 * board. The source builds a lazy iterator with `successors`; here the whole
 * sequence it yields is a value, together with the panic (if any) that
 * stops it. `successors` computes the successor of an item before it hands
 * the item out, so the item on which the closure panics is never yielded. A
 * caller that takes only the first k items sees the first k yielded ones when
 * k is at most their number; when there are fewer, its k-th call ends the
 * iterator or panics.
 */
module Replays {
  import opened Wrappers
  import opened Bitboard
  import opened Game

  /** The last move of a turn: `Err(false)` (opening), `Err(true)` (a pass) or `Ok(pos)`. */
  datatype LastMove = Opening | Passed | Played(at: Sq)

  /** One item of the iterator: whose turn it is, the board, and how it was reached. */
  datatype Turn = Turn(player: Player, board: Board, last: LastMove)

  /**
   * The two `assert`s of the closure, as the reason the replay stopped, with
   * the item `on` that the closure was given when it panicked.
   */
  datatype Fault =
    | SurplusMoves(on: Turn)           // both players passed but positions remain
    | IllegalMove(at: Sq, on: Turn)    // the next position is not a legal move

  /** A sequence of items, then whether the closure panicked instead of ending. */
  datatype Replay = Replay(turns: seq<Turn>, fault: Option<Fault>)

  function Prepend(u: Turn, r: Replay): Replay {
    Replay([u] + r.turns, r.fault)
  }

  /**
   * The items the closure of `successors` returns after `t`, consuming `ps`
   * as it does; on a panic, the item it was given last is the fault's `on`.
   */
  function Follow(g: Rules, t: Turn, ps: seq<Sq>): Replay
    decreases Budget(t, ps)
  {
    var o := t.player.Opponent();
    var moves := g.moves(t.board, t.player);
    if moves == 0 then
      if t.last == Passed then
        (if ps == [] then Replay([], None) else Replay([], Some(SurplusMoves(t))))
      else
        var u := Turn(o, t.board, Passed);
        Prepend(u, Follow(g, u, ps))
    else if ps == [] then Replay([], None)
    else if !Bit(moves, ps[0]) then Replay([], Some(IllegalMove(ps[0], t)))
    else
      var u := Turn(o, g.play(t.board, t.player, ps[0]), Played(ps[0]));
      Prepend(u, Follow(g, u, ps[1..]))
  }

  /** The items yielded of those handed to the closure: all but a panicking last one. */
  function Yielded(t: Turn, f: Replay): Replay {
    var handed := [t] + f.turns;
    if f.fault.None? then Replay(handed, None) else Replay(handed[..|handed| - 1], f.fault)
  }

  /**
   * `boards_from(s0, positions)`: what the iterator yields. The closure is
   * handed black to move on `s0` and then each item it returns; every item
   * is yielded except the one on which the closure panics.
   */
  function BoardsFrom(s0: Board, ps: seq<Sq>): Replay {
    var t := Turn(Black, s0, Opening);
    Yielded(t, Follow(Engine, t, ps))
  }

  /** How `u` follows `t`: a pass when `t`'s player has no move, else a legal move played. */
  predicate Succeeds(g: Rules, t: Turn, u: Turn) {
    var moves := g.moves(t.board, t.player);
    u.player == t.player.Opponent()
    && match u.last
       case Opening => false
       case Passed => moves == 0 && t.last != Passed && u.board == t.board
       case Played(q) => Bit(moves, q) && u.board == g.play(t.board, t.player, q)
  }

  /** Each item of `us` follows the one before it, the first following `t`. */
  predicate Chain(g: Rules, t: Turn, us: seq<Turn>)
    decreases |us|
  {
    us == [] || (Succeeds(g, t, us[0]) && Chain(g, us[0], us[1..]))
  }

  /** The squares played in `us`, in order. */
  function PlayedIn(us: seq<Turn>): seq<Sq>
    decreases |us|
  {
    if us == [] then []
    else if us[0].last.Played? then [us[0].last.at] + PlayedIn(us[1..])
    else PlayedIn(us[1..])
  }

  /** The item the iterator ends on: `t` itself when nothing follows it. */
  function Final(t: Turn, us: seq<Turn>): Turn {
    if us == [] then t else us[|us| - 1]
  }

  lemma PrependPlayed(u: Turn, us: seq<Turn>)
    ensures PlayedIn([u] + us) == (if u.last.Played? then [u.last.at] else []) + PlayedIn(us)
  {
    assert ([u] + us)[1..] == us;
  }

  lemma PrependChain(g: Rules, t: Turn, u: Turn, us: seq<Turn>)
    requires Succeeds(g, t, u) && Chain(g, u, us)
    ensures Chain(g, t, [u] + us)
  {
    assert ([u] + us)[1..] == us;
  }

  lemma PrependFinal(t: Turn, u: Turn, us: seq<Turn>)
    ensures Final(t, [u] + us) == Final(u, us)
  {}

  /** The termination measure of `Follow`: a pass is allowed only after a move. */
  function Budget(t: Turn, ps: seq<Sq>): nat {
    2 * |ps| + (if t.last == Passed then 0 else 1)
  }

  /** A pass by the player of `t`. */
  function PassOf(t: Turn): Turn {
    Turn(t.player.Opponent(), t.board, Passed)
  }

  /** The player of `t` plays `q`. */
  function MoveOf(g: Rules, t: Turn, q: Sq): Turn {
    Turn(t.player.Opponent(), g.play(t.board, t.player, q), Played(q))
  }

  lemma FollowPass(g: Rules, t: Turn, ps: seq<Sq>)
    requires g.moves(t.board, t.player) == 0 && t.last != Passed
    ensures Follow(g, t, ps) == Prepend(PassOf(t), Follow(g, PassOf(t), ps))
  {}

  lemma FollowMove(g: Rules, t: Turn, ps: seq<Sq>)
    requires ps != [] && Bit(g.moves(t.board, t.player), ps[0])
    ensures Follow(g, t, ps) == Prepend(MoveOf(g, t, ps[0]), Follow(g, MoveOf(g, t, ps[0]), ps[1..]))
  {}

  lemma FollowStops(g: Rules, t: Turn, ps: seq<Sq>)
    requires !(g.moves(t.board, t.player) == 0 && t.last != Passed)
    requires !(ps != [] && Bit(g.moves(t.board, t.player), ps[0]))
    ensures Follow(g, t, ps).turns == []
    ensures Follow(g, t, ps).fault.None? ==> ps == []
  {}

  lemma PrefixCons(x: Sq, a: seq<Sq>, ps: seq<Sq>)
    requires ps != [] && ps[0] == x && a <= ps[1..]
    ensures [x] + a <= ps
  {
    assert ps == [x] + ps[1..];
  }

  /** The squares played, as a prefix of the positions; all of them without a panic. */
  predicate PlaysPrefix(r: Replay, ps: seq<Sq>) {
    PlayedIn(r.turns) <= ps && (r.fault.None? ==> PlayedIn(r.turns) == ps)
  }

  /**
   * The moves replayed are the first positions, in order; all of them when the
   * iterator ends without a panic.
   */
  lemma FollowPlayed(g: Rules, t: Turn, ps: seq<Sq>)
    ensures PlaysPrefix(Follow(g, t, ps), ps)
    decreases Budget(t, ps), 1
  {
    if g.moves(t.board, t.player) == 0 && t.last != Passed {
      FollowPlayedPass(g, t, ps);
    } else if ps != [] && Bit(g.moves(t.board, t.player), ps[0]) {
      FollowPlayedMove(g, t, ps);
    } else {
      FollowStops(g, t, ps);
    }
  }

  lemma FollowPlayedPass(g: Rules, t: Turn, ps: seq<Sq>)
    requires g.moves(t.board, t.player) == 0 && t.last != Passed
    ensures PlaysPrefix(Follow(g, t, ps), ps)
    decreases Budget(t, ps), 0
  {
    var u := PassOf(t);
    FollowPass(g, t, ps);
    FollowPlayed(g, u, ps);
    PrependPlayed(u, Follow(g, u, ps).turns);
  }

  lemma FollowPlayedMove(g: Rules, t: Turn, ps: seq<Sq>)
    requires ps != [] && Bit(g.moves(t.board, t.player), ps[0])
    ensures PlaysPrefix(Follow(g, t, ps), ps)
    decreases Budget(t, ps), 0
  {
    var u := MoveOf(g, t, ps[0]);
    FollowMove(g, t, ps);
    FollowPlayed(g, u, ps[1..]);
    PlaysPrefixCons(u, Follow(g, u, ps[1..]), ps);
  }

  /** A move played in front of a replay of the remaining positions. */
  lemma PlaysPrefixCons(u: Turn, rest: Replay, ps: seq<Sq>)
    requires ps != [] && u.last == Played(ps[0]) && PlaysPrefix(rest, ps[1..])
    ensures PlaysPrefix(Prepend(u, rest), ps)
  {
    PrependPlayed(u, rest.turns);
    PrefixCons(ps[0], PlayedIn(rest.turns), ps);
    assert ps == [ps[0]] + ps[1..];
  }

  /** Every item the closure yields is a pass or a legal move from the item before. */
  lemma FollowChain(g: Rules, t: Turn, ps: seq<Sq>)
    ensures Chain(g, t, Follow(g, t, ps).turns)
    decreases Budget(t, ps), 1
  {
    if g.moves(t.board, t.player) == 0 && t.last != Passed {
      var u := PassOf(t);
      FollowPass(g, t, ps);
      FollowChain(g, u, ps);
      PrependChain(g, t, u, Follow(g, u, ps).turns);
    } else if ps != [] && Bit(g.moves(t.board, t.player), ps[0]) {
      FollowChainMove(g, t, ps);
    } else {
      FollowStops(g, t, ps);
    }
  }

  lemma FollowChainMove(g: Rules, t: Turn, ps: seq<Sq>)
    requires ps != [] && Bit(g.moves(t.board, t.player), ps[0])
    ensures Chain(g, t, Follow(g, t, ps).turns)
    decreases Budget(t, ps), 0
  {
    var u := MoveOf(g, t, ps[0]);
    FollowMove(g, t, ps);
    FollowChain(g, u, ps[1..]);
    MoveSucceeds(g, t, ps[0]);
    PrependChain(g, t, u, Follow(g, u, ps[1..]).turns);
  }

  lemma MoveSucceeds(g: Rules, t: Turn, q: Sq)
    requires Bit(g.moves(t.board, t.player), q)
    ensures Succeeds(g, t, MoveOf(g, t, q))
  {}

  /**
   * Where the replay stops, as seen from the last item `f` the closure is
   * given, after `n` moves: it returns `None` on `f`, or it panics on `f`.
   */
  predicate Stops(g: Rules, r: Replay, ps: seq<Sq>, f: Turn, n: nat) {
    match r.fault
    case None =>
      n == |ps| && (g.moves(f.board, f.player) == 0 ==> f.last == Passed)
    case Some(SurplusMoves(u)) =>
      u == f && n < |ps| && g.moves(f.board, f.player) == 0 && f.last == Passed
    case Some(IllegalMove(q, u)) =>
      u == f && n < |ps| && ps[n] == q && g.moves(f.board, f.player) != 0 && !Bit(g.moves(f.board, f.player), q)
  }

  /**
   * How the closure stops. Without a panic: the positions ran out, or
   * both players have passed. `SurplusMoves`: both passed with positions left.
   * `IllegalMove(q, u)`: the next position `q` is not among the legal moves of `u`.
   */
  lemma FollowEnd(g: Rules, t: Turn, ps: seq<Sq>)
    ensures var r := Follow(g, t, ps); Stops(g, r, ps, Final(t, r.turns), |PlayedIn(r.turns)|)
    decreases Budget(t, ps), 1
  {
    if g.moves(t.board, t.player) == 0 && t.last != Passed {
      FollowEndPass(g, t, ps);
    } else if ps != [] && Bit(g.moves(t.board, t.player), ps[0]) {
      FollowEndMove(g, t, ps);
    } else {
      FollowStops(g, t, ps);
    }
  }

  lemma FollowEndPass(g: Rules, t: Turn, ps: seq<Sq>)
    requires g.moves(t.board, t.player) == 0 && t.last != Passed
    ensures var r := Follow(g, t, ps); Stops(g, r, ps, Final(t, r.turns), |PlayedIn(r.turns)|)
    decreases Budget(t, ps), 0
  {
    var u := PassOf(t);
    FollowPass(g, t, ps);
    FollowEnd(g, u, ps);
    var rest := Follow(g, u, ps);
    PrependPlayed(u, rest.turns);
    PrependFinal(t, u, rest.turns);
  }

  lemma FollowEndMove(g: Rules, t: Turn, ps: seq<Sq>)
    requires ps != [] && Bit(g.moves(t.board, t.player), ps[0])
    ensures var r := Follow(g, t, ps); Stops(g, r, ps, Final(t, r.turns), |PlayedIn(r.turns)|)
    decreases Budget(t, ps), 0
  {
    var u := MoveOf(g, t, ps[0]);
    FollowMove(g, t, ps);
    FollowEnd(g, u, ps[1..]);
    var rest := Follow(g, u, ps[1..]);
    PrependFinal(t, u, rest.turns);
    StopsCons(g, u, rest, ps, Final(u, rest.turns));
  }

  /** A move played in front of a replay of the remaining positions stops the same way. */
  lemma StopsCons(g: Rules, u: Turn, rest: Replay, ps: seq<Sq>, f: Turn)
    requires ps != [] && u.last == Played(ps[0]) && Stops(g, rest, ps[1..], f, |PlayedIn(rest.turns)|)
    ensures Stops(g, Prepend(u, rest), ps, f, |PlayedIn(Prepend(u, rest).turns)|)
  {
    PrependPlayed(u, rest.turns);
    var n := |PlayedIn(rest.turns)|;
    if rest.fault.Some? && rest.fault.value.IllegalMove? {
      assert ps[1..][n] == ps[n + 1];
    }
  }

  /** A prefix of a chain is a chain. */
  lemma {:induction false} ChainPrefix(g: Rules, t: Turn, us: seq<Turn>, k: nat)
    requires Chain(g, t, us) && k <= |us|
    ensures Chain(g, t, us[..k])
    decreases |us|
  {
    if k > 0 {
      ChainPrefix(g, us[0], us[1..], k - 1);
      assert us[..k][1..] == us[1..][..k - 1];
    }
  }

  /** The last item of a chain follows the one before it. */
  lemma {:induction false} ChainLast(g: Rules, t: Turn, us: seq<Turn>)
    requires Chain(g, t, us) && us != []
    ensures Succeeds(g, Final(t, us[..|us| - 1]), us[|us| - 1])
    decreases |us|
  {
    if |us| > 1 {
      ChainLast(g, us[0], us[1..]);
      assert us[1..][..|us| - 2] == us[1..|us| - 1];
      assert us[..|us| - 1] == [us[0]] + us[1..|us| - 1];
      PrependFinal(t, us[0], us[1..|us| - 1]);
    }
  }

  /** The moves played in a prefix are a prefix of the moves played. */
  lemma {:induction false} PlayedPrefix(us: seq<Turn>, k: nat)
    requires k <= |us|
    ensures PlayedIn(us[..k]) <= PlayedIn(us)
    decreases |us|
  {
    if k > 0 {
      PlayedPrefix(us[1..], k - 1);
      assert us[..k][1..] == us[1..][..k - 1];
      PrependPlayed(us[0], us[1..][..k - 1]);
      PrependPlayed(us[0], us[1..]);
      assert us[..k] == [us[0]] + us[1..][..k - 1];
      assert us == [us[0]] + us[1..];
    }
  }

  /**
   * `boards_from`: when anything is yielded, the first item is black to move
   * on the starting board and every later one is a pass or the next position
   * played. Without a panic something is yielded, and the played squares are
   * all the positions; with one, they are a prefix of them.
   */
  lemma BoardsFromShape(s0: Board, ps: seq<Sq>)
    ensures var r := BoardsFrom(s0, ps);
      (r.fault.None? ==> |r.turns| >= 1)
      && (|r.turns| >= 1 ==> r.turns[0] == Turn(Black, s0, Opening) && Chain(Engine, r.turns[0], r.turns[1..]))
      && PlayedIn(r.turns) <= ps
      && (r.fault.None? ==> PlayedIn(r.turns) == ps)
  {
    var t := Turn(Black, s0, Opening);
    var f := Follow(Engine, t, ps);
    var handed := [t] + f.turns;
    var r := BoardsFrom(s0, ps);
    FollowChain(Engine, t, ps);
    FollowPlayed(Engine, t, ps);
    PrependPlayed(t, f.turns);
    assert handed[1..] == f.turns;
    PlayedPrefix(handed, |r.turns|);
    assert r.turns == handed[..|r.turns|];
    if |r.turns| >= 1 {
      ChainPrefix(Engine, t, f.turns, |r.turns| - 1);
      assert r.turns[1..] == f.turns[..|r.turns| - 1];
    }
  }

  /** Without a panic, the closure stops on the last item yielded. */
  lemma YieldedEndNone(g: Rules, t: Turn, f: Replay, ps: seq<Sq>, r: Replay)
    requires t.last == Opening
    requires f.fault.None? && Stops(g, f, ps, Final(t, f.turns), |PlayedIn(f.turns)|)
    requires r == Yielded(t, f)
    ensures |r.turns| >= 1 && Stops(g, r, ps, r.turns[|r.turns| - 1], |PlayedIn(r.turns)|)
  {
    PrependPlayed(t, f.turns);
    assert r.turns == [t] + f.turns;
    assert Final(t, f.turns) == r.turns[|r.turns| - 1];
  }

  /** With a panic, the closure panics on the successor of the last item yielded. */
  lemma YieldedEndSome(g: Rules, t: Turn, f: Replay, ps: seq<Sq>, r: Replay)
    requires t.last == Opening
    requires f.fault.Some? && Chain(g, t, f.turns)
    requires Stops(g, f, ps, Final(t, f.turns), |PlayedIn(f.turns)|)
    requires r == Yielded(t, f)
    ensures var u := r.fault.value.on;
      (r.turns == [] ==> u == t)
      && (r.turns != [] ==> Succeeds(g, r.turns[|r.turns| - 1], u))
      && Stops(g, r, ps, u, |PlayedIn(r.turns + [u])|)
  {
    var handed := [t] + f.turns;
    assert Final(t, f.turns) == handed[|handed| - 1];
    assert r.turns + [handed[|handed| - 1]] == handed;
    PrependPlayed(t, f.turns);
    if f.turns != [] {
      ChainLast(g, t, f.turns);
      assert Final(t, f.turns[..|f.turns| - 1]) == r.turns[|r.turns| - 1];
    }
  }

  /**
   * How `boards_from` stops. Without a panic, as seen from the last item it
   * yields. With one, the closure panicked on an item `u` that is not
   * yielded: black to move on the starting board when nothing was yielded,
   * otherwise the successor of the last item yielded.
   */
  lemma BoardsFromEnd(s0: Board, ps: seq<Sq>)
    ensures var r := BoardsFrom(s0, ps);
      (r.fault.None? ==> |r.turns| >= 1 && Stops(Engine, r, ps, r.turns[|r.turns| - 1], |PlayedIn(r.turns)|))
      && (r.fault.Some? ==>
            var u := r.fault.value.on;
            (r.turns == [] ==> u == Turn(Black, s0, Opening))
            && (r.turns != [] ==> Succeeds(Engine, r.turns[|r.turns| - 1], u))
            && Stops(Engine, r, ps, u, |PlayedIn(r.turns + [u])|))
  {
    var t := Turn(Black, s0, Opening);
    var f := Follow(Engine, t, ps);
    var r := BoardsFrom(s0, ps);
    assert r == Yielded(t, f);
    FollowEnd(Engine, t, ps);
    if f.fault.None? {
      YieldedEndNone(Engine, t, f, ps, r);
    } else {
      FollowChain(Engine, t, ps);
      YieldedEndSome(Engine, t, f, ps, r);
    }
  }

  /** A first position that is not legal panics before anything is yielded. */
  lemma IllegalFirst(s0: Board, q: Sq, rest: seq<Sq>)
    requires Engine.moves(s0, Black) != 0 && !Bit(Engine.moves(s0, Black), q)
    ensures BoardsFrom(s0, [q] + rest) == Replay([], Some(IllegalMove(q, Turn(Black, s0, Opening))))
  {}
}
