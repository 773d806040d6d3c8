/**
 * The move lists of src/board.rs: `valid_moves` (the bit-parallel mask read
 * off lowest square first), `valid_moves_slow` (every empty square tried ray
 * by ray, in `Pos::iter` order) and `boards_from` (a game replayed from a
 * list of squares).
 */
module Moves {
  import opened Wrappers
  import opened Bitboard

  // ------------------------------------------------------------ square lists

  /** Squares `c`, `c + 1`, ..., 63. */
  function AscendingFrom(c: Sq): seq<Sq>
    decreases 63 - c
  {
    [c] + if c == 63 then [] else AscendingFrom(c + 1)
  }

  /** H8, G8, ..., A1: bit 0 up to bit 63, the order in which `valid_moves` reads the mask. */
  const Ascending: seq<Sq> := AscendingFrom(0)

  predicate Increasing(s: seq<Sq>) {
    forall k, l | 0 <= k < l < |s| :: s[k] < s[l]
  }

  lemma {:induction false} AscendingFromMembers(c: Sq)
    ensures forall j: Sq :: j in AscendingFrom(c) <==> c <= j
    decreases 63 - c
  {
    if c != 63 { AscendingFromMembers(c + 1); }
  }

  lemma {:induction false} AscendingFromOrder(c: Sq)
    ensures Increasing(AscendingFrom(c))
    decreases 63 - c
  {
    if c != 63 {
      AscendingFromOrder(c + 1);
      AscendingFromMembers(c + 1);
      ConsIncreasing(c, AscendingFrom(c + 1));
    }
  }

  lemma ConsIncreasing(c: Sq, r: seq<Sq>)
    requires Increasing(r) && forall j | j in r :: c < j
    ensures Increasing([c] + r)
  {
    var s := [c] + r;
    forall k, l | 0 <= k < l < |s|
      ensures s[k] < s[l]
    {
      assert s[l] == r[l - 1];
      if k == 0 { assert r[l - 1] in r; } else { assert s[k] == r[k - 1]; }
    }
  }

  lemma AscendingShape()
    ensures forall j: Sq :: j in Ascending
    ensures Increasing(Ascending)
  {
    AscendingFromMembers(0);
    AscendingFromOrder(0);
  }

  /** The squares of `s` that are in the disc set `m`, in the order of `s`. */
  function SquaresIn(m: bv64, s: seq<Sq>): (r: seq<Sq>)
  {
    if s == [] then []
    else if Bit(m, s[0]) then [s[0]] + SquaresIn(m, s[1..])
    else SquaresIn(m, s[1..])
  }

  lemma {:induction false} SquaresInMembers(m: bv64, s: seq<Sq>)
    ensures forall j :: j in SquaresIn(m, s) <==> j in s && Bit(m, j)
  {
    if s != [] {
      SquaresInMembers(m, s[1..]);
      assert s == [s[0]] + s[1..];
    }
  }

  lemma {:induction false} SquaresInNone(s: seq<Sq>)
    ensures SquaresIn(0, s) == []
  {
    if s != [] {
      SquaresInNone(s[1..]);
    }
  }

  /** The action of playing each square of `s` in turn from `b`. */
  function Actions(b: Board, p: Player, s: seq<Sq>): (r: seq<Action>)
    ensures |r| == |s|
    ensures forall k | 0 <= k < |s| :: r[k] == Action(s[k], PlaceAt(b, p, s[k]))
  {
    if s == [] then [] else [Action(s[0], PlaceAt(b, p, s[0]))] + Actions(b, p, s[1..])
  }

  // ------------------------------------------------------------ lowest bit

  /** The index of a one-square set: `trailing_zeros` of a power of two. */
  function TrailingZeros(l: bv64): (n: Sq)
    requires l != 0 && l & (l - 1) == 0
    ensures Single(n) == l
  {
    (if l & 0xffff_ffff_0000_0000 != 0 then 32 else 0)
    + (if l & 0xffff_0000_ffff_0000 != 0 then 16 else 0)
    + (if l & 0xff00_ff00_ff00_ff00 != 0 then 8 else 0)
    + (if l & 0xf0f0_f0f0_f0f0_f0f0 != 0 then 4 else 0)
    + (if l & 0xcccc_cccc_cccc_cccc != 0 then 2 else 0)
    + (if l & 0xaaaa_aaaa_aaaa_aaaa != 0 then 1 else 0)
  }

  /** `m & (!m + 1)` is a single square of `m`. */
  lemma LowestIsSingle(m: bv64)
    requires m != 0
    ensures var l := m & (!m + 1); l != 0 && l & (l - 1) == 0
  {}

  /** ... it is a square of `m` ... */
  lemma LowestIn(m: bv64, l: bv64, t: Sq)
    requires m != 0 && l == m & (!m + 1) && Single(t) == l
    ensures Bit(m, t)
  {}

  /** ... and no square of `m` lies below it. */
  lemma LowestBelow(m: bv64, l: bv64)
    requires m != 0 && l == m & (!m + 1)
    ensures m & (l - 1) == 0
  {}

  /** Removing it leaves a smaller number, which ends the `from_fn` loop. */
  lemma LowestLess(m: bv64, l: bv64)
    requires m != 0 && l == m & (!m + 1)
    ensures m ^ l < m
  {}

  lemma Below(m: bv64, i: bv64, t: Sq, j: Sq)
    requires i == Single(t) && m & (i - 1) == 0 && j < t
    ensures !Bit(m, j)
  {}

  lemma XorSelf(m: bv64, i: bv64, t: Sq)
    requires i == Single(t) && Bit(m, t)
    ensures !Bit(m ^ i, t)
  {}

  lemma XorOtherA(m: bv64, i: bv64, t: Sq, j: Sq)
    requires i == Single(t) && j != t && Bit(m, j)
    ensures Bit(m ^ i, j)
  {}

  lemma XorOtherB(m: bv64, i: bv64, t: Sq, j: Sq)
    requires i == Single(t) && j != t && Bit(m ^ i, j)
    ensures Bit(m, j)
  {}

  /** Taking square `t` out of `m` changes nothing at the squares of `s`, which all lie above it. */
  lemma {:induction false} SquaresInAbove(m: bv64, i: bv64, t: Sq, s: seq<Sq>)
    requires i == Single(t)
    requires forall k | 0 <= k < |s| :: t < s[k]
    ensures SquaresIn(m, s) == SquaresIn(m ^ i, s)
  {
    if s != [] {
      var j := s[0];
      if Bit(m, j) { XorOtherA(m, i, t, j); }
      if Bit(m ^ i, j) { XorOtherB(m, i, t, j); }
      SquaresInAbove(m, i, t, s[1..]);
    }
  }

  lemma IncreasingTail(s: seq<Sq>)
    requires Increasing(s) && s != []
    ensures Increasing(s[1..])
    ensures forall k | 0 <= k < |s[1..]| :: s[0] < s[1..][k]
  {
    forall k | 0 <= k < |s[1..]|
      ensures s[0] < s[1..][k]
    {
      assert s[1..][k] == s[k + 1];
    }
  }

  lemma HeadAtMost(s: seq<Sq>, t: Sq)
    requires Increasing(s) && t in s
    ensures s[0] <= t
  {
    var k :| 0 <= k < |s| && s[k] == t;
    if k != 0 { assert s[0] < s[k]; }
  }

  lemma InTail(s: seq<Sq>, t: Sq)
    requires t in s && s[0] != t
    ensures t in s[1..]
  {
    assert s == [s[0]] + s[1..];
  }

  lemma SquaresInHead(m: bv64, i: bv64, t: Sq, s: seq<Sq>)
    requires i == Single(t) && Increasing(s) && s != [] && s[0] == t && Bit(m, t)
    ensures SquaresIn(m, s) == [t] + SquaresIn(m ^ i, s)
  {
    XorSelf(m, i, t);
    IncreasingTail(s);
    SquaresInAbove(m, i, t, s[1..]);
  }

  /** The lowest square of `m` comes first when `m` is read off an increasing list. */
  lemma {:induction false} SquaresInLowest(m: bv64, i: bv64, t: Sq, s: seq<Sq>)
    requires i == Single(t) && Increasing(s) && t in s && Bit(m, t) && m & (i - 1) == 0
    ensures SquaresIn(m, s) == [t] + SquaresIn(m ^ i, s)
  {
    if s[0] == t {
      SquaresInHead(m, i, t, s);
    } else {
      HeadAtMost(s, t);
      Below(m, i, t, s[0]);
      if Bit(m ^ i, s[0]) { XorOtherB(m, i, t, s[0]); }
      IncreasingTail(s);
      InTail(s, t);
      SquaresInLowest(m, i, t, s[1..]);
    }
  }

  // ----------------------------------------------------------- valid_moves

  /** The value of `valid_moves`: each legal square, lowest bit first, with the board it makes. */
  function FastMoves(b: Board, p: Player): seq<Action> {
    Actions(b, p, SquaresIn(MovesMask(b, p), Ascending))
  }

  /** One step of the `from_fn` closure: the lowest square comes off the mask and is played. */
  lemma FastStep(b: Board, p: Player, moves: bv64, i: bv64, t: Sq)
    requires i == Single(t) && Bit(moves, t) && moves & (i - 1) == 0
    ensures Actions(b, p, SquaresIn(moves, Ascending))
      == [Action(t, PlaceAt(b, p, t))] + Actions(b, p, SquaresIn(moves ^ i, Ascending))
  {
    AscendingShape();
    SquaresInLowest(moves, i, t, Ascending);
    var rest := SquaresIn(moves ^ i, Ascending);
    assert ([t] + rest)[1..] == rest;
  }

  lemma Shunt<T>(xs: seq<T>, x: T, ys: seq<T>)
    ensures xs + ([x] + ys) == (xs + [x]) + ys
  {}

  /**
   * `valid_moves`: the move mask, then the closure that takes the lowest square
   * `i = moves & (!moves + 1)` off it, replays the capture loop from `i` and
   * names the square by `trailing_zeros`. The mask is the loop of
   * `valid_moves_fast`, written out again in the source.
   */
  method ValidMoves(b: Board, p: Player) returns (acts: seq<Action>)
    ensures acts == FastMoves(b, p)
  {
    var moves := ValidMovesFast(b, p);
    acts := [];
    ghost var total := FastMoves(b, p);
    while moves != 0
      invariant acts + Actions(b, p, SquaresIn(moves, Ascending)) == total
      decreases moves
    {
      var i, pos, rest := TakeLowest(moves);
      var a := FastAction(b, p, i, pos);
      FastStep(b, p, moves, i, pos);
      Shunt(acts, a, Actions(b, p, SquaresIn(rest, Ascending)));
      moves := rest;
      acts := acts + [a];
    }
    SquaresInNone(Ascending);
  }

  /** `i = moves & (!moves + 1)`, its index `trailing_zeros(i)`, and `moves ^ i`. */
  method TakeLowest(moves: bv64) returns (i: bv64, pos: Sq, rest: bv64)
    requires moves != 0
    ensures i == Single(pos) && Bit(moves, pos) && moves & (i - 1) == 0
    ensures rest == moves ^ i && rest < moves
  {
    i := moves & (!moves + 1);
    LowestIsSingle(moves);
    pos := TrailingZeros(i);
    LowestIn(moves, i, pos);
    LowestBelow(moves, i);
    LowestLess(moves, i);
    rest := moves ^ i;
  }

  /** The body of the closure for the square `i`: the capture loop and the oriented board. */
  method FastAction(b: Board, p: Player, i: bv64, pos: Sq) returns (a: Action)
    requires i == Single(pos)
    ensures a == Action(pos, PlaceAt(b, p, pos))
  {
    var myDisks := b.Disks(p) | i;
    var oppDisks := b.Disks(p.Opponent());
    var captured := CaptureDiscs(i, myDisks, oppDisks);
    a := Action(pos, Assemble(p, myDisks, oppDisks, captured));
  }

  // ------------------------------------------------------ valid_moves_slow

  /**
   * The inner loop of `valid_moves_slow` along the ray leaving `cur` in
   * direction `d`: `acc` holds the opponent discs met so far. The next square
   * is looked at by `RayAt`; at the edge the ray ends and nothing counts.
   */
  function RayFlips(b: Board, p: Player, cur: Sq, d: Direction, acc: bv64): bv64
    decreases Room(cur, d), 1
  {
    RoomStep(cur, d);
    var o := Next(cur, d);
    if o.None? then 0 else RayAt(b, p, o.value, d, acc)
  }

  /**
   * The loop body at square `s`: an empty square ends the ray (nothing
   * counts), an own disc closes it (what was collected counts), an opponent
   * disc is collected and the walk goes on.
   */
  function RayAt(b: Board, p: Player, s: Sq, d: Direction, acc: bv64): bv64
    decreases Room(s, d) + 1, 0
  {
    RoomStep(s, d);
    var g := b.Get(s);
    if g.None? then 0 else if g.value == p then acc else RayFlips(b, p, s, d, acc | Single(s))
  }

  lemma RayEdge(b: Board, p: Player, cur: Sq, d: Direction, acc: bv64)
    requires Next(cur, d).None?
    ensures RayFlips(b, p, cur, d, acc) == 0
  {}

  lemma RayNext(b: Board, p: Player, cur: Sq, d: Direction, acc: bv64, s: Sq)
    requires Next(cur, d) == Some(s)
    ensures RayFlips(b, p, cur, d, acc) == RayAt(b, p, s, d, acc)
  {}

  lemma RayAtEmpty(b: Board, p: Player, s: Sq, d: Direction, acc: bv64)
    requires b.Get(s).None?
    ensures RayAt(b, p, s, d, acc) == 0
  {}

  lemma RayAtOwn(b: Board, p: Player, s: Sq, d: Direction, acc: bv64)
    requires b.Get(s) == Some(p)
    ensures RayAt(b, p, s, d, acc) == acc
  {}

  lemma RayAtOpponent(b: Board, p: Player, s: Sq, d: Direction, acc: bv64)
    requires b.Get(s).Some? && b.Get(s) != Some(p)
    ensures RayAt(b, p, s, d, acc) == RayFlips(b, p, s, d, acc | Single(s))
  {}

  lemma RoomLess(cur: Sq, d: Direction, s: Sq)
    requires Next(cur, d) == Some(s)
    ensures Room(s, d) < Room(cur, d)
  {
    RoomStep(cur, d);
  }

  /** `flip_candidate` after the first `k` directions of the compass rose. */
  function FlipCandidate(b: Board, p: Player, xy: Sq, k: nat): bv64
    requires k <= |CompassRose|
  {
    if k == 0 then 0 else FlipCandidate(b, p, xy, k - 1) | RayFlips(b, p, xy, CompassRose[k - 1], 0)
  }

  lemma FlipCandidateStep(b: Board, p: Player, xy: Sq, k: nat, sofar: bv64, f: bv64)
    requires k < |CompassRose|
    requires sofar == FlipCandidate(b, p, xy, k) && f == RayFlips(b, p, xy, CompassRose[k], 0)
    ensures FlipCandidate(b, p, xy, k + 1) == sofar | f
  {}

  /** Every square of `x` holds a disc. */
  predicate Occupied(b: Board, x: bv64) {
    x & b.Empty() == 0
  }

  lemma OccupiedNone(b: Board)
    ensures Occupied(b, 0)
  {}

  lemma OccupiedAddBit(b: Board, x: bv64, s: Sq)
    requires Occupied(b, x) && !Bit(b.Empty(), s)
    ensures Occupied(b, x | Single(s))
  {}

  lemma OccupiedAdd(b: Board, x: bv64, s: Sq)
    requires Occupied(b, x) && b.Get(s).Some?
    ensures Occupied(b, x | Single(s))
  {
    GetOccupied(b, s);
    OccupiedAddBit(b, x, s);
  }

  lemma OccupiedUnion(b: Board, x: bv64, y: bv64)
    requires Occupied(b, x) && Occupied(b, y)
    ensures Occupied(b, x | y)
  {}

  /** Placing a disc only fills a square. */
  lemma OccupiedAfterSet(b: Board, xy: Sq, p: Player, x: bv64)
    requires Occupied(b, x) && b.Set(xy, p).Some?
    ensures Occupied(b.Set(xy, p).value, x)
  {
    match p
    case Black => OccupiedMoreBlack(b, Single(xy), x);
    case White => OccupiedMoreWhite(b, Single(xy), x);
  }

  lemma OccupiedMoreBlack(b: Board, e: bv64, x: bv64)
    requires Occupied(b, x)
    ensures Occupied(Board(b.black | e, b.white), x)
  {}

  lemma OccupiedMoreWhite(b: Board, e: bv64, x: bv64)
    requires Occupied(b, x)
    ensures Occupied(Board(b.black, b.white | e), x)
  {}

  /** A ray collects only occupied squares. */
  lemma {:induction false} RayFlipsOccupied(b: Board, p: Player, cur: Sq, d: Direction, acc: bv64)
    requires Occupied(b, acc)
    ensures Occupied(b, RayFlips(b, p, cur, d, acc))
    decreases Room(cur, d), 1
  {
    RoomStep(cur, d);
    var o := Next(cur, d);
    if o.Some? {
      RayAtOccupied(b, p, o.value, d, acc);
    } else {
      OccupiedNone(b);
    }
  }

  lemma {:induction false} RayAtOccupied(b: Board, p: Player, s: Sq, d: Direction, acc: bv64)
    requires Occupied(b, acc)
    ensures Occupied(b, RayAt(b, p, s, d, acc))
    decreases Room(s, d) + 1, 0
  {
    RoomStep(s, d);
    var g := b.Get(s);
    if g.None? {
      RayAtEmpty(b, p, s, d, acc);
      OccupiedNone(b);
    } else if g.value == p {
      RayAtOwn(b, p, s, d, acc);
    } else {
      RayAtOpponent(b, p, s, d, acc);
      OccupiedAdd(b, acc, s);
      RayFlipsOccupied(b, p, s, d, acc | Single(s));
    }
  }

  lemma {:induction false} FlipCandidateOccupied(b: Board, p: Player, xy: Sq, k: nat)
    requires k <= |CompassRose|
    ensures Occupied(b, FlipCandidate(b, p, xy, k))
  {
    if k == 0 {
      OccupiedNone(b);
    } else {
      OccupiedNone(b);
      FlipCandidateOccupied(b, p, xy, k - 1);
      RayFlipsOccupied(b, p, xy, CompassRose[k - 1], 0);
      OccupiedUnion(b, FlipCandidate(b, p, xy, k - 1), RayFlips(b, p, xy, CompassRose[k - 1], 0));
    }
  }

  /**
   * The board `set(xy, p).unwrap().flip_discs(fc)`: neither call panics when
   * `xy` is empty, since every candidate disc is on an occupied square.
   */
  function SlowBoard(b: Board, p: Player, xy: Sq): (r: Board)
    requires b.Get(xy).None?
    ensures b.Set(xy, p).Some?
    ensures b.Set(xy, p).value.FlipDiscs(FlipCandidate(b, p, xy, |CompassRose|)) == Some(r)
  {
    var fc := FlipCandidate(b, p, xy, |CompassRose|);
    var placed := b.Set(xy, p).value;
    FlipCandidateOccupied(b, p, xy, |CompassRose|);
    OccupiedAfterSet(b, xy, p, fc);
    FlipDiscsDefined(placed, fc);
    placed.FlipDiscs(fc).value
  }

  /** What the `filter_map` closure of `valid_moves_slow` yields for `xy`. */
  function SlowEntry(b: Board, p: Player, xy: Sq): Option<Action> {
    if b.Get(xy).Some? || FlipCandidate(b, p, xy, |CompassRose|) == 0 then None
    else Some(Action(xy, SlowBoard(b, p, xy)))
  }

  /** The values of the `Some`s of `xs`, in order: what `filter_map` yields. */
  function Somes<T>(xs: seq<Option<T>>): seq<T> {
    if xs == [] then []
    else if xs[0].Some? then [xs[0].value] + Somes(xs[1..])
    else Somes(xs[1..])
  }

  lemma SomesStep<T>(xs: seq<Option<T>>, n: nat)
    requires n < |xs|
    ensures Somes(xs[n..]) == (if xs[n].Some? then [xs[n].value] else []) + Somes(xs[n + 1..])
  {
    assert xs[n..][1..] == xs[n + 1..];
  }

  /** The closure of `valid_moves_slow` applied to each square of `s`. */
  function SlowEntries(b: Board, p: Player, s: seq<Sq>): (r: seq<Option<Action>>)
    ensures |r| == |s|
    ensures forall k | 0 <= k < |s| :: r[k] == SlowEntry(b, p, s[k])
  {
    seq(|s|, k requires 0 <= k < |s| => SlowEntry(b, p, s[k]))
  }

  /** The value of `valid_moves_slow`. */
  function SlowMoves(b: Board, p: Player): seq<Action> {
    Somes(SlowEntries(b, p, Positions))
  }

  /** The `for xy in dir.on(xy)` loop of `valid_moves_slow` for one direction. */
  method RayWalk(b: Board, p: Player, xy: Sq, d: Direction) returns (flips: bv64)
    ensures flips == RayFlips(b, p, xy, d, 0)
  {
    var acc: bv64 := 0;
    var cur := xy;
    ghost var total := RayFlips(b, p, xy, d, 0);
    while true
      invariant RayFlips(b, p, cur, d, acc) == total
      decreases Room(cur, d)
    {
      var o := Next(cur, d);
      if o.None? {
        RayEdge(b, p, cur, d, acc);
        return 0;
      }
      var s := o.value;
      RayNext(b, p, cur, d, acc, s);
      var ends, value := RaySquare(b, p, s, d, acc);
      if ends {
        return value;
      }
      RoomLess(cur, d, s);
      acc := acc | Single(s);
      cur := s;
    }
  }

  /**
   * The `match` in the ray loop at square `s`: the ray ends here with `value`
   * (the two `break`s), or the opponent disc on `s` is collected.
   */
  method RaySquare(b: Board, p: Player, s: Sq, d: Direction, acc: bv64) returns (ends: bool, value: bv64)
    ensures ends ==> RayAt(b, p, s, d, acc) == value
    ensures !ends ==> RayAt(b, p, s, d, acc) == RayFlips(b, p, s, d, acc | Single(s))
  {
    var q := b.Get(s);
    if q.None? {
      RayAtEmpty(b, p, s, d, acc);
      return true, 0;
    }
    if q.value == p {
      RayAtOwn(b, p, s, d, acc);
      return true, acc;
    }
    RayAtOpponent(b, p, s, d, acc);
    ends, value := false, 0;
  }

  /**
   * `valid_moves_slow`: every square in `Pos::iter` order; an empty one is
   * tried in every direction and kept when some ray flips a disc.
   */
  method ValidMovesSlow(b: Board, p: Player) returns (acts: seq<Action>)
    ensures acts == SlowMoves(b, p)
  {
    acts := SlowOver(b, p, Positions);
  }

  /** The `filter_map` of `valid_moves_slow` over the squares `s`, in order. */
  method SlowOver(b: Board, p: Player, s: seq<Sq>) returns (acts: seq<Action>)
    ensures acts == Somes(SlowEntries(b, p, s))
  {
    ghost var entries := SlowEntries(b, p, s);
    ghost var total := Somes(entries);
    acts := [];
    for n := 0 to |s|
      invariant acts + Somes(entries[n..]) == total
    {
      var e := SlowTry(b, p, s[n]);
      SomesStep(entries, n);
      if e.Some? {
        Shunt(acts, e.value, Somes(entries[n + 1..]));
        acts := acts + [e.value];
      }
    }
  }

  /** The `filter_map` closure of `valid_moves_slow` for the square `xy`. */
  method SlowTry(b: Board, p: Player, xy: Sq) returns (e: Option<Action>)
    ensures e == SlowEntry(b, p, xy)
  {
    e := None;
    if b.Get(xy).None? {
      var flipCandidate := FlipCandidates(b, p, xy);
      if flipCandidate != 0 {
        ghost var expected := SlowBoard(b, p, xy);
        var placed := b.Set(xy, p).value;
        var board := placed.FlipDiscs(flipCandidate).value;
        e := Some(Action(xy, board));
      }
    }
  }

  /** The direction loop of the closure, gathering `flip_candidate`. */
  method FlipCandidates(b: Board, p: Player, xy: Sq) returns (flipCandidate: bv64)
    ensures flipCandidate == FlipCandidate(b, p, xy, |CompassRose|)
  {
    flipCandidate := 0;
    for k := 0 to |CompassRose|
      invariant flipCandidate == FlipCandidate(b, p, xy, k)
    {
      var f := RayWalk(b, p, xy, CompassRose[k]);
      FlipCandidateStep(b, p, xy, k, flipCandidate, f);
      flipCandidate := flipCandidate | f;
    }
  }
}
