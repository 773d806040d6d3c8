// Agreement of the two move generators of board.rs: on every board whose two
// disc sets are disjoint, the mask of `valid_moves_fast` holds exactly the
// squares from which the ray walk of `valid_moves_slow` flips something, so
// both lists offer moves on the same squares.

module MoveAgreement {
  import opened Wrappers
  import opened Bitboard
  import opened Moves

  // ------------------------------------------------------- single squares

  lemma SingleMeet(a: bv64, i: Sq)
    ensures a & Single(i) == 0 || a & Single(i) == Single(i)
  {}

  lemma SingleNonzero(i: Sq)
    ensures Single(i) != 0
  {}

  lemma MeetUnion(a: bv64, c: bv64, y: bv64)
    ensures (a | c) & y == (a & y) | (c & y)
  {}

  lemma MeetMeet(a: bv64, c: bv64, y: bv64)
    ensures (a & c) & y == (a & y) & (c & y)
  {}

  lemma UnionZero(u: bv64, v: bv64)
    ensures (u | v == 0) == (u == 0 && v == 0)
  {}

  /** A square is in a union exactly when it is in one of the two sets. */
  lemma BitOr(a: bv64, c: bv64, i: Sq)
    ensures Bit(a | c, i) == (Bit(a, i) || Bit(c, i))
  {
    MeetUnion(a, c, Single(i));
    UnionZero(a & Single(i), c & Single(i));
  }

  /** A square is in an intersection exactly when it is in both sets. */
  lemma BitAnd(a: bv64, c: bv64, i: Sq)
    ensures Bit(a & c, i) == (Bit(a, i) && Bit(c, i))
  {
    MeetMeet(a, c, Single(i));
    SingleMeet(a, i);
    SingleMeet(c, i);
    SingleNonzero(i);
  }

  // ------------------------------------------------------- shifts of squares

  lemma ShiftSingleNorth(i: Sq) ensures Shift(Single(i), North) == SingleOf(Next(i, North)) {}
  lemma ShiftSingleSouth(i: Sq) ensures Shift(Single(i), South) == SingleOf(Next(i, South)) {}
  lemma ShiftSingleEast(i: Sq) ensures Shift(Single(i), East) == SingleOf(Next(i, East)) {}
  lemma ShiftSingleWest(i: Sq) ensures Shift(Single(i), West) == SingleOf(Next(i, West)) {}
  lemma ShiftSingleNorthwest(i: Sq) ensures Shift(Single(i), Northwest) == SingleOf(Next(i, Northwest)) {}
  lemma ShiftSingleSoutheast(i: Sq) ensures Shift(Single(i), Southeast) == SingleOf(Next(i, Southeast)) {}
  lemma ShiftSingleNortheast(i: Sq) ensures Shift(Single(i), Northeast) == SingleOf(Next(i, Northeast)) {}
  lemma ShiftSingleSouthwest(i: Sq) ensures Shift(Single(i), Southwest) == SingleOf(Next(i, Southwest)) {}

  /** The bit shift of `Shift for u64` moves a lone square to its neighbour, or off the board. */
  lemma ShiftSingle(i: Sq, d: Direction)
    ensures Shift(Single(i), d) == SingleOf(Next(i, d))
  {
    match d
    case North => ShiftSingleNorth(i);
    case South => ShiftSingleSouth(i);
    case East => ShiftSingleEast(i);
    case West => ShiftSingleWest(i);
    case Northwest => ShiftSingleNorthwest(i);
    case Southeast => ShiftSingleSoutheast(i);
    case Northeast => ShiftSingleNortheast(i);
    case Southwest => ShiftSingleSouthwest(i);
  }

  lemma ShiftZero(d: Direction)
    ensures Shift(0, d) == 0
  {}

  lemma AdjointNorth(x: bv64, y: bv64, d: Direction) requires d == North ensures Shift(x, d) & y == Shift(x & Shift(y, d.Reverse()), d) {}
  lemma AdjointSouth(x: bv64, y: bv64, d: Direction) requires d == South ensures Shift(x, d) & y == Shift(x & Shift(y, d.Reverse()), d) {}
  lemma AdjointEast(x: bv64, y: bv64, d: Direction) requires d == East ensures Shift(x, d) & y == Shift(x & Shift(y, d.Reverse()), d) {}
  lemma AdjointWest(x: bv64, y: bv64, d: Direction) requires d == West ensures Shift(x, d) & y == Shift(x & Shift(y, d.Reverse()), d) {}
  lemma AdjointNorthwest(x: bv64, y: bv64, d: Direction) requires d == Northwest ensures Shift(x, d) & y == Shift(x & Shift(y, d.Reverse()), d) {}
  lemma AdjointSoutheast(x: bv64, y: bv64, d: Direction) requires d == Southeast ensures Shift(x, d) & y == Shift(x & Shift(y, d.Reverse()), d) {}
  lemma AdjointNortheast(x: bv64, y: bv64, d: Direction) requires d == Northeast ensures Shift(x, d) & y == Shift(x & Shift(y, d.Reverse()), d) {}
  lemma AdjointSouthwest(x: bv64, y: bv64, d: Direction) requires d == Southwest ensures Shift(x, d) & y == Shift(x & Shift(y, d.Reverse()), d) {}

  /** What a shifted set has in `y` is the shift of what the set has in `y` shifted back. */
  lemma Adjoint(x: bv64, y: bv64, d: Direction)
    ensures Shift(x, d) & y == Shift(x & Shift(y, d.Reverse()), d)
  {
    match d
    case North => AdjointNorth(x, y, d);
    case South => AdjointSouth(x, y, d);
    case East => AdjointEast(x, y, d);
    case West => AdjointWest(x, y, d);
    case Northwest => AdjointNorthwest(x, y, d);
    case Southeast => AdjointSoutheast(x, y, d);
    case Northeast => AdjointNortheast(x, y, d);
    case Southwest => AdjointSouthwest(x, y, d);
  }

  lemma ReverseReverse(d: Direction)
    ensures d.Reverse().Reverse() == d
  {}

  /** Square `s` is in `x` shifted in direction `d` exactly when its neighbour `n` behind it is in `x` ... */
  lemma ShiftBit(x: bv64, s: Sq, d: Direction, n: Sq)
    requires Next(s, d.Reverse()) == Some(n)
    ensures Bit(Shift(x, d), s) == Bit(x, n)
  {
    SingleMeet(x, n);
    if x & Single(n) == 0 {
      ShiftBitOut(x, s, n, d);
    } else {
      ShiftBitIn(x, s, n, d);
      SingleNonzero(s);
      SingleNonzero(n);
    }
  }

  /** ... and never when there is no square behind it. */
  lemma ShiftBitNone(x: bv64, s: Sq, d: Direction)
    requires Next(s, d.Reverse()).None?
    ensures !Bit(Shift(x, d), s)
  {
    ShiftMeet(x, s, d);
    ShiftZero(d);
  }

  lemma ShiftBitOut(x: bv64, s: Sq, n: Sq, d: Direction)
    requires Next(s, d.Reverse()) == Some(n) && x & Single(n) == 0
    ensures Shift(x, d) & Single(s) == 0
  {
    ShiftMeet(x, s, d);
    ShiftZero(d);
  }

  lemma ShiftBitIn(x: bv64, s: Sq, n: Sq, d: Direction)
    requires Next(s, d.Reverse()) == Some(n) && x & Single(n) == Single(n)
    ensures Shift(x, d) & Single(s) == Single(s)
  {
    ShiftMeet(x, s, d);
    ShiftBack(s, n, d);
  }

  lemma ShiftMeet(x: bv64, s: Sq, d: Direction)
    ensures Shift(x, d) & Single(s) == Shift(x & SingleOf(Next(s, d.Reverse())), d)
  {
    Adjoint(x, Single(s), d);
    ShiftSingle(s, d.Reverse());
  }

  lemma ShiftBack(s: Sq, n: Sq, d: Direction)
    requires Next(s, d.Reverse()) == Some(n)
    ensures Shift(Single(n), d) == Single(s)
  {
    NextReverse(s, d.Reverse());
    ReverseReverse(d);
    ShiftSingle(n, d);
  }

  // ----------------------------------------------------------------- boards

  lemma GetBits(b: Board, n: Sq)
    requires b.Disjoint()
    ensures Bit(b.black, n) ==> !Bit(b.white, n)
    ensures b.Get(n).None? == Bit(b.Empty(), n)
  {
    DisjointBit(b.black, b.white, n);
    EmptyBit(b.black, b.white, n);
  }

  lemma DisjointBit(x: bv64, w: bv64, n: Sq)
    requires x & w == 0
    ensures Bit(x, n) ==> !Bit(w, n)
  {
    SingleMeet(x, n);
    SingleMeet(w, n);
    SingleNonzero(n);
    MeetMeet(x, w, Single(n));
  }

  lemma EmptyBit(x: bv64, w: bv64, n: Sq)
    ensures Bit(EmptyOf(x, w), n) == (!Bit(x, n) && !Bit(w, n))
  {
    var y := Single(n);
    SingleMeet(x, n);
    SingleMeet(w, n);
    SingleNonzero(n);
    EmptyMeet(x, w, y);
    NotMeet(x, y);
    NotMeet(w, y);
  }

  lemma EmptyMeet(x: bv64, w: bv64, y: bv64)
    ensures EmptyOf(x, w) & y == y & !x & !w
  {}

  lemma NotMeet(x: bv64, y: bv64)
    ensures y & !x == y ^ (x & y)
  {}

  // ------------------------------------------------------ the mask side

  /** What the squares after `cur` in direction `e` hold, nearest first, up to the edge. */
  function Cells(b: Board, cur: Sq, e: Direction): seq<Option<Player>>
    decreases Room(cur, e)
  {
    RoomStep(cur, e);
    var o := Next(cur, e);
    if o.None? then [] else [b.Get(o.value)] + Cells(b, o.value, e)
  }

  lemma CellsNone(b: Board, cur: Sq, e: Direction)
    requires Next(cur, e).None?
    ensures Cells(b, cur, e) == []
  {}

  lemma CellsSome(b: Board, cur: Sq, e: Direction, n: Sq)
    requires Next(cur, e) == Some(n)
    ensures Cells(b, cur, e) == [b.Get(n)] + Cells(b, n, e)
  {}

  /** A ray has at most as many squares as its room. */
  lemma {:induction false} CellsRoom(b: Board, cur: Sq, e: Direction)
    ensures |Cells(b, cur, e)| <= Room(cur, e) as int
    decreases Room(cur, e)
  {
    RoomStep(cur, e);
    var o := Next(cur, e);
    if o.None? {
      CellsNone(b, cur, e);
    } else {
      CellsSome(b, cur, e, o.value);
      CellsRoom(b, o.value, e);
    }
  }

  /**
   * The walk over `cells` meets a disc of `p` after at most `k` opponent discs
   * and nothing else: the run it walks is closed by `p`.
   */
  predicate ClosedBy(cells: seq<Option<Player>>, p: Player, k: nat)
    decreases k
  {
    |cells| > 0 && (cells[0] == Some(p) || (k > 0 && cells[0] == Some(p.Opponent()) && ClosedBy(cells[1..], p, k - 1)))
  }

  /** A walk allowed more opponent discs closes whenever the shorter one does. */
  lemma {:induction false} ClosedMono(cells: seq<Option<Player>>, p: Player, k: nat)
    requires ClosedBy(cells, p, k)
    ensures ClosedBy(cells, p, k + 1)
    decreases k
  {
    if cells[0] != Some(p) {
      ClosedMono(cells[1..], p, k - 1);
    }
  }

  /** `k` extension steps applied to `x`. */
  function Grow(x: bv64, d: Direction, opp: bv64, k: nat): bv64 {
    if k == 0 then x else Extend(Grow(x, d, opp, k - 1), d, opp)
  }

  lemma GrowNext(x: bv64, d: Direction, opp: bv64, k: nat)
    requires k > 0
    ensures Grow(x, d, opp, k) == Extend(Grow(x, d, opp, k - 1), d, opp)
  {}

  lemma PropagateGrow(seed: bv64, d: Direction, opp: bv64)
    ensures Propagate(seed, d, opp) == Grow(Shift(seed, d) & opp, d, opp, 5)
  {
    var x := Shift(seed, d) & opp;
    GrowNext(x, d, opp, 1);
    GrowNext(x, d, opp, 2);
    GrowNext(x, d, opp, 3);
    GrowNext(x, d, opp, 4);
    GrowNext(x, d, opp, 5);
  }

  lemma ExtendIs(x: bv64, d: Direction, opp: bv64)
    ensures Extend(x, d, opp) == x | (Shift(x, d) & opp)
  {}

  /** The run grown from the discs `my` in direction `d` over the discs `opp` after `k` extension steps. */
  function Run(my: bv64, opp: bv64, d: Direction, k: nat): bv64 {
    Grow(Shift(my, d) & opp, d, opp, k)
  }

  lemma RunNext(my: bv64, opp: bv64, d: Direction, k: nat)
    requires k > 0
    ensures Run(my, opp, d, k) == Extend(Run(my, opp, d, k - 1), d, opp)
  {
    GrowNext(Shift(my, d) & opp, d, opp, k);
  }

  lemma ExtendEq(x: bv64, d: Direction, opp: bv64, sh: bv64, t: bv64, r: bv64)
    requires r == Extend(x, d, opp) && sh == Shift(x, d) && t == sh & opp
    ensures r == x | t
  {
    ExtendIs(x, d, opp);
  }

  // The lemmas from here on speak of disc sets through variables that their
  // requires clauses bind, so that each proof step meets the sets it needs
  // under one name.

  lemma OrAt(a: bv64, c: bv64, r: bv64, s: Sq)
    requires r == a | c
    ensures Bit(r, s) == (Bit(a, s) || Bit(c, s))
  {
    BitOr(a, c, s);
  }

  lemma AndAt(a: bv64, c: bv64, r: bv64, s: Sq)
    requires r == a & c
    ensures Bit(r, s) == (Bit(a, s) && Bit(c, s))
  {
    BitAnd(a, c, s);
  }

  lemma UnionNonzero(a: bv64, c: bv64, r: bv64)
    requires r == a | c && a != 0
    ensures r != 0
  {}

  lemma ShiftAt(x: bv64, y: bv64, s: Sq, d: Direction, n: Sq)
    requires y == Shift(x, d) && Next(s, d.Reverse()) == Some(n)
    ensures Bit(y, s) == Bit(x, n)
  {
    ShiftBit(x, s, d, n);
  }

  lemma ShiftAtEdge(x: bv64, y: bv64, s: Sq, d: Direction)
    requires y == Shift(x, d) && Next(s, d.Reverse()).None?
    ensures !Bit(y, s)
  {
    ShiftBitNone(x, s, d);
  }

  lemma ExtendAt(x: bv64, d: Direction, opp: bv64, s: Sq, r: bv64, sh: bv64)
    requires r == Extend(x, d, opp) && sh == Shift(x, d)
    ensures Bit(r, s) == (Bit(x, s) || (Bit(sh, s) && Bit(opp, s)))
  {
    var t := sh & opp;
    ExtendEq(x, d, opp, sh, t, r);
    OrAt(x, t, r, s);
    AndAt(sh, opp, t, s);
  }

  lemma CasesAt(b: Board, p: Player, n: Sq, my: bv64, opp: bv64, em: bv64)
    requires b.Disjoint() && my == b.Disks(p) && opp == b.Disks(p.Opponent()) && em == b.Empty()
    ensures (b.Get(n) == Some(p)) == Bit(my, n)
    ensures (b.Get(n) == Some(p.Opponent())) == Bit(opp, n)
    ensures b.Get(n).None? == Bit(em, n)
  {
    GetBits(b, n);
  }

  lemma RunStart(my: bv64, opp: bv64, d: Direction, sh: bv64, r: bv64)
    requires sh == Shift(my, d) && r == Run(my, opp, d, 0)
    ensures r == sh & opp
  {}

  lemma RunStep(my: bv64, opp: bv64, d: Direction, k: nat, r: bv64, r1: bv64)
    requires k > 0 && r == Run(my, opp, d, k) && r1 == Run(my, opp, d, k - 1)
    ensures r == Extend(r1, d, opp)
  {
    RunNext(my, opp, d, k);
  }

  /** The walk from `s` closes in `k` steps exactly when the square after `s` is `p`'s or starts a shorter closed run. */
  lemma ClosedStep(b: Board, p: Player, s: Sq, e: Direction, n: Sq, k: nat)
    requires Next(s, e) == Some(n)
    ensures ClosedBy(Cells(b, s, e), p, k)
         == (b.Get(n) == Some(p) || (k > 0 && b.Get(n) == Some(p.Opponent()) && ClosedBy(Cells(b, n, e), p, k - 1)))
  {
    CellsSome(b, s, e, n);
    assert Cells(b, s, e)[1..] == Cells(b, n, e);
  }

  lemma ClosedEdge(b: Board, p: Player, s: Sq, e: Direction, k: nat)
    requires Next(s, e).None?
    ensures !ClosedBy(Cells(b, s, e), p, k)
  {
    CellsNone(b, s, e);
  }

  /**
   * A square is in the run grown from `p`'s discs in direction `d` exactly when
   * it holds an opponent disc and, looking back along `d`, the run it starts is
   * closed by `p`.
   */
  lemma {:induction false} RunBits(b: Board, p: Player, d: Direction, k: nat, s: Sq, my: bv64, opp: bv64, r: bv64)
    requires b.Disjoint() && my == b.Disks(p) && opp == b.Disks(p.Opponent()) && r == Run(my, opp, d, k)
    ensures Bit(r, s) == (b.Get(s) == Some(p.Opponent()) && ClosedBy(Cells(b, s, d.Reverse()), p, k))
    decreases k, 1
  {
    if k == 0 {
      var sh := Shift(my, d);
      RunBitsBase(b, p, d, s, my, opp, sh, r);
    } else {
      RunBitsLater(b, p, d, k, s, my, opp, r);
    }
  }

  lemma {:induction false} RunBitsLater(b: Board, p: Player, d: Direction, k: nat, s: Sq, my: bv64, opp: bv64, r: bv64)
    requires b.Disjoint() && k > 0 && my == b.Disks(p) && opp == b.Disks(p.Opponent()) && r == Run(my, opp, d, k)
    ensures Bit(r, s) == (b.Get(s) == Some(p.Opponent()) && ClosedBy(Cells(b, s, d.Reverse()), p, k))
    decreases k, 0
  {
    var o := Next(s, d.Reverse());
    if o.Some? {
      var n := o.value;
      var r1 := Run(my, opp, d, k - 1);
      RunBits(b, p, d, k - 1, s, my, opp, r1);
      RunBits(b, p, d, k - 1, n, my, opp, r1);
      RunBitsStep(b, p, d, k, s, n, my, opp, r, r1);
    } else {
      RunBitsEdge(b, p, d, k, s, my, opp, r);
    }
  }

  lemma RunBitsBase(b: Board, p: Player, d: Direction, s: Sq, my: bv64, opp: bv64, sh: bv64, r: bv64)
    requires b.Disjoint() && my == b.Disks(p) && opp == b.Disks(p.Opponent()) && sh == Shift(my, d) && r == Run(my, opp, d, 0)
    ensures Bit(r, s) == (b.Get(s) == Some(p.Opponent()) && ClosedBy(Cells(b, s, d.Reverse()), p, 0))
  {
    var o := Next(s, d.Reverse());
    RunStart(my, opp, d, sh, r);
    AndAt(sh, opp, r, s);
    CasesAt(b, p, s, my, opp, b.Empty());
    if o.Some? {
      var n := o.value;
      ShiftAt(my, sh, s, d, n);
      CasesAt(b, p, n, my, opp, b.Empty());
      ClosedStep(b, p, s, d.Reverse(), n, 0);
    } else {
      ShiftAtEdge(my, sh, s, d);
      ClosedEdge(b, p, s, d.Reverse(), 0);
    }
  }

  lemma RunBitsStep(b: Board, p: Player, d: Direction, k: nat, s: Sq, n: Sq, my: bv64, opp: bv64, r: bv64, r1: bv64)
    requires b.Disjoint() && k > 0 && Next(s, d.Reverse()) == Some(n)
    requires my == b.Disks(p) && opp == b.Disks(p.Opponent()) && r == Run(my, opp, d, k) && r1 == Run(my, opp, d, k - 1)
    requires Bit(r1, s) == (b.Get(s) == Some(p.Opponent()) && ClosedBy(Cells(b, s, d.Reverse()), p, k - 1))
    requires Bit(r1, n) == (b.Get(n) == Some(p.Opponent()) && ClosedBy(Cells(b, n, d.Reverse()), p, k - 1))
    ensures Bit(r, s) == (b.Get(s) == Some(p.Opponent()) && ClosedBy(Cells(b, s, d.Reverse()), p, k))
  {
    var sh := Shift(r1, d);
    RunStep(my, opp, d, k, r, r1);
    ExtendAt(r1, d, opp, s, r, sh);
    ShiftAt(r1, sh, s, d, n);
    CasesAt(b, p, s, my, opp, b.Empty());
    ClosedStep(b, p, s, d.Reverse(), n, k);
    ClosedStep(b, p, s, d.Reverse(), n, k - 1);
    if ClosedBy(Cells(b, s, d.Reverse()), p, k - 1) {
      ClosedMono(Cells(b, s, d.Reverse()), p, k - 1);
    }
  }

  lemma {:induction false} RunBitsEdge(b: Board, p: Player, d: Direction, k: nat, s: Sq, my: bv64, opp: bv64, r: bv64)
    requires b.Disjoint() && Next(s, d.Reverse()).None?
    requires my == b.Disks(p) && opp == b.Disks(p.Opponent()) && r == Run(my, opp, d, k)
    ensures !Bit(r, s) && !ClosedBy(Cells(b, s, d.Reverse()), p, k)
    decreases k
  {
    ClosedEdge(b, p, s, d.Reverse(), k);
    if k == 0 {
      var sh := Shift(my, d);
      RunStart(my, opp, d, sh, r);
      AndAt(sh, opp, r, s);
      ShiftAtEdge(my, sh, s, d);
    } else {
      var r1 := Run(my, opp, d, k - 1);
      var sh := Shift(r1, d);
      RunStep(my, opp, d, k, r, r1);
      ExtendAt(r1, d, opp, s, r, sh);
      ShiftAtEdge(r1, sh, s, d);
      RunBitsEdge(b, p, d, k - 1, s, my, opp, r1);
    }
  }

  /**
   * The ray walk of `valid_moves_slow`, once it holds a disc to flip, ends with
   * discs to flip exactly when the squares ahead close the run.
   */
  lemma {:induction false} RayCloses(b: Board, p: Player, cur: Sq, e: Direction, acc: bv64, k: nat, f: bv64)
    requires b.Disjoint() && acc != 0 && |Cells(b, cur, e)| <= k + 1 && f == RayFlips(b, p, cur, e, acc)
    ensures (f != 0) == ClosedBy(Cells(b, cur, e), p, k)
    decreases k, 2
  {
    var o := Next(cur, e);
    if o.None? {
      RayEdge(b, p, cur, e, acc);
      ClosedEdge(b, p, cur, e, k);
    } else {
      RayNext(b, p, cur, e, acc, o.value);
      RayClosesAt(b, p, cur, e, o.value, acc, k, f);
    }
  }

  /** The step of `RayCloses` at the square `n` after `cur`. */
  lemma {:induction false} RayClosesAt(b: Board, p: Player, cur: Sq, e: Direction, n: Sq, acc: bv64, k: nat, g: bv64)
    requires b.Disjoint() && acc != 0 && |Cells(b, cur, e)| <= k + 1 && Next(cur, e) == Some(n)
    requires g == RayAt(b, p, n, e, acc)
    ensures (g != 0) == ClosedBy(Cells(b, cur, e), p, k)
    decreases k, 1
  {
    ClosedStep(b, p, cur, e, n, k);
    if b.Get(n).None? {
      RayAtEmpty(b, p, n, e, acc);
    } else if b.Get(n) == Some(p) {
      RayAtOwn(b, p, n, e, acc);
    } else {
      CellsLength(b, cur, e, n);
      RayClosesOpponent(b, p, n, e, acc, k, g);
    }
  }

  lemma CellsLength(b: Board, cur: Sq, e: Direction, n: Sq)
    requires Next(cur, e) == Some(n)
    ensures |Cells(b, cur, e)| == |Cells(b, n, e)| + 1
  {
    CellsSome(b, cur, e, n);
  }

  lemma {:induction false} RayClosesOpponent(b: Board, p: Player, n: Sq, e: Direction, acc: bv64, k: nat, g: bv64)
    requires b.Disjoint() && acc != 0 && |Cells(b, n, e)| <= k && g == RayAt(b, p, n, e, acc)
    requires b.Get(n).Some? && b.Get(n) != Some(p)
    ensures (g != 0) == (k > 0 && ClosedBy(Cells(b, n, e), p, k - 1))
    decreases k, 0
  {
    var acc2 := RayCollect(b, p, n, e, acc, g);
    if k == 0 {
      RayShort(b, p, n, e, acc2, g);
    } else {
      RayCloses(b, p, n, e, acc2, k - 1, g);
    }
  }

  /** An opponent disc joins the discs collected so far, which stay nonempty. */
  lemma RayCollect(b: Board, p: Player, n: Sq, e: Direction, acc: bv64, g: bv64) returns (acc2: bv64)
    requires b.Get(n).Some? && b.Get(n) != Some(p) && acc != 0 && g == RayAt(b, p, n, e, acc)
    ensures acc2 != 0 && g == RayFlips(b, p, n, e, acc2)
  {
    var sn := Single(n);
    acc2 := acc | sn;
    RayAtOpponent(b, p, n, e, acc);
    UnionNonzero(acc, sn, acc2);
  }

  lemma RayShort(b: Board, p: Player, n: Sq, e: Direction, acc: bv64, f: bv64)
    requires |Cells(b, n, e)| == 0 && f == RayFlips(b, p, n, e, acc)
    ensures f == 0
  {
    RayEdge(b, p, n, e, acc);
  }

  lemma RayFirst(b: Board, p: Player, n: Sq, e: Direction, sn: bv64, g: bv64, f: bv64)
    requires b.Get(n).Some? && b.Get(n) != Some(p)
    requires sn == Single(n) && g == RayAt(b, p, n, e, 0) && f == RayFlips(b, p, n, e, sn)
    ensures g == f
  {
    RayAtOpponent(b, p, n, e, 0);
  }

  /** From the first square of a ray, the slow walk finds discs to flip exactly when that square starts a closed run. */
  lemma FirstSquare(b: Board, p: Player, i: Sq, e: Direction, n: Sq, g: bv64)
    requires b.Disjoint() && Next(i, e) == Some(n) && g == RayAt(b, p, n, e, 0)
    ensures (g != 0) == (b.Get(n) == Some(p.Opponent()) && ClosedBy(Cells(b, n, e), p, 5))
  {
    if b.Get(n).None? {
      RayAtEmpty(b, p, n, e, 0);
    } else if b.Get(n) == Some(p) {
      RayAtOwn(b, p, n, e, 0);
    } else {
      CellsRoom(b, i, e);
      CellsLength(b, i, e, n);
      RoomStep(i, e);
      var sn := Single(n);
      var f := RayFlips(b, p, n, e, sn);
      RayFirst(b, p, n, e, sn, g, f);
      SingleNonzero(n);
      RayCloses(b, p, n, e, sn, 5, f);
    }
  }

  lemma MovesIs(my: bv64, opp: bv64, em: bv64, d: Direction, run: bv64, sh: bv64, m: bv64)
    requires m == DirMoves(my, opp, em, d) && run == Propagate(my, d, opp) && sh == Shift(run, d)
    ensures m == sh & em
  {}

  lemma PropagateRun(my: bv64, opp: bv64, d: Direction, run: bv64)
    requires run == Propagate(my, d, opp)
    ensures run == Run(my, opp, d, 5)
  {
    PropagateGrow(my, d, opp);
  }

  /**
   * A square is in the direction-`d` part of the `valid_moves_fast` mask
   * exactly when it is empty and the slow ray walk from it in the opposite
   * direction finds discs to flip.
   */
  lemma MovesBit(b: Board, p: Player, d: Direction, i: Sq, my: bv64, opp: bv64, em: bv64, m: bv64, f: bv64)
    requires b.Disjoint() && my == b.Disks(p) && opp == b.Disks(p.Opponent()) && em == b.Empty()
    requires m == DirMoves(my, opp, em, d) && f == RayFlips(b, p, i, d.Reverse(), 0)
    ensures Bit(m, i) == (Bit(em, i) && f != 0)
  {
    var run := Propagate(my, d, opp);
    var sh := Shift(run, d);
    MovesAt(my, opp, em, d, run, sh, m, i);
    MovesBitShift(b, p, d, i, my, opp, run, sh, f);
  }

  lemma MovesAt(my: bv64, opp: bv64, em: bv64, d: Direction, run: bv64, sh: bv64, m: bv64, i: Sq)
    requires m == DirMoves(my, opp, em, d) && run == Propagate(my, d, opp) && sh == Shift(run, d)
    ensures Bit(m, i) == (Bit(sh, i) && Bit(em, i))
  {
    MovesIs(my, opp, em, d, run, sh, m);
    AndAt(sh, em, m, i);
  }

  lemma MovesBitShift(b: Board, p: Player, d: Direction, i: Sq, my: bv64, opp: bv64, run: bv64, sh: bv64, f: bv64)
    requires b.Disjoint() && my == b.Disks(p) && opp == b.Disks(p.Opponent())
    requires run == Propagate(my, d, opp) && sh == Shift(run, d) && f == RayFlips(b, p, i, d.Reverse(), 0)
    ensures Bit(sh, i) == (f != 0)
  {
    var o := Next(i, d.Reverse());
    if o.None? {
      ShiftAtEdge(run, sh, i, d);
      RayEdge(b, p, i, d.Reverse(), 0);
    } else {
      MovesBitRay(b, p, d, i, o.value, my, opp, run, sh, f);
    }
  }

  lemma MovesBitRay(b: Board, p: Player, d: Direction, i: Sq, n: Sq, my: bv64, opp: bv64, run: bv64, sh: bv64, f: bv64)
    requires b.Disjoint() && my == b.Disks(p) && opp == b.Disks(p.Opponent()) && Next(i, d.Reverse()) == Some(n)
    requires run == Propagate(my, d, opp) && sh == Shift(run, d) && f == RayFlips(b, p, i, d.Reverse(), 0)
    ensures Bit(sh, i) == (f != 0)
  {
    var e := d.Reverse();
    ShiftAt(run, sh, i, d, n);
    PropagateRun(my, opp, d, run);
    RunBits(b, p, d, 5, n, my, opp, run);
    var g := RayAt(b, p, n, e, 0);
    RayNext(b, p, i, e, 0, n);
    FirstSquare(b, p, i, e, n, g);
  }

  // ----------------------------------------------------- the whole compass

  /** The ray from `i` in direction `d` flips something: `valid_moves_slow` counts it. */
  predicate Flanks(b: Board, p: Player, i: Sq, d: Direction) {
    RayFlips(b, p, i, d, 0) != 0
  }

  /**
   * Some ray among the first `k` directions of the compass rose flanks from
   * `i`; with `back` each direction is turned round first.
   */
  predicate FlanksUpTo(b: Board, p: Player, i: Sq, k: nat, back: bool)
    requires k <= |CompassRose|
  {
    k > 0 && (FlanksUpTo(b, p, i, k - 1, back)
      || Flanks(b, p, i, if back then CompassRose[k - 1].Reverse() else CompassRose[k - 1]))
  }

  lemma MovesUpToStep(my: bv64, opp: bv64, em: bv64, k: nat, d: Direction, m: bv64, m1: bv64, dm: bv64)
    requires 0 < k <= |CompassRose| && d == CompassRose[k - 1]
    requires m == MovesUpTo(my, opp, em, k) && m1 == MovesUpTo(my, opp, em, k - 1) && dm == DirMoves(my, opp, em, d)
    ensures m == m1 | dm
  {}

  /** A square is in the mask after `k` directions exactly when it is empty and one of their reversed rays flanks. */
  lemma {:induction false} MovesUpToBit(b: Board, p: Player, i: Sq, k: nat, my: bv64, opp: bv64, em: bv64, m: bv64)
    requires b.Disjoint() && my == b.Disks(p) && opp == b.Disks(p.Opponent()) && em == b.Empty()
    requires k <= |CompassRose| && m == MovesUpTo(my, opp, em, k)
    ensures Bit(m, i) == (Bit(em, i) && FlanksUpTo(b, p, i, k, true))
  {
    if k > 0 {
      var d := CompassRose[k - 1];
      var m1 := MovesUpTo(my, opp, em, k - 1);
      var dm := DirMoves(my, opp, em, d);
      MovesUpToStep(my, opp, em, k, d, m, m1, dm);
      OrAt(m1, dm, m, i);
      MovesUpToBit(b, p, i, k - 1, my, opp, em, m1);
      MovesBit(b, p, d, i, my, opp, em, dm, RayFlips(b, p, i, d.Reverse(), 0));
    }
  }

  lemma NonzeroAt(a: bv64, c: bv64, r: bv64)
    requires r == a | c
    ensures (r != 0) == (a != 0 || c != 0)
  {}

  /** `flip_candidate` after `k` directions is nonzero exactly when one of their rays flanks. */
  lemma {:induction false} FlipCandidateNonzero(b: Board, p: Player, i: Sq, k: nat)
    requires k <= |CompassRose|
    ensures (FlipCandidate(b, p, i, k) != 0) == FlanksUpTo(b, p, i, k, false)
  {
    if k > 0 {
      var sofar := FlipCandidate(b, p, i, k - 1);
      var f := RayFlips(b, p, i, CompassRose[k - 1], 0);
      FlipCandidateStep(b, p, i, k - 1, sofar, f);
      NonzeroAt(sofar, f, FlipCandidate(b, p, i, k));
      FlipCandidateNonzero(b, p, i, k - 1);
    }
  }

  /** The compass rose lists each direction next to its reverse. */
  lemma CompassPairs(j: nat)
    requires j < 4
    ensures CompassRose[2 * j + 1] == CompassRose[2 * j].Reverse()
    ensures CompassRose[2 * j] == CompassRose[2 * j + 1].Reverse()
  {}

  /** Turning every direction round changes nothing once whole pairs are taken. */
  lemma {:induction false} FlanksTurned(b: Board, p: Player, i: Sq, j: nat)
    requires j <= 4
    ensures FlanksUpTo(b, p, i, 2 * j, true) == FlanksUpTo(b, p, i, 2 * j, false)
  {
    if j > 0 {
      FlanksTurned(b, p, i, j - 1);
      CompassPairs(j - 1);
    }
  }

  /**
   * The mask of `valid_moves_fast` holds exactly the empty squares from which
   * `valid_moves_slow` finds something to flip.
   */
  lemma MovesMaskBit(b: Board, p: Player, i: Sq)
    requires b.Disjoint()
    ensures Bit(MovesMask(b, p), i) == (b.Get(i).None? && FlipCandidate(b, p, i, |CompassRose|) != 0)
  {
    MaskFlanks(b, p, i, MovesMask(b, p));
    FlipCandidateNonzero(b, p, i, |CompassRose|);
    GetBits(b, i);
  }

  lemma MaskFlanks(b: Board, p: Player, i: Sq, m: bv64)
    requires b.Disjoint() && m == MovesMask(b, p)
    ensures Bit(m, i) == (Bit(b.Empty(), i) && FlanksUpTo(b, p, i, |CompassRose|, false))
  {
    MovesUpToBit(b, p, i, |CompassRose|, b.Disks(p), b.Disks(p.Opponent()), b.Empty(), m);
    FlanksTurned(b, p, i, 4);
  }

  // ------------------------------------------------------- the move lists

  /** `filter_map` keeps exactly the values of the `Some`s. */
  lemma {:induction false} SomesMembers<T>(xs: seq<Option<T>>, x: T)
    ensures x in Somes(xs) <==> Some(x) in xs
  {
    if xs != [] {
      SomesMembers(xs[1..], x);
      assert xs == [xs[0]] + xs[1..];
    }
  }

  /** The actions of `s` take place exactly on the squares of `s`. */
  lemma ActionsAt(b: Board, p: Player, s: seq<Sq>, xy: Sq)
    ensures (exists a :: a in Actions(b, p, s) && a.at == xy) == (xy in s)
  {
    var acts := Actions(b, p, s);
    if xy in s {
      var k :| 0 <= k < |s| && s[k] == xy;
      assert acts[k] in acts;
    } else {
      forall a | a in acts
        ensures a.at != xy
      {
        var k :| 0 <= k < |acts| && acts[k] == a;
        assert s[k] in s;
      }
    }
  }

  /** `valid_moves_fast` yields a move on `xy` exactly when `xy` is in its mask. */
  lemma FastSquares(b: Board, p: Player, xy: Sq, m: bv64)
    requires m == MovesMask(b, p)
    ensures (exists a :: a in FastMoves(b, p) && a.at == xy) == Bit(m, xy)
  {
    ActionsAt(b, p, SquaresIn(m, Ascending), xy);
    SquaresInMembers(m, Ascending);
    AscendingFromMembers(0);
  }

  /**
   * The values of entries that each sit on the square beside them, when the
   * entry for `xy` is present exactly when `want` holds.
   */
  lemma EntriesAt(es: seq<Option<Action>>, s: seq<Sq>, xy: Sq, want: bool)
    requires |es| == |s| && xy in s
    requires forall k | 0 <= k < |s| :: es[k].Some? ==> es[k].value.at == s[k]
    requires forall k | 0 <= k < |s| :: s[k] == xy ==> es[k].Some? == want
    ensures (exists a :: a in Somes(es) && a.at == xy) == want
  {
    if want {
      var k :| 0 <= k < |s| && s[k] == xy;
      SomesMembers(es, es[k].value);
    } else {
      forall a | a in Somes(es)
        ensures a.at != xy
      {
        SomesMembers(es, a);
        var k :| 0 <= k < |es| && es[k] == Some(a);
      }
    }
  }

  /** The closure of `valid_moves_slow` plays the square it is given ... */
  lemma SlowEntryAt(b: Board, p: Player, xy: Sq)
    ensures SlowEntry(b, p, xy).Some? ==> SlowEntry(b, p, xy).value.at == xy
  {}

  /** ... and does so exactly on the squares of the fast mask. */
  lemma SlowEntryLegal(b: Board, p: Player, xy: Sq, m: bv64, fc: bv64)
    requires b.Disjoint() && m == MovesMask(b, p) && fc == FlipCandidate(b, p, xy, |CompassRose|)
    ensures SlowEntry(b, p, xy).Some? == (b.Get(xy).None? && fc != 0) == Bit(m, xy)
  {
    MovesMaskBit(b, p, xy);
  }

  /** `valid_moves_slow` yields a move on `xy` exactly when `xy` is in the fast mask. */
  lemma SlowSquares(b: Board, p: Player, xy: Sq, m: bv64)
    requires b.Disjoint() && m == MovesMask(b, p)
    ensures (exists a :: a in SlowMoves(b, p) && a.at == xy) == Bit(m, xy)
  {
    var es := SlowEntries(b, p, Positions);
    PositionsShape();
    forall k | 0 <= k < |Positions|
      ensures es[k].Some? ==> es[k].value.at == Positions[k]
      ensures Positions[k] == xy ==> es[k].Some? == Bit(m, xy)
    {
      SlowEntryAt(b, p, Positions[k]);
      SlowEntryLegal(b, p, Positions[k], m, FlipCandidate(b, p, Positions[k], |CompassRose|));
    }
    EntriesAt(es, Positions, xy, Bit(m, xy));
  }

  /** `valid_moves_fast` and `valid_moves_slow` offer moves on the same squares. */
  lemma SameSquares(b: Board, p: Player, xy: Sq)
    requires b.Disjoint()
    ensures (exists a :: a in FastMoves(b, p) && a.at == xy) <==> (exists a :: a in SlowMoves(b, p) && a.at == xy)
  {
    FastSquares(b, p, xy, MovesMask(b, p));
    SlowSquares(b, p, xy, MovesMask(b, p));
  }
}
