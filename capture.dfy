// Agreement of the two capture computations of board.rs: when `p` plays on an
// empty square `i` of a board without overlaps, one direction pass of
// `place_at_unchecked` takes exactly the opponent discs of the run that starts
// beside `i` and is closed by a disc of `p`, which are the discs the ray walk
// of `valid_moves_slow` collects. Both move generators therefore make the same
// boards, and their move lists hold the same moves.

module CaptureAgreement {
  import opened Wrappers
  import opened Bitboard
  import opened Moves
  import opened MoveAgreement

  // ---------------------------------------------------- runs along a ray

  /** How many squares lie after `cur` in direction `d` before the edge. */
  function Ahead(cur: Sq, d: Direction): nat
    decreases Room(cur, d)
  {
    RoomStep(cur, d);
    var o := Next(cur, d);
    if o.None? then 0 else 1 + Ahead(o.value, d)
  }

  lemma AheadNext(cur: Sq, d: Direction, n: Sq)
    requires Next(cur, d) == Some(n)
    ensures Ahead(cur, d) == Ahead(n, d) + 1
  {}

  /** A ray has at most seven squares. */
  lemma {:induction false} AheadBound(cur: Sq, d: Direction)
    ensures Ahead(cur, d) <= Room(cur, d) as int <= 7
    decreases Room(cur, d)
  {
    RoomStep(cur, d);
    var o := Next(cur, d);
    if o.Some? {
      AheadBound(o.value, d);
    }
  }

  /** `s` lies in the unbroken run of opponent discs that starts right after `cur` in direction `d`. */
  predicate InRun(b: Board, p: Player, cur: Sq, d: Direction, s: Sq)
    decreases Ahead(cur, d)
  {
    var o := Next(cur, d);
    o.Some? && b.Get(o.value) == Some(p.Opponent()) && (o.value == s || InRun(b, p, o.value, d, s))
  }

  /** The run after `cur` is the square `n` after it, if that holds an opponent disc, followed by the run after `n`. */
  lemma InRunOpen(b: Board, p: Player, cur: Sq, d: Direction, n: Sq, s: Sq)
    requires Next(cur, d) == Some(n)
    ensures InRun(b, p, cur, d, s) == (b.Get(n) == Some(p.Opponent()) && (n == s || InRun(b, p, n, d, s)))
  {}

  /** A square of a run holds an opponent disc and lies further along the ray. */
  lemma {:induction false} RunSquareShape(b: Board, p: Player, cur: Sq, d: Direction, s: Sq)
    requires InRun(b, p, cur, d, s)
    ensures b.Get(s) == Some(p.Opponent()) && Ahead(s, d) < Ahead(cur, d)
    decreases Ahead(cur, d)
  {
    var n := Next(cur, d).value;
    InRunOpen(b, p, cur, d, n, s);
    AheadNext(cur, d, n);
    if n != s {
      RunSquareShape(b, p, n, d, s);
    }
  }

  /** An opponent disc right after a square of the run belongs to the run. */
  lemma {:induction false} RunExtends(b: Board, p: Player, cur: Sq, d: Direction, q: Sq, s: Sq)
    requires InRun(b, p, cur, d, q) && Next(q, d) == Some(s) && b.Get(s) == Some(p.Opponent())
    ensures InRun(b, p, cur, d, s)
    decreases Ahead(cur, d)
  {
    var n := Next(cur, d).value;
    InRunOpen(b, p, cur, d, n, q);
    InRunOpen(b, p, cur, d, n, s);
    AheadNext(cur, d, n);
    if n == q {
      InRunOpen(b, p, q, d, s, s);
    } else {
      RunExtends(b, p, n, d, q, s);
    }
  }

  /** A walk that closes never stops on a square of its run: each has a square after it. */
  lemma {:induction false} ClosedPastRun(b: Board, p: Player, cur: Sq, d: Direction, s: Sq, k: nat)
    requires InRun(b, p, cur, d, s) && ClosedBy(Cells(b, cur, d), p, k)
    ensures Next(s, d).Some?
    decreases Ahead(cur, d)
  {
    var n := Next(cur, d).value;
    InRunOpen(b, p, cur, d, n, s);
    AheadNext(cur, d, n);
    ClosedStep(b, p, cur, d, n, k);
    if n == s {
      ClosedNext(b, p, s, d, k - 1);
    } else {
      ClosedPastRun(b, p, n, d, s, k - 1);
    }
  }

  /** A walk that closes has a square after its start. */
  lemma ClosedNext(b: Board, p: Player, cur: Sq, e: Direction, k: nat)
    ensures ClosedBy(Cells(b, cur, e), p, k) ==> Next(cur, e).Some?
  {
    if Next(cur, e).None? {
      ClosedEdge(b, p, cur, e, k);
    }
  }

  /** A run followed by a disc of `p` is closed within as many steps as it is long. */
  lemma {:induction false} RunEndCloses(b: Board, p: Player, cur: Sq, d: Direction, q: Sq, t: Sq, k: nat)
    requires InRun(b, p, cur, d, q) && Next(q, d) == Some(t) && b.Get(t) == Some(p)
    requires k >= Ahead(cur, d) - Ahead(q, d)
    ensures ClosedBy(Cells(b, cur, d), p, k)
    decreases Ahead(cur, d)
  {
    var n := Next(cur, d).value;
    InRunOpen(b, p, cur, d, n, q);
    AheadNext(cur, d, n);
    ClosedStep(b, p, cur, d, n, k);
    if n == q {
      ClosedStep(b, p, q, d, t, k - 1);
    } else {
      RunSquareShape(b, p, n, d, q);
      RunEndCloses(b, p, n, d, q, t, k - 1);
    }
  }

  /** A closed walk that starts on an opponent disc has a last run square, followed by a disc of `p`. */
  lemma {:induction false} RunLast(b: Board, p: Player, cur: Sq, d: Direction, n: Sq, k: nat) returns (q: Sq, t: Sq)
    requires Next(cur, d) == Some(n) && b.Get(n) == Some(p.Opponent()) && ClosedBy(Cells(b, cur, d), p, k)
    ensures InRun(b, p, cur, d, q) && Next(q, d) == Some(t) && b.Get(t) == Some(p)
    decreases k
  {
    ClosedStep(b, p, cur, d, n, k);
    ClosedNext(b, p, n, d, k - 1);
    var n2 := Next(n, d).value;
    ClosedStep(b, p, n, d, n2, k - 1);
    if b.Get(n2) == Some(p) {
      q, t := n, n2;
    } else {
      q, t := RunLast(b, p, n, d, n2, k - 1);
    }
    InRunOpen(b, p, cur, d, n, q);
  }

  /** A walk closed within `k` steps is closed within any larger bound. */
  lemma {:induction false} ClosedWithin(cells: seq<Option<Player>>, p: Player, k: nat, m: nat)
    requires ClosedBy(cells, p, k) && k <= m
    ensures ClosedBy(cells, p, m)
    decreases m - k
  {
    if k < m {
      ClosedMono(cells, p, k);
      ClosedWithin(cells, p, k + 1, m);
    }
  }

  // ---------------------------------------------------- the slow ray walk

  /**
   * The ray walk of `valid_moves_slow` from `cur` with the discs `acc` already
   * collected keeps a square exactly when the walk closes and the square was
   * collected before or lies in the run ahead.
   */
  lemma {:induction false} SlowBit(b: Board, p: Player, cur: Sq, d: Direction, acc: bv64, s: Sq, k: nat)
    requires |Cells(b, cur, d)| <= k + 1
    ensures Bit(RayFlips(b, p, cur, d, acc), s) == (ClosedBy(Cells(b, cur, d), p, k) && (Bit(acc, s) || InRun(b, p, cur, d, s)))
    decreases Ahead(cur, d), 3
  {
    var o := Next(cur, d);
    if o.None? {
      RayEdge(b, p, cur, d, acc);
      ClosedEdge(b, p, cur, d, k);
    } else {
      SlowBitAt(b, p, cur, d, o.value, acc, s, k);
    }
  }

  /** The step of `SlowBit` at the square `n` after `cur`. */
  lemma {:induction false} SlowBitAt(b: Board, p: Player, cur: Sq, d: Direction, n: Sq, acc: bv64, s: Sq, k: nat)
    requires Next(cur, d) == Some(n) && |Cells(b, cur, d)| <= k + 1
    ensures Bit(RayFlips(b, p, cur, d, acc), s) == (ClosedBy(Cells(b, cur, d), p, k) && (Bit(acc, s) || InRun(b, p, cur, d, s)))
    decreases Ahead(cur, d), 2
  {
    if b.Get(n).None? {
      SlowAtEmpty(b, p, cur, d, n, acc, k);
    } else if b.Get(n) == Some(p) {
      SlowAtOwn(b, p, cur, d, n, acc, s, k);
    } else {
      SlowAtOpponent(b, p, cur, d, n, acc, s, k);
    }
  }

  /** An empty square ends the walk with nothing. */
  lemma SlowAtEmpty(b: Board, p: Player, cur: Sq, d: Direction, n: Sq, acc: bv64, k: nat)
    requires Next(cur, d) == Some(n) && b.Get(n).None?
    ensures RayFlips(b, p, cur, d, acc) == 0 && !ClosedBy(Cells(b, cur, d), p, k)
  {
    RayNext(b, p, cur, d, acc, n);
    RayAtEmpty(b, p, n, d, acc);
    ClosedStep(b, p, cur, d, n, k);
  }

  /** A disc of `p` ends the walk with what was collected, and the run after `cur` is empty. */
  lemma SlowAtOwn(b: Board, p: Player, cur: Sq, d: Direction, n: Sq, acc: bv64, s: Sq, k: nat)
    requires Next(cur, d) == Some(n) && b.Get(n) == Some(p)
    ensures RayFlips(b, p, cur, d, acc) == acc && ClosedBy(Cells(b, cur, d), p, k) && !InRun(b, p, cur, d, s)
  {
    RayNext(b, p, cur, d, acc, n);
    RayAtOwn(b, p, n, d, acc);
    ClosedStep(b, p, cur, d, n, k);
    InRunOpen(b, p, cur, d, n, s);
  }

  /** An opponent disc on `n` is collected, and the walk goes on from it. */
  lemma {:induction false} SlowAtOpponent(b: Board, p: Player, cur: Sq, d: Direction, n: Sq, acc: bv64, s: Sq, k: nat)
    requires Next(cur, d) == Some(n) && |Cells(b, cur, d)| <= k + 1
    requires b.Get(n).Some? && b.Get(n) != Some(p)
    ensures Bit(RayFlips(b, p, cur, d, acc), s) == (ClosedBy(Cells(b, cur, d), p, k) && (Bit(acc, s) || InRun(b, p, cur, d, s)))
    decreases Ahead(cur, d), 1
  {
    RayNext(b, p, cur, d, acc, n);
    ClosedStep(b, p, cur, d, n, k);
    InRunOpen(b, p, cur, d, n, s);
    SlowBitOpponent(b, p, cur, d, n, acc, s, k);
  }

  /** The walk from an opponent disc on `n`, which joins the collected discs. */
  lemma {:induction false} SlowBitOpponent(b: Board, p: Player, cur: Sq, d: Direction, n: Sq, acc: bv64, s: Sq, k: nat)
    requires Next(cur, d) == Some(n) && |Cells(b, cur, d)| <= k + 1
    requires b.Get(n).Some? && b.Get(n) != Some(p)
    ensures Bit(RayAt(b, p, n, d, acc), s) == (k > 0 && ClosedBy(Cells(b, n, d), p, k - 1) && (Bit(acc, s) || n == s || InRun(b, p, n, d, s)))
    decreases Ahead(cur, d), 0
  {
    var acc2 := acc | Single(n);
    RayAtOpponent(b, p, n, d, acc);
    if k == 0 {
      SlowOpponentEdge(b, p, cur, d, n, acc, s);
    } else {
      CellsLength(b, cur, d, n);
      AheadNext(cur, d, n);
      SlowBit(b, p, n, d, acc2, s, k - 1);
      Collected(acc, n, acc2, s);
    }
  }

  /** An opponent disc on the last square of the board flips nothing. */
  lemma SlowOpponentEdge(b: Board, p: Player, cur: Sq, d: Direction, n: Sq, acc: bv64, s: Sq)
    requires Next(cur, d) == Some(n) && |Cells(b, cur, d)| <= 1
    requires b.Get(n).Some? && b.Get(n) != Some(p)
    ensures !Bit(RayAt(b, p, n, d, acc), s)
  {
    var acc2 := acc | Single(n);
    RayAtOpponent(b, p, n, d, acc);
    CellsLength(b, cur, d, n);
    RayShort(b, p, n, d, acc2, RayFlips(b, p, n, d, acc2));
    BitZero(RayAt(b, p, n, d, acc), s);
  }

  lemma Collected(acc: bv64, n: Sq, acc2: bv64, s: Sq)
    requires acc2 == acc | Single(n)
    ensures Bit(acc2, s) == (Bit(acc, s) || n == s)
  {
    OrAt(acc, Single(n), acc2, s);
    BitSingle(n, s);
  }

  /** The ray walk from an empty square keeps exactly the squares of a closed run. */
  lemma SlowRayBit(b: Board, p: Player, i: Sq, d: Direction, s: Sq)
    ensures Bit(RayFlips(b, p, i, d, 0), s) == (ClosedBy(Cells(b, i, d), p, 6) && InRun(b, p, i, d, s))
  {
    CellsRoom(b, i, d);
    RoomStep(i, d);
    SlowBit(b, p, i, d, 0, s, 6);
  }

  // ------------------------------------------------ the capture direction pass

  /**
   * The board on which `p` holds only `i` and the opponent holds its discs of
   * `b`: the seed `1 << i` of `captured_disks`, seen as a board.
   */
  function Seeded(b: Board, p: Player, i: Sq): Board {
    if p == Black then Board(Single(i), b.white) else Board(b.black, Single(i))
  }

  lemma SeededDisks(b: Board, p: Player, i: Sq)
    requires b.Disjoint() && b.Get(i).None?
    ensures Seeded(b, p, i).Disjoint()
    ensures Seeded(b, p, i).Disks(p) == Single(i) && Seeded(b, p, i).Disks(p.Opponent()) == b.Disks(p.Opponent())
  {}

  /** On the seeded board `p` holds exactly `i`, and the opponent what it holds on `b`. */
  lemma SeededGet(b: Board, p: Player, i: Sq, x: Sq)
    requires b.Disjoint() && b.Get(i).None?
    ensures (Seeded(b, p, i).Get(x) == Some(p)) == (x == i)
    ensures (Seeded(b, p, i).Get(x) == Some(p.Opponent())) == (x != i && b.Get(x) == Some(p.Opponent()))
  {
    if p == Black {
      SeededGetBlack(b, i, x);
    } else {
      SeededGetWhite(b, i, x);
    }
  }

  lemma SeededGetBlack(b: Board, i: Sq, x: Sq)
    requires b.Disjoint() && b.Get(i).None?
    ensures (Seeded(b, Black, i).Get(x) == Some(Black)) == (x == i)
    ensures (Seeded(b, Black, i).Get(x) == Some(White)) == (x != i && b.Get(x) == Some(White))
  {
    BitSingle(i, x);
    DisjointBit(b.black, b.white, x);
  }

  lemma SeededGetWhite(b: Board, i: Sq, x: Sq)
    requires b.Disjoint() && b.Get(i).None?
    ensures (Seeded(b, White, i).Get(x) == Some(White)) == (x == i)
    ensures (Seeded(b, White, i).Get(x) == Some(Black)) == (x != i && b.Get(x) == Some(Black))
  {
    BitSingle(i, x);
    DisjointBit(b.black, b.white, x);
  }

  lemma Behind(s: Sq, d: Direction, q: Sq)
    requires Next(s, d.Reverse()) == Some(q)
    ensures Next(q, d) == Some(s)
  {
    NextReverse(s, d.Reverse());
    ReverseReverse(d);
  }

  /** `v` is `b` with the discs of `p` replaced by the single disc `i`, as far as `Get` tells. */
  ghost predicate SeedView(b: Board, p: Player, i: Sq, v: Board) {
    forall x: Sq :: (v.Get(x) == Some(p)) == (x == i)
      && (v.Get(x) == Some(p.Opponent())) == (x != i && b.Get(x) == Some(p.Opponent()))
  }

  lemma SeededView(b: Board, p: Player, i: Sq)
    requires b.Disjoint() && b.Get(i).None?
    ensures SeedView(b, p, i, Seeded(b, p, i))
  {
    forall x: Sq ensures (Seeded(b, p, i).Get(x) == Some(p)) == (x == i)
      && (Seeded(b, p, i).Get(x) == Some(p.Opponent())) == (x != i && b.Get(x) == Some(p.Opponent()))
    {
      SeededGet(b, p, i, x);
    }
  }

  /** An opponent disc that looks back to `i` over opponent discs on the seeded board lies in the run after `i`. */
  lemma {:induction false} BackToRun(b: Board, p: Player, i: Sq, d: Direction, v: Board, s: Sq, k: nat)
    requires SeedView(b, p, i, v)
    requires v.Get(s) == Some(p.Opponent()) && ClosedBy(Cells(v, s, d.Reverse()), p, k)
    ensures InRun(b, p, i, d, s)
    decreases k
  {
    var e := d.Reverse();
    ClosedNext(v, p, s, e, k);
    var q := Next(s, e).value;
    ClosedStep(v, p, s, e, q, k);
    Behind(s, d, q);
    if q == i {
      InRunOpen(b, p, i, d, s, s);
    } else {
      BackToRun(b, p, i, d, v, q, k - 1);
      RunExtends(b, p, i, d, q, s);
    }
  }

  /** Conversely a square of the run looks back to `i` on the seeded board, within the budget `k`. */
  lemma {:induction false} RunToBack(b: Board, p: Player, i: Sq, d: Direction, v: Board, cur: Sq, n: Sq, s: Sq, k: nat)
    requires SeedView(b, p, i, v) && b.Get(i).None?
    requires Next(cur, d) == Some(n) && InRun(b, p, cur, d, s)
    requires ClosedBy(Cells(v, n, d.Reverse()), p, k)
    requires k + Ahead(n, d) - Ahead(s, d) <= 5
    ensures ClosedBy(Cells(v, s, d.Reverse()), p, 5)
    decreases Ahead(cur, d)
  {
    if n == s {
      ClosedWithin(Cells(v, s, d.Reverse()), p, k, 5);
    } else {
      var n2 := RunAdvance(b, p, cur, d, n, s);
      BackStep(b, p, i, d, v, n, n2, k);
      RunToBack(b, p, i, d, v, n, n2, s, k + 1);
    }
  }

  /** A run that goes on past `n` holds `n` and goes on from the square after it. */
  lemma RunAdvance(b: Board, p: Player, cur: Sq, d: Direction, n: Sq, s: Sq) returns (n2: Sq)
    requires Next(cur, d) == Some(n) && InRun(b, p, cur, d, s) && n != s
    ensures b.Get(n) == Some(p.Opponent()) && InRun(b, p, n, d, s) && Next(n, d) == Some(n2)
    ensures Ahead(cur, d) == Ahead(n, d) + 1 && Ahead(n, d) == Ahead(n2, d) + 1
  {
    InRunOpen(b, p, cur, d, n, s);
    AheadNext(cur, d, n);
    n2 := Next(n, d).value;
    InRunOpen(b, p, n, d, n2, s);
    AheadNext(n, d, n2);
  }

  /** Looking back from one square further along the run takes one step more. */
  lemma BackStep(b: Board, p: Player, i: Sq, d: Direction, v: Board, n: Sq, n2: Sq, k: nat)
    requires SeedView(b, p, i, v) && b.Get(i).None? && b.Get(n) == Some(p.Opponent()) && Next(n, d) == Some(n2)
    requires ClosedBy(Cells(v, n, d.Reverse()), p, k)
    ensures ClosedBy(Cells(v, n2, d.Reverse()), p, k + 1)
  {
    assert v.Get(n) == Some(p.Opponent());
    NextReverse(n, d);
    ClosedStep(v, p, n2, d.Reverse(), n, k + 1);
  }

  /** A square of a closed run after `i` looks back to `i` on the seeded board. */
  lemma RunFromClosed(b: Board, p: Player, i: Sq, d: Direction, x: Sq)
    requires b.Disjoint() && b.Get(i).None? && InRun(b, p, i, d, x) && ClosedBy(Cells(b, i, d), p, 6)
    ensures Seeded(b, p, i).Get(x) == Some(p.Opponent()) && ClosedBy(Cells(Seeded(b, p, i), x, d.Reverse()), p, 5)
  {
    var n := Next(i, d).value;
    RunSquareShape(b, p, i, d, x);
    SeededGet(b, p, i, x);
    ClosedPastRun(b, p, i, d, x, 6);
    AheadNext(x, d, Next(x, d).value);
    AheadBound(i, d);
    AheadNext(i, d, n);
    NextReverse(i, d);
    SeededGet(b, p, i, i);
    ClosedStep(Seeded(b, p, i), p, n, d.Reverse(), i, 0);
    SeededView(b, p, i);
    RunToBack(b, p, i, d, Seeded(b, p, i), i, n, x, 0);
  }

  /**
   * The run grown from the seed `i` holds only squares of the run after `i`,
   * and, when that run is closed, all of them.
   */
  lemma RunSquare(b: Board, p: Player, i: Sq, d: Direction, x: Sq, r: bv64)
    requires b.Disjoint() && b.Get(i).None? && r == Propagate(Single(i), d, b.Disks(p.Opponent()))
    ensures Bit(r, x) ==> InRun(b, p, i, d, x)
    ensures InRun(b, p, i, d, x) && ClosedBy(Cells(b, i, d), p, 6) ==> Bit(r, x)
  {
    SeededRun(b, p, i, d, x, r, b.Disks(p.Opponent()));
    LooksBack(b, p, i, d, x);
  }

  /** On the seeded board, looking back to `i` over opponent discs is lying in the run after `i`, when that run is closed. */
  predicate SeesSeed(b: Board, p: Player, i: Sq, d: Direction, x: Sq) {
    Seeded(b, p, i).Get(x) == Some(p.Opponent()) && ClosedBy(Cells(Seeded(b, p, i), x, d.Reverse()), p, 5)
  }

  lemma LooksBack(b: Board, p: Player, i: Sq, d: Direction, x: Sq)
    requires b.Disjoint() && b.Get(i).None?
    ensures SeesSeed(b, p, i, d, x) ==> InRun(b, p, i, d, x)
    ensures InRun(b, p, i, d, x) && ClosedBy(Cells(b, i, d), p, 6) ==> SeesSeed(b, p, i, d, x)
  {
    SeesRun(b, p, i, d, x);
    RunSees(b, p, i, d, x);
  }

  lemma SeesRun(b: Board, p: Player, i: Sq, d: Direction, x: Sq)
    requires b.Disjoint() && b.Get(i).None?
    ensures SeesSeed(b, p, i, d, x) ==> InRun(b, p, i, d, x)
  {
    if SeesSeed(b, p, i, d, x) {
      SeededView(b, p, i);
      BackToRun(b, p, i, d, Seeded(b, p, i), x, 5);
    }
  }

  lemma RunSees(b: Board, p: Player, i: Sq, d: Direction, x: Sq)
    requires b.Disjoint() && b.Get(i).None?
    ensures InRun(b, p, i, d, x) && ClosedBy(Cells(b, i, d), p, 6) ==> SeesSeed(b, p, i, d, x)
  {
    if InRun(b, p, i, d, x) && ClosedBy(Cells(b, i, d), p, 6) {
      RunFromClosed(b, p, i, d, x);
    }
  }

  /** The run grown from the seed is the one `RunBits` describes on the seeded board. */
  lemma SeededRun(b: Board, p: Player, i: Sq, d: Direction, x: Sq, r: bv64, opp: bv64)
    requires b.Disjoint() && b.Get(i).None? && opp == b.Disks(p.Opponent()) && r == Propagate(Single(i), d, opp)
    ensures Bit(r, x) == SeesSeed(b, p, i, d, x)
  {
    SeededDisks(b, p, i);
    PropagateRun(Single(i), opp, d, r);
    RunBits(Seeded(b, p, i), p, d, 5, x, Single(i), opp, r);
  }

  /** Some square of a nonempty set. */
  lemma SomeBit(c: bv64) returns (t: Sq)
    requires c != 0
    ensures Bit(c, t)
  {
    var l := c & (!c + 1);
    LowestIsSingle(c);
    t := TrailingZeros(l);
    LowestIn(c, l, t);
  }

  /** A square of a shifted set has a square of the set behind it. */
  lemma ShiftedFrom(x: bv64, y: bv64, t: Sq, d: Direction)
    requires y == Shift(x, d)
    ensures Bit(y, t) ==> Next(t, d.Reverse()).Some? && Bit(x, Next(t, d.Reverse()).value)
  {
    var o := Next(t, d.Reverse());
    if o.None? {
      ShiftAtEdge(x, y, t, d);
    } else {
      ShiftAt(x, y, t, d, o.value);
    }
  }

  /** The mover's discs with `i` added hold `t` exactly when `t` is `i` or a disc of `p`. */
  lemma MineBit(b: Board, p: Player, i: Sq, my: bv64, t: Sq)
    requires b.Disjoint() && my == b.Disks(p) | Single(i)
    ensures Bit(my, t) == (t == i || b.Get(t) == Some(p))
  {
    OrAt(b.Disks(p), Single(i), my, t);
    BitSingle(i, t);
    CasesAt(b, p, t, b.Disks(p), b.Disks(p.Opponent()), b.Empty());
  }

  /** A square found by the closing test is a disc of `my` right after a square of the run. */
  lemma WitnessSquares(r: bv64, d: Direction, my: bv64, sh: bv64, c: bv64) returns (q: Sq, t: Sq)
    requires sh == Shift(r, d) && c == sh & my && c != 0
    ensures Next(q, d) == Some(t) && Bit(r, q) && Bit(my, t)
  {
    t := SomeBit(c);
    AndAt(sh, my, c, t);
    ShiftedFrom(r, sh, t, d);
    q := Next(t, d.Reverse()).value;
    Behind(t, d, q);
  }

  /** A disc of `my` right after a square of the run makes the closing test succeed. */
  lemma WitnessHit(r: bv64, d: Direction, my: bv64, sh: bv64, c: bv64, q: Sq, t: Sq)
    requires sh == Shift(r, d) && c == sh & my
    requires Next(q, d) == Some(t) && Bit(r, q) && Bit(my, t)
    ensures c != 0
  {
    NextReverse(q, d);
    ShiftAt(r, sh, t, d, q);
    AndAt(sh, my, c, t);
  }

  /** A disc of `p` (or `i` itself) right after a square of the run from `i` closes that run. */
  lemma ClosedFromEnd(b: Board, p: Player, i: Sq, d: Direction, q: Sq, t: Sq)
    requires InRun(b, p, i, d, q) && Next(q, d) == Some(t) && (t == i || b.Get(t) == Some(p))
    ensures ClosedBy(Cells(b, i, d), p, 6)
  {
    RunSquareShape(b, p, i, d, q);
    AheadNext(q, d, t);
    AheadBound(i, d);
    RunEndCloses(b, p, i, d, q, t, 6);
  }

  /** Every square of `r` lies in the run after `i`. */
  ghost predicate RunCovered(b: Board, p: Player, i: Sq, d: Direction, r: bv64) {
    forall x: Sq {:trigger Bit(r, x)} :: Bit(r, x) ==> InRun(b, p, i, d, x)
  }

  /** When the run after `i` is closed, `r` holds every square of it. */
  ghost predicate RunCovers(b: Board, p: Player, i: Sq, d: Direction, r: bv64) {
    ClosedBy(Cells(b, i, d), p, 6) ==> forall x: Sq {:trigger Bit(r, x)} :: InRun(b, p, i, d, x) ==> Bit(r, x)
  }

  /** `my` holds the discs of `p` and the square `i`. */
  ghost predicate MineMask(b: Board, p: Player, i: Sq, my: bv64) {
    forall t: Sq {:trigger Bit(my, t)} :: Bit(my, t) == (t == i || b.Get(t) == Some(p))
  }

  lemma RunCoveredBy(b: Board, p: Player, i: Sq, d: Direction, r: bv64)
    requires b.Disjoint() && b.Get(i).None? && r == Propagate(Single(i), d, b.Disks(p.Opponent()))
    ensures RunCovered(b, p, i, d, r)
  {
    forall x: Sq | Bit(r, x) ensures InRun(b, p, i, d, x) {
      RunSquare(b, p, i, d, x, r);
    }
  }

  lemma RunCoversBy(b: Board, p: Player, i: Sq, d: Direction, r: bv64)
    requires b.Disjoint() && b.Get(i).None? && r == Propagate(Single(i), d, b.Disks(p.Opponent()))
    ensures RunCovers(b, p, i, d, r)
  {
    if ClosedBy(Cells(b, i, d), p, 6) {
      forall x: Sq | InRun(b, p, i, d, x) ensures Bit(r, x) {
        RunSquare(b, p, i, d, x, r);
      }
    }
  }

  lemma MineMaskBy(b: Board, p: Player, i: Sq, my: bv64)
    requires b.Disjoint() && my == b.Disks(p) | Single(i)
    ensures MineMask(b, p, i, my)
  {
    forall t: Sq ensures Bit(my, t) == (t == i || b.Get(t) == Some(p)) {
      MineBit(b, p, i, my, t);
    }
  }

  /** A closed run after `i` that is not empty ends on a square followed by a disc of `p`. */
  lemma ClosedRunEnd(b: Board, p: Player, i: Sq, d: Direction, s: Sq) returns (q: Sq, t: Sq)
    requires ClosedBy(Cells(b, i, d), p, 6) && InRun(b, p, i, d, s)
    ensures InRun(b, p, i, d, q) && Next(q, d) == Some(t) && b.Get(t) == Some(p)
  {
    var n := Next(i, d).value;
    InRunOpen(b, p, i, d, n, s);
    q, t := RunLast(b, p, i, d, n, 6);
  }

  /** The closing test of the pass succeeds only when the run after `i` is closed by a disc of `p` ... */
  lemma CloseFromWitness(b: Board, p: Player, i: Sq, d: Direction, r: bv64, my: bv64, sh: bv64, c: bv64)
    requires RunCovered(b, p, i, d, r) && MineMask(b, p, i, my)
    requires sh == Shift(r, d) && c == sh & my
    ensures c != 0 ==> ClosedBy(Cells(b, i, d), p, 6)
  {
    if c != 0 {
      var q, t := WitnessSquares(r, d, my, sh, c);
      ClosedFromEnd(b, p, i, d, q, t);
    }
  }

  /** ... and it succeeds whenever that run is closed and not empty. */
  lemma WitnessFromClose(b: Board, p: Player, i: Sq, d: Direction, s: Sq, r: bv64, my: bv64, sh: bv64, c: bv64)
    requires RunCovers(b, p, i, d, r) && MineMask(b, p, i, my)
    requires sh == Shift(r, d) && c == sh & my
    ensures ClosedBy(Cells(b, i, d), p, 6) && InRun(b, p, i, d, s) ==> c != 0
  {
    if ClosedBy(Cells(b, i, d), p, 6) && InRun(b, p, i, d, s) {
      var q, t := ClosedRunEnd(b, p, i, d, s);
      WitnessHit(r, d, my, sh, c, q, t);
    }
  }

  lemma CaptureCloses(seed: bv64, my: bv64, opp: bv64, d: Direction, r: bv64, x: bv64)
    requires r == Propagate(seed, d, opp) && x == DirCapture(seed, my, opp, d)
    ensures x == Closing(r, d, my)
  {}

  /** The pass keeps the run when the closing test finds a disc of `p`, and nothing otherwise. */
  lemma ClosingIs(r: bv64, d: Direction, my: bv64, sh: bv64, c: bv64, x: bv64)
    requires sh == Shift(r, d) && c == sh & my && x == Closing(r, d, my)
    ensures c != 0 ==> x == r
    ensures c == 0 ==> x == 0
  {}

  /**
   * One direction pass of `captured_disks` for `p` playing the empty square
   * `i` takes a square exactly when it lies in the unbroken run of opponent
   * discs right after `i` and that run is closed by a disc of `p` within six
   * steps.
   */
  lemma DirCaptureBit(b: Board, p: Player, i: Sq, d: Direction, s: Sq)
    requires b.Disjoint() && b.Get(i).None?
    ensures Bit(DirCapture(Single(i), b.Disks(p) | Single(i), b.Disks(p.Opponent()), d), s)
         == (ClosedBy(Cells(b, i, d), p, 6) && InRun(b, p, i, d, s))
  {
    var my := b.Disks(p) | Single(i);
    var opp := b.Disks(p.Opponent());
    var r := Propagate(Single(i), d, opp);
    var x := DirCapture(Single(i), my, opp, d);
    CaptureCloses(Single(i), my, opp, d, r, x);
    RunCoveredBy(b, p, i, d, r);
    RunCoversBy(b, p, i, d, r);
    MineMaskBy(b, p, i, my);
    ClosingBit(b, p, i, d, s, r, my, x);
  }

  /** The run kept by the closing test, bit by bit, from the facts about the run and the mover's discs. */
  lemma ClosingBit(b: Board, p: Player, i: Sq, d: Direction, s: Sq, r: bv64, my: bv64, x: bv64)
    requires RunCovered(b, p, i, d, r) && RunCovers(b, p, i, d, r) && MineMask(b, p, i, my)
    requires x == Closing(r, d, my)
    ensures Bit(x, s) == (ClosedBy(Cells(b, i, d), p, 6) && InRun(b, p, i, d, s))
  {
    var sh := Shift(r, d);
    var c := sh & my;
    ClosingIs(r, d, my, sh, c, x);
    if c != 0 {
      ClosingKept(b, p, i, d, s, r, my, sh, c);
    } else {
      WitnessFromClose(b, p, i, d, s, r, my, sh, c);
      BitZero(x, s);
    }
  }

  /** When the closing test succeeds the run holds exactly the squares of the closed run. */
  lemma ClosingKept(b: Board, p: Player, i: Sq, d: Direction, s: Sq, r: bv64, my: bv64, sh: bv64, c: bv64)
    requires RunCovered(b, p, i, d, r) && RunCovers(b, p, i, d, r) && MineMask(b, p, i, my)
    requires sh == Shift(r, d) && c == sh & my && c != 0
    ensures Bit(r, s) == (ClosedBy(Cells(b, i, d), p, 6) && InRun(b, p, i, d, s))
  {
    CloseFromWitness(b, p, i, d, r, my, sh, c);
    RunAt(b, p, i, d, s, r);
  }

  /** When the run after `i` is closed, `r` holds a square exactly when the run does. */
  lemma RunAt(b: Board, p: Player, i: Sq, d: Direction, s: Sq, r: bv64)
    requires RunCovered(b, p, i, d, r) && RunCovers(b, p, i, d, r) && ClosedBy(Cells(b, i, d), p, 6)
    ensures Bit(r, s) == InRun(b, p, i, d, s)
  {
    assert Bit(r, s) ==> InRun(b, p, i, d, s);
  }

  lemma BitZero(x: bv64, s: Sq)
    requires x == 0
    ensures !Bit(x, s)
  {}

  /** The direction pass and the ray walk of `valid_moves_slow` take the same squares. */
  lemma DirectionAgree(b: Board, p: Player, i: Sq, d: Direction, s: Sq)
    requires b.Disjoint() && b.Get(i).None?
    ensures Bit(DirCapture(Single(i), b.Disks(p) | Single(i), b.Disks(p.Opponent()), d), s) == Bit(RayFlips(b, p, i, d, 0), s)
  {
    DirCaptureBit(b, p, i, d, s);
    SlowRayBit(b, p, i, d, s);
  }

  // ------------------------------------------------------- the whole compass

  lemma XorBit(x: bv64, y: bv64, t: Sq)
    ensures Bit(x ^ y, t) == (Bit(x, t) != Bit(y, t))
  {}

  /** Two different disc sets differ on some square. */
  lemma DiffBit(x: bv64, y: bv64) returns (t: Sq)
    requires x != y
    ensures Bit(x, t) != Bit(y, t)
  {
    t := SomeBit(x ^ y);
    XorBit(x, y, t);
  }

  /** Unions of sets that agree on `s` agree on `s`. */
  lemma UnionAgree(u: bv64, v: bv64, w: bv64, x: bv64, y: bv64, z: bv64, s: Sq)
    requires w == u | v && z == x | y
    requires Bit(u, s) == Bit(x, s) && Bit(v, s) == Bit(y, s)
    ensures Bit(w, s) == Bit(z, s)
  {
    OrAt(u, v, w, s);
    OrAt(x, y, z, s);
  }

  /** The direction pass `d` from `seed` agrees on `s` with the ray walk from `i`. */
  predicate PassAgrees(b: Board, p: Player, i: Sq, s: Sq, seed: bv64, my: bv64, opp: bv64, d: Direction) {
    Bit(DirCapture(seed, my, opp, d), s) == Bit(RayFlips(b, p, i, d, 0), s)
  }

  /** Every direction pass from `seed` agrees on `s` with the ray walk from `i`. */
  ghost predicate PassesAgree(b: Board, p: Player, i: Sq, s: Sq, seed: bv64, my: bv64, opp: bv64) {
    forall d: Direction {:trigger PassAgrees(b, p, i, s, seed, my, opp, d)} :: PassAgrees(b, p, i, s, seed, my, opp, d)
  }

  /** The union after `k` directions is the union after `k - 1` with the `k`-th pass added. */
  lemma CaptureUpToStep(seed: bv64, my: bv64, opp: bv64, k: nat, d: Direction, m: bv64, m1: bv64, dc: bv64)
    requires 0 < k <= |CompassRose| && d == CompassRose[k - 1]
    requires m == CaptureUpTo(seed, my, opp, k) && m1 == CaptureUpTo(seed, my, opp, k - 1) && dc == DirCapture(seed, my, opp, d)
    ensures m == m1 | dc
  {}

  /**
   * When every direction pass agrees with the ray walk on `s`, so do
   * `captured_disks` and `flip_candidate` after `k` directions.
   */
  lemma {:induction false} CaptureUpToBit(b: Board, p: Player, i: Sq, s: Sq, k: nat, seed: bv64, my: bv64, opp: bv64, m: bv64, f: bv64)
    requires k <= |CompassRose| && PassesAgree(b, p, i, s, seed, my, opp)
    requires m == CaptureUpTo(seed, my, opp, k) && f == FlipCandidate(b, p, i, k)
    ensures Bit(m, s) == Bit(f, s)
  {
    if k > 0 {
      var d := CompassRose[k - 1];
      var m1 := CaptureUpTo(seed, my, opp, k - 1);
      var dc := DirCapture(seed, my, opp, d);
      var f1 := FlipCandidate(b, p, i, k - 1);
      var r := RayFlips(b, p, i, d, 0);
      CaptureUpToStep(seed, my, opp, k, d, m, m1, dc);
      FlipCandidateStep(b, p, i, k - 1, f1, r);
      CaptureUpToBit(b, p, i, s, k - 1, seed, my, opp, m1, f1);
      assert PassAgrees(b, p, i, s, seed, my, opp, d);
      UnionAgree(m1, dc, m, f1, r, f, s);
    }
  }

  /** On an empty square, every direction pass from the placed disc agrees with the ray walk. */
  lemma AllPassesAgree(b: Board, p: Player, i: Sq, s: Sq)
    requires b.Disjoint() && b.Get(i).None?
    ensures PassesAgree(b, p, i, s, Single(i), b.Disks(p) | Single(i), b.Disks(p.Opponent()))
  {
    forall d: Direction {:trigger PassAgrees(b, p, i, s, Single(i), b.Disks(p) | Single(i), b.Disks(p.Opponent()), d)}
      ensures PassAgrees(b, p, i, s, Single(i), b.Disks(p) | Single(i), b.Disks(p.Opponent()), d)
    {
      DirectionAgree(b, p, i, d, s);
    }
  }

  /** Every direction pass from `seed` agrees with the ray walk from `i` on every square. */
  ghost predicate EverywhereAgree(b: Board, p: Player, i: Sq, seed: bv64, my: bv64, opp: bv64) {
    forall s: Sq {:trigger PassesAgree(b, p, i, s, seed, my, opp)} :: PassesAgree(b, p, i, s, seed, my, opp)
  }

  /** On an empty square, the passes from the placed disc agree with the ray walk everywhere. */
  lemma PlacedAgrees(b: Board, p: Player, i: Sq)
    requires b.Disjoint() && b.Get(i).None?
    ensures EverywhereAgree(b, p, i, Single(i), b.Disks(p) | Single(i), b.Disks(p.Opponent()))
  {
    forall s: Sq {:trigger PassesAgree(b, p, i, s, Single(i), b.Disks(p) | Single(i), b.Disks(p.Opponent()))}
      ensures PassesAgree(b, p, i, s, Single(i), b.Disks(p) | Single(i), b.Disks(p.Opponent()))
    {
      AllPassesAgree(b, p, i, s);
    }
  }

  /** When every direction pass agrees with the ray walk on `s`, the whole compass rose does. */
  lemma CaptureAllBit(b: Board, p: Player, i: Sq, s: Sq, seed: bv64, my: bv64, opp: bv64)
    requires PassesAgree(b, p, i, s, seed, my, opp)
    ensures Bit(CaptureAll(seed, my, opp), s) == Bit(FlipCandidate(b, p, i, |CompassRose|), s)
  {
    CaptureUpToBit(b, p, i, s, |CompassRose|, seed, my, opp, CaptureAll(seed, my, opp), FlipCandidate(b, p, i, |CompassRose|));
  }

  /** Passes that agree with the ray walk everywhere capture exactly the `flip_candidate` discs. */
  lemma CaptureAllIsFlips(b: Board, p: Player, i: Sq, seed: bv64, my: bv64, opp: bv64)
    requires EverywhereAgree(b, p, i, seed, my, opp)
    ensures CaptureAll(seed, my, opp) == FlipCandidate(b, p, i, |CompassRose|)
  {
    var c := CaptureAll(seed, my, opp);
    var f := FlipCandidate(b, p, i, |CompassRose|);
    if c != f {
      var t := DiffBit(c, f);
      assert PassesAgree(b, p, i, t, seed, my, opp);
      CaptureAllBit(b, p, i, t, seed, my, opp);
    }
  }

  /** The captured set is the union of the passes seeded by the placed disc. */
  lemma CapturedDef(b: Board, p: Player, i: Sq, seed: bv64, my: bv64, opp: bv64)
    requires seed == Single(i) && my == b.Disks(p) | Single(i) && opp == b.Disks(p.Opponent())
    ensures Captured(b, p, i) == CaptureAll(seed, my, opp)
  {}

  /** The passes seeded by the placed disc capture the `flip_candidate` discs. */
  lemma PlacedCapture(b: Board, p: Player, i: Sq)
    requires b.Disjoint() && b.Get(i).None?
    ensures CaptureAll(Single(i), b.Disks(p) | Single(i), b.Disks(p.Opponent())) == FlipCandidate(b, p, i, |CompassRose|)
  {
    PlacedAgrees(b, p, i);
    CaptureAllIsFlips(b, p, i, Single(i), b.Disks(p) | Single(i), b.Disks(p.Opponent()));
  }

  /**
   * On an empty square of a board without overlaps, the discs that
   * `place_at_unchecked` captures are the `flip_candidate` of
   * `valid_moves_slow`.
   */
  lemma CapturedIsFlips(b: Board, p: Player, i: Sq)
    requires b.Disjoint() && b.Get(i).None?
    ensures Captured(b, p, i) == FlipCandidate(b, p, i, |CompassRose|)
  {
    PlacedCapture(b, p, i);
    CapturedDef(b, p, i, Single(i), b.Disks(p) | Single(i), b.Disks(p.Opponent()));
  }

  /** `flip_discs` on two disc sets turns both over on `c`. */
  lemma FlipPairValue(x: bv64, y: bv64, c: bv64, r: Board)
    requires FlipPair(x, y, c) == Some(r)
    ensures r.black == x ^ c && r.white == y ^ c
  {}

  /** `flip_discs` turns both disc sets over on `c`. */
  lemma Flipped(b: Board, c: bv64, r: Board)
    requires b.FlipDiscs(c) == Some(r)
    ensures r.black == b.black ^ c && r.white == b.white ^ c
  {
    FlipPairValue(b.black, b.white, c, r);
  }

  /** Turning over `c` in equal disc sets gives equal disc sets. */
  lemma XorSame(x: bv64, y: bv64, c: bv64, z: bv64)
    requires x == y && z == x ^ c
    ensures z == y ^ c
  {}

  /** A board is the pair of its disc sets. */
  lemma BoardOf(r: Board, x: bv64, y: bv64)
    requires r.black == x && r.white == y
    ensures r == Board(x, y)
  {}

  /** Turning over `c` in a board holding `x` and `y` gives the board `Board(x ^ c, y ^ c)`. */
  lemma TurnedOver(placed: Board, x: bv64, y: bv64, c: bv64, r: Board)
    requires placed.black == x && placed.white == y
    requires r.black == placed.black ^ c && r.white == placed.white ^ c
    ensures r == Board(x ^ c, y ^ c)
  {
    XorSame(placed.black, x, c, r.black);
    XorSame(placed.white, y, c, r.white);
    BoardOf(r, x ^ c, y ^ c);
  }

  /** Flipping `c` on a board whose players hold `my` and `opp` gives the board `Assemble` makes. */
  lemma AssembleFrom(p: Player, placed: Board, my: bv64, opp: bv64, c: bv64, r: Board)
    requires placed.Disks(p) == my && placed.Disks(p.Opponent()) == opp
    requires r.black == placed.black ^ c && r.white == placed.white ^ c
    ensures r == Assemble(p, my, opp, c)
  {
    if p == Black {
      TurnedOver(placed, my, opp, c, r);
    } else {
      TurnedOver(placed, opp, my, c, r);
    }
  }

  /** `set` followed by `flip_discs` builds the board that `Assemble` makes from the mover's discs with `i` added. */
  lemma SetThenFlip(b: Board, p: Player, i: Sq, placed: Board, c: bv64, r: Board)
    requires b.Set(i, p) == Some(placed) && placed.FlipDiscs(c) == Some(r)
    ensures r == Assemble(p, b.Disks(p) | Single(i), b.Disks(p.Opponent()), c)
  {
    Flipped(placed, c, r);
    AssembleFrom(p, placed, b.Disks(p) | Single(i), b.Disks(p.Opponent()), c, r);
  }

  /** `Assemble` depends on the flipped set alone. */
  lemma AssembleSame(p: Player, my: bv64, opp: bv64, c: bv64, d: bv64)
    requires c == d
    ensures Assemble(p, my, opp, c) == Assemble(p, my, opp, d)
  {}

  /** The board `place_at` builds depends on the captured set alone. */
  lemma PlaceWith(b: Board, p: Player, i: Sq, c: bv64)
    requires Captured(b, p, i) == c
    ensures PlaceAt(b, p, i) == Assemble(p, b.Disks(p) | Single(i), b.Disks(p.Opponent()), c)
  {
    AssembleSame(p, b.Disks(p) | Single(i), b.Disks(p.Opponent()), Captured(b, p, i), c);
  }

  /** Playing an empty square makes the same board on the fast and the slow path. */
  lemma PlaceIsSlow(b: Board, p: Player, i: Sq)
    requires b.Disjoint() && b.Get(i).None?
    ensures PlaceAt(b, p, i) == SlowBoard(b, p, i)
  {
    var fc := FlipCandidate(b, p, i, |CompassRose|);
    CapturedIsFlips(b, p, i);
    PlaceWith(b, p, i, fc);
    SetThenFlip(b, p, i, b.Set(i, p).value, fc, SlowBoard(b, p, i));
  }

  /** A square is listed from a mask in ascending order exactly when it is in the mask. */
  lemma AscendingMember(m: bv64, j: Sq)
    ensures j in SquaresIn(m, Ascending) <==> Bit(m, j)
  {
    SquaresInMembers(m, Ascending);
    AscendingShape();
  }

  /** `Actions` pairs each listed square with the board its move makes. */
  lemma ActionsMember(b: Board, p: Player, s: seq<Sq>, a: Action)
    ensures a in Actions(b, p, s) <==> a.at in s && a.board == PlaceAt(b, p, a.at)
  {
    var acts := Actions(b, p, s);
    if a in acts {
      var k :| 0 <= k < |acts| && acts[k] == a;
      assert s[k] in s;
    }
    if a.at in s && a.board == PlaceAt(b, p, a.at) {
      var k :| 0 <= k < |s| && s[k] == a.at;
      assert acts[k] == a;
    }
  }

  /** An action is in the fast list exactly when its square is in the mask and its board is the one the move makes. */
  lemma FastMember(b: Board, p: Player, a: Action)
    ensures a in FastMoves(b, p) <==> Bit(MovesMask(b, p), a.at) && a.board == PlaceAt(b, p, a.at)
  {
    ActionsMember(b, p, SquaresIn(MovesMask(b, p), Ascending), a);
    AscendingMember(MovesMask(b, p), a.at);
  }

  /** An action is in the slow list exactly when the closure yields it for its own square. */
  lemma SlowMember(b: Board, p: Player, a: Action)
    ensures a in SlowMoves(b, p) <==> SlowEntry(b, p, a.at) == Some(a)
  {
    var es := SlowEntries(b, p, Positions);
    SomesMembers(es, a);
    PositionsShape();
    if Some(a) in es {
      var k :| 0 <= k < |es| && es[k] == Some(a);
      SlowEntryAt(b, p, Positions[k]);
    }
    if SlowEntry(b, p, a.at) == Some(a) {
      assert a.at in Positions;
      var k :| 0 <= k < |Positions| && Positions[k] == a.at;
      assert es[k] == Some(a);
    }
  }

  /**
   * `valid_moves` and `valid_moves_slow` offer the same actions: the same
   * squares, each with the same board.
   */
  lemma SameMoves(b: Board, p: Player, a: Action)
    requires b.Disjoint()
    ensures a in FastMoves(b, p) <==> a in SlowMoves(b, p)
  {
    FastMember(b, p, a);
    SlowMember(b, p, a);
    SlowEntryLegal(b, p, a.at, MovesMask(b, p), FlipCandidate(b, p, a.at, |CompassRose|));
    if b.Get(a.at).None? {
      PlaceIsSlow(b, p, a.at);
    }
  }
}
