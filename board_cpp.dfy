/**
 * board.hpp: the C++ twin of the Rust bitboard. The board is a class with two
 * 64-bit disc sets that `flip_discs` and `swap_discs` change in place; the
 * moves come from an eight-row shift table that is walked in its own order
 * (right shifts first). Row 6 of the table, the left shift by 8, carries the
 * mask 0x7f7f7f7f7f7f7f7f, which also clears the A file; every other row
 * agrees with the Rust `Shift`. The model keeps that row as written
 * (`Written`) and states the rest of the board against the evidently
 * intended table (`Intended`), where row 6 is the plain shift by 8 of the
 * Rust `North`.
 */
module BoardCpp {
  import opened Wrappers
  import Bitboard
  import Moves

  type Sq = Bitboard.Sq
  type Player = Bitboard.Player

  /** A row of the shift table. */
  type Row = i: nat | i < 8

  /** The table of board.hpp line 89 as written, or with row 6 as evidently intended. */
  datatype Table = Written | Intended

  /** `shift(x, i)`: right by 1, 9, 8, 7 for rows 0-3, left by 1, 9, 8, 7 for rows 4-7, then the row's mask. */
  function Shift(x: bv64, i: Row, t: Table): bv64 {
    match i
    case 0 => (x >> 1) & 0x7f7f_7f7f_7f7f_7f7f
    case 1 => (x >> 9) & 0x007f_7f7f_7f7f_7f7f
    case 2 => (x >> 8) & 0xffff_ffff_ffff_ffff
    case 3 => (x >> 7) & 0x00fe_fefe_fefe_fefe
    case 4 => (x << 1) & 0xfefe_fefe_fefe_fefe
    case 5 => (x << 9) & 0xfefe_fefe_fefe_fe00
    case 6 => (x << 8) & (if t == Written then 0x7f7f_7f7f_7f7f_7f7f else 0xffff_ffff_ffff_ffff)
    case 7 => (x << 7) & 0x7f7f_7f7f_7f7f_7f00
  }

  /** The Rust direction each row moves a disc set in. */
  function Heading(i: Row): Bitboard.Direction {
    match i
    case 0 => Bitboard.East
    case 1 => Bitboard.Southeast
    case 2 => Bitboard.South
    case 3 => Bitboard.Southwest
    case 4 => Bitboard.West
    case 5 => Bitboard.Northwest
    case 6 => Bitboard.North
    case 7 => Bitboard.Northeast
  }

  /** With the intended row 6, every row is the Rust shift in its heading. */
  lemma IntendedIsRust(x: bv64, i: Row)
    ensures Shift(x, i, Intended) == Bitboard.Shift(x, Heading(i))
  {}

  /** As written, row 6 is the Rust `North` with the A file cleared; the other rows are unchanged. */
  lemma WrittenRows(x: bv64, i: Row)
    ensures i != 6 ==> Shift(x, i, Written) == Shift(x, i, Intended)
    ensures i == 6 ==> Shift(x, i, Written) == Bitboard.Shift(x, Bitboard.North) & !Bitboard.AFile
  {}


  /**
   * The shift a row of the table makes: the Rust shift in a compass
   * direction, or the left shift by 8 with the mask 0x7f7f7f7f7f7f7f7f of
   * row 6 as written.
   */
  datatype Line = Compass(d: Bitboard.Direction) | MaskedNorth

  /** The shift of row `i` of table `t`. */
  function RowLine(i: Row, t: Table): Line {
    if i == 6 && t == Written then MaskedNorth else Compass(Heading(i))
  }

  /** `shift(x, i)` for the row whose shift is `l`. */
  function LineShift(x: bv64, l: Line): bv64 {
    match l
    case Compass(d) => Bitboard.Shift(x, d)
    case MaskedNorth => (x << 8) & 0x7f7f_7f7f_7f7f_7f7f
  }

  /** Row by row, `LineShift` is the table of board.hpp. */
  lemma RowLineShift(x: bv64, i: Row, t: Table)
    ensures LineShift(x, RowLine(i, t)) == Shift(x, i, t)
  {
    if i == 6 && t == Written {
      assert RowLine(i, t) == MaskedNorth;
    } else {
      assert RowLine(i, t) == Compass(Heading(i));
      ShiftCompass(x, Heading(i));
      IntendedIsRust(x, i);
      WrittenRows(x, i);
      assert Shift(x, i, t) == Shift(x, i, Intended);
    }
  }

  lemma ShiftCompass(x: bv64, d: Bitboard.Direction)
    ensures LineShift(x, Compass(d)) == Bitboard.Shift(x, d)
  {}

  /** `x |= shift(x, i) & opp` (a Rust extension step in a compass row). */
  function Grow(x: bv64, l: Line, opp: bv64): bv64 {
    match l
    case Compass(d) => Bitboard.Extend(x, d, opp)
    case MaskedNorth => x | (LineShift(x, l) & opp)
  }

  /** `x` after `j` passes of the inner loop. */
  function GrowBy(x: bv64, l: Line, opp: bv64, j: nat): bv64 {
    if j == 0 then x else Grow(GrowBy(x, l, opp, j - 1), l, opp)
  }

  /** `x = shift(seed, i) & opp`: the seed step. */
  function Start(seed: bv64, l: Line, opp: bv64): bv64 {
    LineShift(seed, l) & opp
  }

  /** The run from `seed` along a row: the seed step and five passes of the inner loop. */
  function Run(seed: bv64, l: Line, opp: bv64): bv64 {
    GrowBy(Start(seed, l, opp), l, opp, 5)
  }

  /** `shift(x, i) & empty`: the empty squares just past `x` along the row. */
  function Ends(x: bv64, l: Line, empty: bv64): bv64 {
    LineShift(x, l) & empty
  }

  /** The row's contribution to `moves`: the empty squares that end a run from `me`. */
  function RowMoves(me: bv64, opp: bv64, empty: bv64, l: Line): bv64 {
    Ends(Run(me, l, opp), l, empty)
  }

  /** `moves` after the first `k` rows of `valid_moves`. */
  function MovesUpTo(me: bv64, opp: bv64, empty: bv64, t: Table, k: nat): bv64
    requires k <= 8
  {
    if k == 0 then 0 else MovesUpTo(me, opp, empty, t, k - 1) | RowMoves(me, opp, empty, RowLine(k - 1, t))
  }

  /** `valid_moves(p)` on the disc sets `black` and `white`. */
  function MovesOf(black: bv64, white: bv64, p: Player, t: Table): bv64 {
    var me := if p == Bitboard.Black then black else white;
    var opp := if p == Bitboard.Black then white else black;
    MovesUpTo(me, opp, Bitboard.EmptyOf(black, white), t, 8)
  }

  /** `x` when the square after it along the row holds a disc of `me`, else nothing. */
  function LineClosing(x: bv64, l: Line, me: bv64): bv64 {
    match l
    case Compass(d) => Bitboard.Closing(x, d, me)
    case MaskedNorth => if LineShift(x, l) & me != 0 then x else 0
  }

  /** The run along a row from `seed`, kept when it is closed by a disc of `me`. */
  function Closed(seed: bv64, l: Line, me: bv64, opp: bv64): bv64 {
    LineClosing(Run(seed, l, opp), l, me)
  }

  /** `captured_discs` after the first `k` rows of `place_at`. */
  function CaptureUpTo(seed: bv64, me: bv64, opp: bv64, t: Table, k: nat): bv64
    requires k <= 8
  {
    if k == 0 then 0 else CaptureUpTo(seed, me, opp, t, k - 1) | Closed(seed, RowLine(k - 1, t), me, opp)
  }

  /** The thrown `invalid_argument` of the two-set constructor. */
  datatype InvalidArgument = Overlap(black: bv64, white: bv64)

  /** The condition on which `Board(black, white)` throws. */
  predicate Overlaps(black: bv64, white: bv64) {
    black & white != 0
  }

  /** `flip_discs(discs)`: every square of `discs` changes sides. */
  function Flipped(black: bv64, white: bv64, discs: bv64): Bitboard.Board {
    Bitboard.Board(black ^ discs, white ^ discs)
  }

  /** `swap_discs`: the two disc sets trade places. */
  function Swapped(b: Bitboard.Board): Bitboard.Board {
    Bitboard.Board(b.white, b.black)
  }

  /** `flip_discs(c)` on `Board(me, opp)`, then `swap_discs` when White moved. */
  function FlipSwap(p: Player, me: bv64, opp: bv64, c: bv64): Bitboard.Board {
    var flipped := Flipped(me, opp, c);
    if p == Bitboard.Black then flipped else Swapped(flipped)
  }

  /**
   * `place_at(p, pos)` where `own` and `opp` are the discs of the mover and of
   * the opponent: the captured discs, the board built from the mover's discs
   * with `pos` added and the opponent's discs (which throws when they
   * overlap), flipped, and swapped back for White.
   */
  function Place(own: bv64, opp: bv64, p: Player, pos: Sq, t: Table): Result<Bitboard.Board, InvalidArgument> {
    var me := own | Bitboard.Single(pos);
    if Overlaps(me, opp) then Err(Overlap(me, opp))
    else Ok(FlipSwap(p, me, opp, CaptureUpTo(Bitboard.Single(pos), me, opp, t, 8)))
  }

  /** `place_at(p, pos)` on the disc sets `black` and `white`. */
  function PlaceOf(black: bv64, white: bv64, p: Player, pos: Sq, t: Table): Result<Bitboard.Board, InvalidArgument> {
    if p == Bitboard.Black then Place(black, white, p, pos, t) else Place(white, black, p, pos, t)
  }

  // ------------------------------------------- agreement with src/board.rs

  lemma StartCompass(seed: bv64, d: Bitboard.Direction, opp: bv64)
    ensures Start(seed, Compass(d), opp) == Bitboard.Shift(seed, d) & opp
  {}

  lemma GrowCompass(x: bv64, d: Bitboard.Direction, opp: bv64)
    ensures Grow(x, Compass(d), opp) == Bitboard.Extend(x, d, opp)
  {}

  /** One more pass of the inner loop is one more Rust extension step. */
  lemma GrowByStep(x: bv64, d: Bitboard.Direction, opp: bv64, j: nat, y: bv64)
    requires GrowBy(x, Compass(d), opp, j) == y
    ensures GrowBy(x, Compass(d), opp, j + 1) == Bitboard.Extend(y, d, opp)
  {
    GrowCompass(y, d, opp);
  }

  /*
   * `PassesJ`: after `j` passes along a compass row the run is the seed step
   * followed by `j` Rust extension steps. One lemma per pass keeps each proof
   * to a single step.
   */

  lemma Passes0(seed: bv64, d: Bitboard.Direction, opp: bv64)
    ensures GrowBy(Start(seed, Compass(d), opp), Compass(d), opp, 0) == Bitboard.Shift(seed, d) & opp
  {
    StartCompass(seed, d, opp);
  }

  lemma Passes1(seed: bv64, d: Bitboard.Direction, opp: bv64)
    ensures GrowBy(Start(seed, Compass(d), opp), Compass(d), opp, 1) == Bitboard.Extend(Bitboard.Shift(seed, d) & opp, d, opp)
  {
    Passes0(seed, d, opp);
    GrowByStep(Start(seed, Compass(d), opp), d, opp, 0, Bitboard.Shift(seed, d) & opp);
  }

  lemma Passes2(seed: bv64, d: Bitboard.Direction, opp: bv64)
    ensures GrowBy(Start(seed, Compass(d), opp), Compass(d), opp, 2) == Bitboard.Extend(Bitboard.Extend(Bitboard.Shift(seed, d) & opp, d, opp), d, opp)
  {
    Passes1(seed, d, opp);
    GrowByStep(Start(seed, Compass(d), opp), d, opp, 1, Bitboard.Extend(Bitboard.Shift(seed, d) & opp, d, opp));
  }

  lemma Passes3(seed: bv64, d: Bitboard.Direction, opp: bv64)
    ensures GrowBy(Start(seed, Compass(d), opp), Compass(d), opp, 3) == Bitboard.Extend(Bitboard.Extend(Bitboard.Extend(Bitboard.Shift(seed, d) & opp, d, opp), d, opp), d, opp)
  {
    Passes2(seed, d, opp);
    GrowByStep(Start(seed, Compass(d), opp), d, opp, 2, Bitboard.Extend(Bitboard.Extend(Bitboard.Shift(seed, d) & opp, d, opp), d, opp));
  }

  lemma Passes4(seed: bv64, d: Bitboard.Direction, opp: bv64)
    ensures GrowBy(Start(seed, Compass(d), opp), Compass(d), opp, 4) == Bitboard.Extend(Bitboard.Extend(Bitboard.Extend(Bitboard.Extend(Bitboard.Shift(seed, d) & opp, d, opp), d, opp), d, opp), d, opp)
  {
    Passes3(seed, d, opp);
    GrowByStep(Start(seed, Compass(d), opp), d, opp, 3, Bitboard.Extend(Bitboard.Extend(Bitboard.Extend(Bitboard.Shift(seed, d) & opp, d, opp), d, opp), d, opp));
  }

  lemma Passes5(seed: bv64, d: Bitboard.Direction, opp: bv64)
    ensures GrowBy(Start(seed, Compass(d), opp), Compass(d), opp, 5) == Bitboard.Extend(Bitboard.Extend(Bitboard.Extend(Bitboard.Extend(Bitboard.Extend(Bitboard.Shift(seed, d) & opp, d, opp), d, opp), d, opp), d, opp), d, opp)
  {
    Passes4(seed, d, opp);
    GrowByStep(Start(seed, Compass(d), opp), d, opp, 4, Bitboard.Extend(Bitboard.Extend(Bitboard.Extend(Bitboard.Extend(Bitboard.Shift(seed, d) & opp, d, opp), d, opp), d, opp), d, opp));
  }

  /** Along a compass row the run is the Rust `Propagate`. */
  lemma RunIsPropagate(seed: bv64, d: Bitboard.Direction, opp: bv64)
    ensures Run(seed, Compass(d), opp) == Bitboard.Propagate(seed, d, opp)
  {
    Passes5(seed, d, opp);
  }

  lemma EndsCompass(x: bv64, d: Bitboard.Direction, empty: bv64)
    ensures Ends(x, Compass(d), empty) == Bitboard.Shift(x, d) & empty
  {
    ShiftCompass(x, d);
  }

  lemma DirMovesOf(r: bv64, me: bv64, opp: bv64, empty: bv64, d: Bitboard.Direction)
    requires r == Bitboard.Propagate(me, d, opp)
    ensures Bitboard.Shift(r, d) & empty == Bitboard.DirMoves(me, opp, empty, d)
  {}

  /** A compass row adds the Rust moves in its direction. */
  lemma RowMovesCompass(me: bv64, opp: bv64, empty: bv64, d: Bitboard.Direction)
    ensures RowMoves(me, opp, empty, Compass(d)) == Bitboard.DirMoves(me, opp, empty, d)
  {
    var r := Run(me, Compass(d), opp);
    RunIsPropagate(me, d, opp);
    EndsCompass(r, d, empty);
    DirMovesOf(r, me, opp, empty, d);
  }

  /** Row `i` of the intended table is the compass row of its heading. */
  lemma IntendedLine(i: Row)
    ensures RowLine(i, Intended) == Compass(Heading(i))
  {}

  /** Every direction of the Rust compass rose is the heading of some row. */
  lemma HeadingOnto(d: Bitboard.Direction) returns (i: Row)
    ensures Heading(i) == d
  {
    i := match d
      case East => 0
      case Southeast => 1
      case South => 2
      case Southwest => 3
      case West => 4
      case Northwest => 5
      case North => 6
      case Northeast => 7;
  }

  /** Every direction is in the Rust compass rose. */
  lemma InCompassRose(d: Bitboard.Direction) returns (j: nat)
    ensures j < |Bitboard.CompassRose| && Bitboard.CompassRose[j] == d
  {
    j := match d
      case North => 0
      case South => 1
      case East => 2
      case West => 3
      case Northwest => 4
      case Southeast => 5
      case Northeast => 6
      case Southwest => 7;
  }

  /*
   * The two unions of eight rows are compared by inclusion both ways. Each
   * step is a lemma of its own about one fold, so that no equation between
   * disc sets is passed from one lemma to another.
   */

  /*
   * The index equations are drawn in lemmas of their own, away from any disc
   * set: next to bit-vector terms the solver is slow to see that `ls[i]` and
   * `ls[k - 1]` are the same when `i == k - 1`.
   */

  lemma SameRow(i: Row, k: nat, t: Table)
    requires i == k - 1
    ensures RowLine(i, t) == RowLine(k - 1, t)
  {}

  lemma SameDirection(j: nat, k: nat)
    requires j == k - 1 && 0 < k <= |Bitboard.CompassRose|
    ensures Bitboard.CompassRose[j] == Bitboard.CompassRose[k - 1]
  {}

  lemma CppKeep(me: bv64, opp: bv64, empty: bv64, t: Table, k: nat, z: bv64)
    requires 0 < k <= 8 && Bitboard.Within(z, MovesUpTo(me, opp, empty, t, k - 1))
    ensures Bitboard.Within(z, MovesUpTo(me, opp, empty, t, k))
  {}

  lemma CppLast(me: bv64, opp: bv64, empty: bv64, t: Table, k: nat)
    requires 0 < k <= 8
    ensures Bitboard.Within(RowMoves(me, opp, empty, RowLine(k - 1, t)), MovesUpTo(me, opp, empty, t, k))
  {}

  lemma CppJoin(me: bv64, opp: bv64, empty: bv64, t: Table, k: nat, y: bv64)
    requires 0 < k <= 8
    requires Bitboard.Within(MovesUpTo(me, opp, empty, t, k - 1), y)
    requires Bitboard.Within(RowMoves(me, opp, empty, RowLine(k - 1, t)), y)
    ensures Bitboard.Within(MovesUpTo(me, opp, empty, t, k), y)
  {}

  lemma RustKeep(me: bv64, opp: bv64, empty: bv64, k: nat, z: bv64)
    requires 0 < k <= 8 && Bitboard.Within(z, Bitboard.MovesUpTo(me, opp, empty, k - 1))
    ensures Bitboard.Within(z, Bitboard.MovesUpTo(me, opp, empty, k))
  {}

  lemma RustLast(me: bv64, opp: bv64, empty: bv64, k: nat)
    requires 0 < k <= 8
    ensures Bitboard.Within(Bitboard.DirMoves(me, opp, empty, Bitboard.CompassRose[k - 1]), Bitboard.MovesUpTo(me, opp, empty, k))
  {}

  lemma RustJoin(me: bv64, opp: bv64, empty: bv64, k: nat, y: bv64)
    requires 0 < k <= 8
    requires Bitboard.Within(Bitboard.MovesUpTo(me, opp, empty, k - 1), y)
    requires Bitboard.Within(Bitboard.DirMoves(me, opp, empty, Bitboard.CompassRose[k - 1]), y)
    ensures Bitboard.Within(Bitboard.MovesUpTo(me, opp, empty, k), y)
  {}

  lemma Antisymmetric(x: bv64, y: bv64)
    requires Bitboard.Within(x, y) && Bitboard.Within(y, x)
    ensures x == y
  {}

  /** A row of the intended table finds what its heading finds in Rust. */
  lemma RowToDir(me: bv64, opp: bv64, empty: bv64, i: Row, y: bv64)
    requires Bitboard.Within(Bitboard.DirMoves(me, opp, empty, Heading(i)), y)
    ensures Bitboard.Within(RowMoves(me, opp, empty, RowLine(i, Intended)), y)
  {
    IntendedLine(i);
    RowMovesCompass(me, opp, empty, Heading(i));
  }

  lemma DirToRow(me: bv64, opp: bv64, empty: bv64, i: Row, y: bv64)
    requires Bitboard.Within(RowMoves(me, opp, empty, RowLine(i, Intended)), y)
    ensures Bitboard.Within(Bitboard.DirMoves(me, opp, empty, Heading(i)), y)
  {
    IntendedLine(i);
    RowMovesCompass(me, opp, empty, Heading(i));
  }

  /** Each row's moves are among the first `k` rows' moves once `k` is past it. */
  lemma {:induction false} CppHas(me: bv64, opp: bv64, empty: bv64, t: Table, i: Row, k: nat)
    requires i < k <= 8
    ensures Bitboard.Within(RowMoves(me, opp, empty, RowLine(i, t)), MovesUpTo(me, opp, empty, t, k))
  {
    if i == k - 1 {
      SameRow(i, k, t);
      CppLast(me, opp, empty, t, k);
    } else {
      CppHas(me, opp, empty, t, i, k - 1);
      CppKeep(me, opp, empty, t, k, RowMoves(me, opp, empty, RowLine(i, t)));
    }
  }

  /** Each direction's moves are among the first `k` Rust directions' moves once `k` is past it. */
  lemma {:induction false} RustHas(me: bv64, opp: bv64, empty: bv64, j: nat, k: nat)
    requires j < k <= 8
    ensures Bitboard.Within(Bitboard.DirMoves(me, opp, empty, Bitboard.CompassRose[j]), Bitboard.MovesUpTo(me, opp, empty, k))
  {
    if j == k - 1 {
      SameDirection(j, k);
      RustLast(me, opp, empty, k);
    } else {
      RustHas(me, opp, empty, j, k - 1);
      RustKeep(me, opp, empty, k, Bitboard.DirMoves(me, opp, empty, Bitboard.CompassRose[j]));
    }
  }

  /** Whatever one direction finds in Rust, `valid_moves_fast` finds. */
  lemma RustFinds(me: bv64, opp: bv64, empty: bv64, d: Bitboard.Direction, n: nat)
    requires n == 8
    ensures Bitboard.Within(Bitboard.DirMoves(me, opp, empty, d), Bitboard.MovesUpTo(me, opp, empty, n))
  {
    var j := InCompassRose(d);
    RustHas(me, opp, empty, j, n);
  }

  /*
   * The number of rows, 8, is passed as `n` rather than written out, so that
   * the folds over all eight rows are not unfolded row by row.
   */

  /** The first `k` intended rows find only Rust moves. */
  lemma {:induction false} CppWithinRust(me: bv64, opp: bv64, empty: bv64, k: nat, n: nat)
    requires k <= n == 8
    ensures Bitboard.Within(MovesUpTo(me, opp, empty, Intended, k), Bitboard.MovesUpTo(me, opp, empty, n))
  {
    if k != 0 {
      CppWithinRust(me, opp, empty, k - 1, n);
      CppStepWithin(me, opp, empty, k, n);
    }
  }

  lemma CppStepWithin(me: bv64, opp: bv64, empty: bv64, k: nat, n: nat)
    requires 0 < k <= n == 8
    requires Bitboard.Within(MovesUpTo(me, opp, empty, Intended, k - 1), Bitboard.MovesUpTo(me, opp, empty, n))
    ensures Bitboard.Within(MovesUpTo(me, opp, empty, Intended, k), Bitboard.MovesUpTo(me, opp, empty, n))
  {
    var all := Bitboard.MovesUpTo(me, opp, empty, n);
    RustFinds(me, opp, empty, Heading(k - 1), n);
    RowToDir(me, opp, empty, k - 1, all);
    CppJoin(me, opp, empty, Intended, k, all);
  }

  /** The first `k` Rust directions find only moves of the intended rows. */
  lemma {:induction false} RustWithinCpp(me: bv64, opp: bv64, empty: bv64, k: nat, n: nat)
    requires k <= n == 8
    ensures Bitboard.Within(Bitboard.MovesUpTo(me, opp, empty, k), MovesUpTo(me, opp, empty, Intended, n))
  {
    if k != 0 {
      RustWithinCpp(me, opp, empty, k - 1, n);
      RustStepWithin(me, opp, empty, k, n);
    }
  }

  lemma RustStepWithin(me: bv64, opp: bv64, empty: bv64, k: nat, n: nat)
    requires 0 < k <= n == 8
    requires Bitboard.Within(Bitboard.MovesUpTo(me, opp, empty, k - 1), MovesUpTo(me, opp, empty, Intended, n))
    ensures Bitboard.Within(Bitboard.MovesUpTo(me, opp, empty, k), MovesUpTo(me, opp, empty, Intended, n))
  {
    var all := MovesUpTo(me, opp, empty, Intended, n);
    var i := HeadingOnto(Bitboard.CompassRose[k - 1]);
    CppHas(me, opp, empty, Intended, i, n);
    DirToRow(me, opp, empty, i, all);
    RustJoin(me, opp, empty, k, all);
  }

  /** With the intended table, `valid_moves` finds exactly the Rust `valid_moves_fast` moves. */
  lemma MovesAgree(me: bv64, opp: bv64, empty: bv64)
    ensures MovesUpTo(me, opp, empty, Intended, 8) == Bitboard.MovesUpTo(me, opp, empty, 8)
  {
    CppWithinRust(me, opp, empty, 8, 8);
    RustWithinCpp(me, opp, empty, 8, 8);
    Antisymmetric(MovesUpTo(me, opp, empty, Intended, 8), Bitboard.MovesUpTo(me, opp, empty, 8));
  }

  // ------------------------------------------------ captures of `place_at`

  lemma ClosingCompass(x: bv64, d: Bitboard.Direction, me: bv64)
    ensures LineClosing(x, Compass(d), me) == Bitboard.Closing(x, d, me)
  {}

  lemma DirCaptureOf(r: bv64, seed: bv64, me: bv64, opp: bv64, d: Bitboard.Direction)
    requires r == Bitboard.Propagate(seed, d, opp)
    ensures Bitboard.Closing(r, d, me) == Bitboard.DirCapture(seed, me, opp, d)
  {}

  /** A compass row captures what the Rust `place_at_unchecked` captures in its direction. */
  lemma ClosedCompass(seed: bv64, me: bv64, opp: bv64, d: Bitboard.Direction)
    ensures Closed(seed, Compass(d), me, opp) == Bitboard.DirCapture(seed, me, opp, d)
  {
    var r := Run(seed, Compass(d), opp);
    RunIsPropagate(seed, d, opp);
    ClosingCompass(r, d, me);
    DirCaptureOf(r, seed, me, opp, d);
  }

  lemma CppCaptureKeep(seed: bv64, me: bv64, opp: bv64, t: Table, k: nat, z: bv64)
    requires 0 < k <= 8 && Bitboard.Within(z, CaptureUpTo(seed, me, opp, t, k - 1))
    ensures Bitboard.Within(z, CaptureUpTo(seed, me, opp, t, k))
  {}

  lemma CppCaptureLast(seed: bv64, me: bv64, opp: bv64, t: Table, k: nat)
    requires 0 < k <= 8
    ensures Bitboard.Within(Closed(seed, RowLine(k - 1, t), me, opp), CaptureUpTo(seed, me, opp, t, k))
  {
    UnionRight(CaptureUpTo(seed, me, opp, t, k - 1), Closed(seed, RowLine(k - 1, t), me, opp), CaptureUpTo(seed, me, opp, t, k));
  }

  lemma UnionRight(a: bv64, c: bv64, u: bv64)
    requires u == a | c
    ensures Bitboard.Within(c, u)
  {}

  lemma CppCaptureJoin(seed: bv64, me: bv64, opp: bv64, t: Table, k: nat, y: bv64)
    requires 0 < k <= 8
    requires Bitboard.Within(CaptureUpTo(seed, me, opp, t, k - 1), y)
    requires Bitboard.Within(Closed(seed, RowLine(k - 1, t), me, opp), y)
    ensures Bitboard.Within(CaptureUpTo(seed, me, opp, t, k), y)
  {}

  lemma RustCaptureKeep(seed: bv64, me: bv64, opp: bv64, k: nat, z: bv64)
    requires 0 < k <= 8 && Bitboard.Within(z, Bitboard.CaptureUpTo(seed, me, opp, k - 1))
    ensures Bitboard.Within(z, Bitboard.CaptureUpTo(seed, me, opp, k))
  {}

  lemma RustCaptureLast(seed: bv64, me: bv64, opp: bv64, k: nat)
    requires 0 < k <= 8
    ensures Bitboard.Within(Bitboard.DirCapture(seed, me, opp, Bitboard.CompassRose[k - 1]), Bitboard.CaptureUpTo(seed, me, opp, k))
  {}

  lemma RustCaptureJoin(seed: bv64, me: bv64, opp: bv64, k: nat, y: bv64)
    requires 0 < k <= 8
    requires Bitboard.Within(Bitboard.CaptureUpTo(seed, me, opp, k - 1), y)
    requires Bitboard.Within(Bitboard.DirCapture(seed, me, opp, Bitboard.CompassRose[k - 1]), y)
    ensures Bitboard.Within(Bitboard.CaptureUpTo(seed, me, opp, k), y)
  {}

  lemma RowToDirCapture(seed: bv64, me: bv64, opp: bv64, i: Row, y: bv64)
    requires Bitboard.Within(Bitboard.DirCapture(seed, me, opp, Heading(i)), y)
    ensures Bitboard.Within(Closed(seed, RowLine(i, Intended), me, opp), y)
  {
    IntendedLine(i);
    ClosedCompass(seed, me, opp, Heading(i));
  }

  lemma DirToRowCapture(seed: bv64, me: bv64, opp: bv64, i: Row, y: bv64)
    requires Bitboard.Within(Closed(seed, RowLine(i, Intended), me, opp), y)
    ensures Bitboard.Within(Bitboard.DirCapture(seed, me, opp, Heading(i)), y)
  {
    IntendedLine(i);
    ClosedCompass(seed, me, opp, Heading(i));
  }

  lemma {:induction false} CppCaptureHas(seed: bv64, me: bv64, opp: bv64, t: Table, i: Row, k: nat)
    requires i < k <= 8
    ensures Bitboard.Within(Closed(seed, RowLine(i, t), me, opp), CaptureUpTo(seed, me, opp, t, k))
  {
    if i == k - 1 {
      SameRow(i, k, t);
      CppCaptureLast(seed, me, opp, t, k);
    } else {
      CppCaptureHas(seed, me, opp, t, i, k - 1);
      CppCaptureKeep(seed, me, opp, t, k, Closed(seed, RowLine(i, t), me, opp));
    }
  }

  lemma {:induction false} RustCaptureHas(seed: bv64, me: bv64, opp: bv64, j: nat, k: nat)
    requires j < k <= 8
    ensures Bitboard.Within(Bitboard.DirCapture(seed, me, opp, Bitboard.CompassRose[j]), Bitboard.CaptureUpTo(seed, me, opp, k))
  {
    if j == k - 1 {
      SameDirection(j, k);
      RustCaptureLast(seed, me, opp, k);
    } else {
      RustCaptureHas(seed, me, opp, j, k - 1);
      RustCaptureKeep(seed, me, opp, k, Bitboard.DirCapture(seed, me, opp, Bitboard.CompassRose[j]));
    }
  }

  lemma RustCaptureFinds(seed: bv64, me: bv64, opp: bv64, d: Bitboard.Direction, n: nat)
    requires n == 8
    ensures Bitboard.Within(Bitboard.DirCapture(seed, me, opp, d), Bitboard.CaptureUpTo(seed, me, opp, n))
  {
    var j := InCompassRose(d);
    RustCaptureHas(seed, me, opp, j, n);
  }

  lemma {:induction false} CppCaptureWithinRust(seed: bv64, me: bv64, opp: bv64, k: nat, n: nat)
    requires k <= n == 8
    ensures Bitboard.Within(CaptureUpTo(seed, me, opp, Intended, k), Bitboard.CaptureUpTo(seed, me, opp, n))
  {
    if k != 0 {
      CppCaptureWithinRust(seed, me, opp, k - 1, n);
      CppCaptureStepWithin(seed, me, opp, k, n);
    }
  }

  lemma CppCaptureStepWithin(seed: bv64, me: bv64, opp: bv64, k: nat, n: nat)
    requires 0 < k <= n == 8
    requires Bitboard.Within(CaptureUpTo(seed, me, opp, Intended, k - 1), Bitboard.CaptureUpTo(seed, me, opp, n))
    ensures Bitboard.Within(CaptureUpTo(seed, me, opp, Intended, k), Bitboard.CaptureUpTo(seed, me, opp, n))
  {
    var all := Bitboard.CaptureUpTo(seed, me, opp, n);
    RustCaptureFinds(seed, me, opp, Heading(k - 1), n);
    RowToDirCapture(seed, me, opp, k - 1, all);
    CppCaptureJoin(seed, me, opp, Intended, k, all);
  }

  lemma {:induction false} RustCaptureWithinCpp(seed: bv64, me: bv64, opp: bv64, k: nat, n: nat)
    requires k <= n == 8
    ensures Bitboard.Within(Bitboard.CaptureUpTo(seed, me, opp, k), CaptureUpTo(seed, me, opp, Intended, n))
  {
    if k != 0 {
      RustCaptureWithinCpp(seed, me, opp, k - 1, n);
      RustCaptureStepWithin(seed, me, opp, k, n);
    }
  }

  lemma RustCaptureStepWithin(seed: bv64, me: bv64, opp: bv64, k: nat, n: nat)
    requires 0 < k <= n == 8
    requires Bitboard.Within(Bitboard.CaptureUpTo(seed, me, opp, k - 1), CaptureUpTo(seed, me, opp, Intended, n))
    ensures Bitboard.Within(Bitboard.CaptureUpTo(seed, me, opp, k), CaptureUpTo(seed, me, opp, Intended, n))
  {
    var all := CaptureUpTo(seed, me, opp, Intended, n);
    var i := HeadingOnto(Bitboard.CompassRose[k - 1]);
    CppCaptureHas(seed, me, opp, Intended, i, n);
    DirToRowCapture(seed, me, opp, i, all);
    RustCaptureJoin(seed, me, opp, k, all);
  }

  /** With the intended table, `place_at` captures exactly what the Rust `place_at_unchecked` captures. */
  lemma CaptureAgree(seed: bv64, me: bv64, opp: bv64)
    ensures CaptureUpTo(seed, me, opp, Intended, 8) == Bitboard.CaptureUpTo(seed, me, opp, 8)
  {
    CppCaptureWithinRust(seed, me, opp, 8, 8);
    RustCaptureWithinCpp(seed, me, opp, 8, 8);
    Antisymmetric(CaptureUpTo(seed, me, opp, Intended, 8), Bitboard.CaptureUpTo(seed, me, opp, 8));
  }

  // ----------------------------------------------- row 6 of the shift table

  /*
   * Row 6 of the table as written keeps only the squares off the A file
   * (mask 0x7f7f...) after moving a disc set north, where the Rust `North`
   * keeps every square. Black on A3 (square 47) and White on A2 (square 55)
   * show it: Black may play A1 (square 63), and the table as written finds
   * no move at all.
   */

  lemma GrowZero(l: Line, opp: bv64)
    ensures Grow(0, l, opp) == 0
  {
    match l
    case Compass(d) =>
      assert Bitboard.Shift(0, d) == 0;
    case MaskedNorth =>
  }

  lemma {:induction false} GrowByZero(l: Line, opp: bv64, j: nat)
    ensures GrowBy(0, l, opp, j) == 0
  {
    if j > 0 {
      GrowByZero(l, opp, j - 1);
      GrowZero(l, opp);
    }
  }

  lemma EndsZero(l: Line, empty: bv64)
    ensures Ends(0, l, empty) == 0
  {
    match l
    case Compass(d) =>
      assert Bitboard.Shift(0, d) == 0;
    case MaskedNorth =>
  }

  /** A row whose seed step finds no opponent disc adds no move. */
  lemma NoSeedNoMoves(me: bv64, opp: bv64, empty: bv64, l: Line)
    requires Start(me, l, opp) == 0
    ensures RowMoves(me, opp, empty, l) == 0
  {
    GrowByZero(l, opp, 5);
    EndsZero(l, empty);
  }

  /** From A3 against A2 no row of the table as written finds an opponent disc to start from. */
  lemma WrittenSeeds(i: Row)
    ensures Start(Bitboard.Single(47), RowLine(i, Written), Bitboard.Single(55)) == 0
  {
    RowLineShift(Bitboard.Single(47), i, Written);
  }

  lemma {:induction false} WrittenFindsNothing(empty: bv64, k: nat)
    requires k <= 8
    ensures MovesUpTo(Bitboard.Single(47), Bitboard.Single(55), empty, Written, k) == 0
  {
    if k > 0 {
      WrittenFindsNothing(empty, k - 1);
      WrittenSeeds(k - 1);
      NoSeedNoMoves(Bitboard.Single(47), Bitboard.Single(55), empty, RowLine(k - 1, Written));
    }
  }

  lemma {:induction false} GrowByFixed(x: bv64, l: Line, opp: bv64, j: nat)
    requires Grow(x, l, opp) == x
    ensures GrowBy(x, l, opp, j) == x
  {
    if j > 0 {
      GrowByFixed(x, l, opp, j - 1);
    }
  }

  lemma NorthSeed()
    ensures Start(Bitboard.Single(47), Compass(Bitboard.North), Bitboard.Single(55)) == Bitboard.Single(55)
  {}

  lemma NorthPass()
    ensures Grow(Bitboard.Single(55), Compass(Bitboard.North), Bitboard.Single(55)) == Bitboard.Single(55)
  {}

  lemma NorthEnd(empty: bv64)
    requires empty == Bitboard.EmptyOf(Bitboard.Single(47), Bitboard.Single(55))
    ensures Ends(Bitboard.Single(55), Compass(Bitboard.North), empty) == Bitboard.Single(63)
  {}

  lemma NorthRun()
    ensures Run(Bitboard.Single(47), Compass(Bitboard.North), Bitboard.Single(55)) == Bitboard.Single(55)
  {
    NorthSeed();
    NorthPass();
    GrowByFixed(Bitboard.Single(55), Compass(Bitboard.North), Bitboard.Single(55), 5);
  }

  /** Along the intended north row the run from A3 is the white disc on A2, ended by A1. */
  lemma IntendedNorthRow(empty: bv64)
    requires empty == Bitboard.EmptyOf(Bitboard.Single(47), Bitboard.Single(55))
    ensures RowMoves(Bitboard.Single(47), Bitboard.Single(55), empty, RowLine(6, Intended)) == Bitboard.Single(63)
  {
    IntendedLine(6);
    NorthRun();
    NorthEnd(empty);
  }

  lemma WithinBit(c: bv64, y: bv64, i: Bitboard.Sq)
    requires c == Bitboard.Single(i) && Bitboard.Within(c, y)
    ensures Bitboard.Bit(y, i)
  {}

  /** `valid_moves` as written misses the move on A1; with the intended table it finds it. */
  lemma WrittenLosesMove()
    ensures Bitboard.Bit(MovesOf(Bitboard.Single(47), Bitboard.Single(55), Bitboard.Black, Intended), 63)
    ensures MovesOf(Bitboard.Single(47), Bitboard.Single(55), Bitboard.Black, Written) == 0
  {
    var empty := Bitboard.EmptyOf(Bitboard.Single(47), Bitboard.Single(55));
    WrittenFindsNothing(empty, 8);
    IntendedNorthRow(empty);
    CppHas(Bitboard.Single(47), Bitboard.Single(55), empty, Intended, 6, 8);
    WithinBit(RowMoves(Bitboard.Single(47), Bitboard.Single(55), empty, RowLine(6, Intended)),
      MovesUpTo(Bitboard.Single(47), Bitboard.Single(55), empty, Intended, 8), 63);
  }

  // ------------------------------------------------------------- place_at

  /**
   * When the disc sets do not overlap, `place_at` throws exactly when `pos`
   * holds a disc of the opponent, whichever table it uses.
   */
  lemma PlaceThrows(own: bv64, opp: bv64, p: Player, pos: Sq, t: Table)
    requires Bitboard.DisjointBits(own, opp)
    ensures Place(own, opp, p, pos, t).Err? == Bitboard.Bit(opp, pos)
  {
    AddOverlaps(own, opp, pos);
  }

  lemma AddOverlaps(own: bv64, opp: bv64, pos: Sq)
    requires Bitboard.DisjointBits(own, opp)
    ensures Overlaps(own | Bitboard.Single(pos), opp) == Bitboard.Bit(opp, pos)
  {}

  /**
   * Otherwise, with the intended table, `place_at` makes the board that the
   * Rust `Assemble` makes of the Rust captures.
   */
  lemma PlaceAgree(own: bv64, opp: bv64, p: Player, pos: Sq)
    requires Bitboard.DisjointBits(own, opp) && !Bitboard.Bit(opp, pos)
    ensures Place(own, opp, p, pos, Intended)
      == Ok(Bitboard.Assemble(p, own | Bitboard.Single(pos), opp, Bitboard.CaptureAll(Bitboard.Single(pos), own | Bitboard.Single(pos), opp)))
  {
    var me := own | Bitboard.Single(pos);
    PlaceThrows(own, opp, p, pos, Intended);
    AddOverlaps(own, opp, pos);
    PlaceOk(own, opp, p, pos, Intended, CaptureUpTo(Bitboard.Single(pos), me, opp, Intended, 8));
    CaptureAgree(Bitboard.Single(pos), me, opp);
    CaptureAllUpTo(Bitboard.Single(pos), me, opp);
    AssembleIsFlipSwap(p, me, opp, Bitboard.CaptureAll(Bitboard.Single(pos), me, opp));
  }

  lemma PlaceOk(own: bv64, opp: bv64, p: Player, pos: Sq, t: Table, c: bv64)
    requires !Overlaps(own | Bitboard.Single(pos), opp) && c == CaptureUpTo(Bitboard.Single(pos), own | Bitboard.Single(pos), opp, t, 8)
    ensures Place(own, opp, p, pos, t) == Ok(FlipSwap(p, own | Bitboard.Single(pos), opp, c))
  {}

  lemma CaptureAllUpTo(seed: bv64, me: bv64, opp: bv64)
    ensures Bitboard.CaptureAll(seed, me, opp) == Bitboard.CaptureUpTo(seed, me, opp, 8)
  {}

  /** Flipping `Board(me, opp)` and swapping it for White is the Rust `Assemble`. */
  lemma AssembleIsFlipSwap(p: Player, me: bv64, opp: bv64, c: bv64)
    ensures Bitboard.Assemble(p, me, opp, c) == FlipSwap(p, me, opp, c)
  {
    var f := Flipped(me, opp, c);
    assert f.black == me ^ c && f.white == opp ^ c;
    assert Swapped(f) == Bitboard.Board(f.white, f.black);
  }

  /** On a board, `place_at` with the intended table is the Rust `place_at_unchecked` wherever it does not throw. */
  lemma PlaceOfAgree(b: Bitboard.Board, p: Player, pos: Sq)
    requires b.Disjoint() && !Bitboard.Bit(b.Disks(p.Opponent()), pos)
    ensures PlaceOf(b.black, b.white, p, pos, Intended) == Ok(Bitboard.PlaceAt(b, p, pos))
  {
    if p == Bitboard.Black {
      PlaceBlackAgree(b, pos);
    } else {
      PlaceWhiteAgree(b, pos);
    }
  }

  lemma PlaceBlackAgree(b: Bitboard.Board, pos: Sq)
    requires b.Disjoint() && !Bitboard.Bit(b.white, pos)
    ensures PlaceOf(b.black, b.white, Bitboard.Black, pos, Intended) == Ok(Bitboard.PlaceAt(b, Bitboard.Black, pos))
  {
    PlaceAtBlack(b, pos);
    PlaceAgree(b.black, b.white, Bitboard.Black, pos);
  }

  lemma PlaceWhiteAgree(b: Bitboard.Board, pos: Sq)
    requires b.Disjoint() && !Bitboard.Bit(b.black, pos)
    ensures PlaceOf(b.black, b.white, Bitboard.White, pos, Intended) == Ok(Bitboard.PlaceAt(b, Bitboard.White, pos))
  {
    PlaceAtWhite(b, pos);
    PlaceAgree(b.white, b.black, Bitboard.White, pos);
  }

  lemma PlaceAtBlack(b: Bitboard.Board, pos: Sq)
    ensures Bitboard.PlaceAt(b, Bitboard.Black, pos)
      == Bitboard.Assemble(Bitboard.Black, b.black | Bitboard.Single(pos), b.white,
                           Bitboard.CaptureAll(Bitboard.Single(pos), b.black | Bitboard.Single(pos), b.white))
  {}

  lemma PlaceAtWhite(b: Bitboard.Board, pos: Sq)
    ensures Bitboard.PlaceAt(b, Bitboard.White, pos)
      == Bitboard.Assemble(Bitboard.White, b.white | Bitboard.Single(pos), b.black,
                           Bitboard.CaptureAll(Bitboard.Single(pos), b.white | Bitboard.Single(pos), b.black))
  {}

  /** With the intended table, `valid_moves` is the Rust `valid_moves_fast`. */
  lemma MovesOfAgree(b: Bitboard.Board, p: Player)
    ensures MovesOf(b.black, b.white, p, Intended) == Bitboard.MovesMask(b, p)
  {
    MovesAgree(b.Disks(p), b.Disks(p.Opponent()), b.Empty());
  }

  /** `is_final` on the disc sets `black` and `white`: neither player has a move. */
  predicate IsFinalOf(black: bv64, white: bv64, t: Table) {
    MovesOf(black, white, Bitboard.Black, t) == 0 && MovesOf(black, white, Bitboard.White, t) == 0
  }

  /** With the intended table, `is_final` is the Rust `is_final`. */
  lemma IsFinalAgree(b: Bitboard.Board)
    ensures IsFinalOf(b.black, b.white, Intended) == Bitboard.IsFinal(b)
  {
    MovesOfAgree(b, Bitboard.Black);
    MovesOfAgree(b, Bitboard.White);
  }

  // ------------------------------------------------------- the loop steps

  /** The seed step of a row: `shift(seed, i) & opp`. */
  lemma SeedStep(seed: bv64, opp: bv64, i: Row, t: Table)
    ensures Shift(seed, i, t) & opp == GrowBy(Start(seed, RowLine(i, t), opp), RowLine(i, t), opp, 0)
  {
    RowLineShift(seed, i, t);
  }

  /** One pass of the inner loop: `x |= shift(x, i) & opp`. */
  lemma PassStep(x0: bv64, opp: bv64, i: Row, t: Table, j: nat, x: bv64)
    requires x == GrowBy(x0, RowLine(i, t), opp, j)
    ensures x | (Shift(x, i, t) & opp) == GrowBy(x0, RowLine(i, t), opp, j + 1)
  {
    RowLineShift(x, i, t);
    GrowLine(x, RowLine(i, t), opp);
  }

  lemma GrowLine(x: bv64, l: Line, opp: bv64)
    ensures Grow(x, l, opp) == x | (LineShift(x, l) & opp)
  {
    match l
    case Compass(d) =>
    case MaskedNorth =>
  }

  /** One row of `valid_moves`: `moves |= shift(x, i) & empty` once `x` is the row's run. */
  lemma MovesRowStep(me: bv64, opp: bv64, empty: bv64, t: Table, i: Row, x: bv64, moves: bv64)
    requires moves == MovesUpTo(me, opp, empty, t, i) && x == Run(me, RowLine(i, t), opp)
    ensures moves | (Shift(x, i, t) & empty) == MovesUpTo(me, opp, empty, t, i + 1)
  {
    MovesRow(me, opp, empty, t, i, x);
    MovesJoin(me, opp, empty, t, i);
  }

  lemma MovesRow(me: bv64, opp: bv64, empty: bv64, t: Table, i: Row, x: bv64)
    requires x == Run(me, RowLine(i, t), opp)
    ensures Shift(x, i, t) & empty == RowMoves(me, opp, empty, RowLine(i, t))
  {
    RowLineShift(x, i, t);
  }

  lemma MovesJoin(me: bv64, opp: bv64, empty: bv64, t: Table, i: Row)
    ensures MovesUpTo(me, opp, empty, t, i) | RowMoves(me, opp, empty, RowLine(i, t)) == MovesUpTo(me, opp, empty, t, i + 1)
  {}

  /** Every square of `valid_moves` is empty. */
  lemma {:induction false} MovesUpToWithin(me: bv64, opp: bv64, empty: bv64, t: Table, k: nat)
    requires k <= 8
    ensures Bitboard.Within(MovesUpTo(me, opp, empty, t, k), empty)
  {
    if k != 0 {
      MovesUpToWithin(me, opp, empty, t, k - 1);
      EndsWithin(Run(me, RowLine(k - 1, t), opp), RowLine(k - 1, t), empty);
      Bitboard.UnionWithin(MovesUpTo(me, opp, empty, t, k - 1), RowMoves(me, opp, empty, RowLine(k - 1, t)), empty);
    }
  }

  lemma EndsWithin(x: bv64, l: Line, empty: bv64)
    ensures Bitboard.Within(Ends(x, l, empty), empty)
  {}

  /** A row whose run is closed by a disc of `me` captures the run ... */
  lemma CaptureHit(seed: bv64, me: bv64, opp: bv64, t: Table, i: Row, x: bv64)
    requires x == Run(seed, RowLine(i, t), opp) && Shift(x, i, t) & me != 0
    ensures Closed(seed, RowLine(i, t), me, opp) == x
  {
    RowLineShift(x, i, t);
    ClosingHit(x, RowLine(i, t), me);
  }

  /** ... and any other row captures nothing. */
  lemma CaptureMiss(seed: bv64, me: bv64, opp: bv64, t: Table, i: Row, x: bv64)
    requires x == Run(seed, RowLine(i, t), opp) && Shift(x, i, t) & me == 0
    ensures Closed(seed, RowLine(i, t), me, opp) == 0
  {
    RowLineShift(x, i, t);
    ClosingMiss(x, RowLine(i, t), me);
  }

  lemma CaptureJoin(seed: bv64, me: bv64, opp: bv64, t: Table, i: Row)
    ensures CaptureUpTo(seed, me, opp, t, i) | Closed(seed, RowLine(i, t), me, opp) == CaptureUpTo(seed, me, opp, t, i + 1)
  {}

  /** One row of `place_at` whose run is closed: `captured_discs |= x`. */
  lemma CaptureRowHit(seed: bv64, me: bv64, opp: bv64, t: Table, i: Row, x: bv64, captured: bv64)
    requires captured == CaptureUpTo(seed, me, opp, t, i) && x == Run(seed, RowLine(i, t), opp)
    requires Shift(x, i, t) & me != 0
    ensures captured | x == CaptureUpTo(seed, me, opp, t, i + 1)
  {
    CaptureHit(seed, me, opp, t, i, x);
    CaptureJoin(seed, me, opp, t, i);
  }

  /** One row of `place_at` whose run is not closed: `captured_discs` stays. */
  lemma CaptureRowMiss(seed: bv64, me: bv64, opp: bv64, t: Table, i: Row, x: bv64, captured: bv64)
    requires captured == CaptureUpTo(seed, me, opp, t, i) && x == Run(seed, RowLine(i, t), opp)
    requires Shift(x, i, t) & me == 0
    ensures captured == CaptureUpTo(seed, me, opp, t, i + 1)
  {
    CaptureMiss(seed, me, opp, t, i, x);
    CaptureJoin(seed, me, opp, t, i);
  }

  lemma ClosingHit(x: bv64, l: Line, me: bv64)
    requires LineShift(x, l) & me != 0
    ensures LineClosing(x, l, me) == x
  {
    match l
    case Compass(d) =>
    case MaskedNorth =>
  }

  lemma ClosingMiss(x: bv64, l: Line, me: bv64)
    requires LineShift(x, l) & me == 0
    ensures LineClosing(x, l, me) == 0
  {
    match l
    case Compass(d) =>
    case MaskedNorth =>
  }

  // ------------------------------------------------------- printing a square

  /** The `names` table of `operator<<(Pos)`, one line per rank, A1 first and H8 last. */
  const Names: seq<string> :=
    ["A1", "B1", "C1", "D1", "E1", "F1", "G1", "H1"] +
    ["A2", "B2", "C2", "D2", "E2", "F2", "G2", "H2"] +
    ["A3", "B3", "C3", "D3", "E3", "F3", "G3", "H3"] +
    ["A4", "B4", "C4", "D4", "E4", "F4", "G4", "H4"] +
    ["A5", "B5", "C5", "D5", "E5", "F5", "G5", "H5"] +
    ["A6", "B6", "C6", "D6", "E6", "F6", "G6", "H6"] +
    ["A7", "B7", "C7", "D7", "E7", "F7", "G7", "H7"] +
    ["A8", "B8", "C8", "D8", "E8", "F8", "G8", "H8"]

  /** `operator<<(Pos)`: the entry `63 - pos` of the table. */
  function PrintPos(pos: Sq): (s: string)
  {
    Names[63 - pos as int]
  }

  /** Entry `k` of the table, read row-major: file letter `k % 8`, rank digit `k / 8`. */
  function TableName(k: nat): string
    requires k < 64
  {
    [('A' as int + k % 8) as char, ('1' as int + k / 8) as char]
  }

  lemma NamesRank1(k: nat)
    requires 0 <= k < 8
    ensures Names[k] == TableName(k)
  {
    match k
    case 0 => case 1 => case 2 => case 3 => case 4 => case 5 => case 6 => case 7 =>
  }

  lemma NamesRank2(k: nat)
    requires 8 <= k < 16
    ensures Names[k] == TableName(k)
  {
    match k
    case 8 => case 9 => case 10 => case 11 => case 12 => case 13 => case 14 => case 15 =>
  }

  lemma NamesRank3(k: nat)
    requires 16 <= k < 24
    ensures Names[k] == TableName(k)
  {
    match k
    case 16 => case 17 => case 18 => case 19 => case 20 => case 21 => case 22 => case 23 =>
  }

  lemma NamesRank4(k: nat)
    requires 24 <= k < 32
    ensures Names[k] == TableName(k)
  {
    match k
    case 24 => case 25 => case 26 => case 27 => case 28 => case 29 => case 30 => case 31 =>
  }

  lemma NamesRank5(k: nat)
    requires 32 <= k < 40
    ensures Names[k] == TableName(k)
  {
    match k
    case 32 => case 33 => case 34 => case 35 => case 36 => case 37 => case 38 => case 39 =>
  }

  lemma NamesRank6(k: nat)
    requires 40 <= k < 48
    ensures Names[k] == TableName(k)
  {
    match k
    case 40 => case 41 => case 42 => case 43 => case 44 => case 45 => case 46 => case 47 =>
  }

  lemma NamesRank7(k: nat)
    requires 48 <= k < 56
    ensures Names[k] == TableName(k)
  {
    match k
    case 48 => case 49 => case 50 => case 51 => case 52 => case 53 => case 54 => case 55 =>
  }

  lemma NamesRank8(k: nat)
    requires 56 <= k < 64
    ensures Names[k] == TableName(k)
  {
    match k
    case 56 => case 57 => case 58 => case 59 => case 60 => case 61 => case 62 => case 63 =>
  }

  /** The table lists the squares row-major from A1. */
  lemma NamesShape(k: nat)
    requires k < 64
    ensures Names[k] == TableName(k)
  {
    if k < 8 { NamesRank1(k); }
    else if k < 16 { NamesRank2(k); }
    else if k < 24 { NamesRank3(k); }
    else if k < 32 { NamesRank4(k); }
    else if k < 40 { NamesRank5(k); }
    else if k < 48 { NamesRank6(k); }
    else if k < 56 { NamesRank7(k); }
    else { NamesRank8(k); }
  }

  /** `operator<<(Pos)` prints the name the Rust `Display for Pos` prints: "A1" for 63, "H8" for 0. */
  lemma PrintPosName(pos: Sq)
    ensures PrintPos(pos) == Bitboard.PosName(pos)
  {
    NamesShape(63 - pos as int);
  }

  // ------------------------------------------------------------ the class

  /**
   * `class Board`: the disc sets of Black and of White. `flip_discs` and
   * `swap_discs` change them in place; the other members read them. Each
   * member that shifts takes the table `t` its `shift` uses.
   */
  class Board {
    var black: bv64
    var white: bv64

    /** The disc sets as a value. */
    function Value(): Bitboard.Board
      reads this
    {
      Bitboard.Board(black, white)
    }

    /** `Board()`: the initial position, the same as the Rust `Board::new`. */
    constructor ()
      ensures Value() == Bitboard.Initial()
    {
      black := 0x0000_0008_1000_0000;
      white := 0x0000_0010_0800_0000;
    }

    /** The body of `Board(black, white)` once its check has passed. */
    constructor Of(black: bv64, white: bv64)
      requires !Overlaps(black, white)
      ensures this.black == black && this.white == white
    {
      this.black := black;
      this.white := white;
    }

    /** `Board(black, white)`: throws `invalid_argument` when the two sets overlap. */
    static method Make(black: bv64, white: bv64) returns (r: Result<Board, InvalidArgument>)
      ensures r.Err? <==> Overlaps(black, white)
      ensures r.Err? ==> r.error == Overlap(black, white)
      ensures r.Ok? ==> fresh(r.value) && r.value.Value() == Bitboard.Board(black, white)
    {
      if Overlaps(black, white) {
        return Err(Overlap(black, white));
      }
      var b := new Board.Of(black, white);
      return Ok(b);
    }

    /** `get_disk(p)`: the Rust `get_disks`. */
    function GetDisk(p: Player): (r: bv64)
      reads this
      ensures r == Value().Disks(p)
    {
      if p == Bitboard.Black then black else white
    }

    /** `count(p)`: the number of discs of `p`, the Rust `count`. */
    function Count(p: Player): (n: nat)
      reads this
      ensures n == Value().Count(p) && n <= 64
    {
      Bitboard.PopBound(GetDisk(p));
      Bitboard.Pop(GetDisk(p))
    }

    /** `operator==`: both disc sets agree. */
    function Equals(other: Board): (r: bool)
      reads this, other
      ensures r <==> Value() == other.Value()
    {
      black == other.black && white == other.white
    }

    /** `flip_discs(discs)`: every square of `discs` changes sides. */
    method FlipDiscs(discs: bv64)
      modifies this
      ensures Value() == Flipped(old(black), old(white), discs)
    {
      black, white := black ^ discs, white ^ discs;
    }

    /** `swap_discs`: the two disc sets trade places. */
    method SwapDiscs()
      modifies this
      ensures Value() == Swapped(old(Value()))
    {
      black, white := white, black;
    }

    /** `valid_moves(p)`: the empty squares where `p` closes a run along some row of the table. */
    method ValidMoves(p: Player, t: Table) returns (moves: bv64)
      ensures moves == MovesOf(black, white, p, t)
      ensures t == Intended ==> moves == Bitboard.MovesMask(Value(), p)
    {
      var empty := !(black | white);
      moves := 0;
      var me := if p == Bitboard.Black then black else white;
      var opp := if p == Bitboard.Black then white else black;
      for i := 0 to 8
        invariant moves == MovesUpTo(me, opp, empty, t, i)
      {
        moves := AddRowMoves(me, opp, empty, t, i, moves);
      }
      MovesOfIs(black, white, p, t, moves);
      if t == Intended {
        MovesOfAgree(Value(), p);
      }
    }

    /** `is_final`: neither player has a move. */
    method IsFinal(t: Table) returns (r: bool)
      ensures r == IsFinalOf(black, white, t)
      ensures t == Intended ==> r == Bitboard.IsFinal(Value())
    {
      var b := ValidMoves(Bitboard.Black, t);
      var w := ValidMoves(Bitboard.White, t);
      r := b == 0 && w == 0;
      if t == Intended {
        IsFinalAgree(Value());
      }
    }

    /**
     * `place_at(p, pos)`: a new board, or the `invalid_argument` thrown when
     * `pos` holds a disc of the opponent.
     */
    method PlaceAt(p: Player, pos: Sq, t: Table) returns (r: Result<Board, InvalidArgument>)
      ensures r.Err? == PlaceOf(black, white, p, pos, t).Err?
      ensures r.Err? ==> r.error == PlaceOf(black, white, p, pos, t).error
      ensures r.Ok? ==> fresh(r.value) && r.value.Value() == PlaceOf(black, white, p, pos, t).value
    {
      var own := if p == Bitboard.Black then black else white;
      var me := own | Bitboard.Single(pos);
      var opp := if p == Bitboard.Black then white else black;
      var captured := 0;
      for i := 0 to 8
        invariant captured == CaptureUpTo(Bitboard.Single(pos), me, opp, t, i)
      {
        captured := AddRowCapture(Bitboard.Single(pos), me, opp, t, i, captured);
      }
      PlaceOfIs(black, white, p, pos, t, own, opp);
      PlaceIs(own, opp, p, pos, t, captured);
      r := Build(p, me, opp, captured);
    }

    /**
     * The end of `place_at`: `Board(me, opp)`, which throws when the sets
     * overlap, flipped by `captured`, and swapped for White.
     */
    static method Build(p: Player, me: bv64, opp: bv64, captured: bv64) returns (r: Result<Board, InvalidArgument>)
      ensures r.Err? == Overlaps(me, opp)
      ensures r.Err? ==> r.error == Overlap(me, opp)
      ensures r.Ok? ==> fresh(r.value) && r.value.Value() == FlipSwap(p, me, opp, captured)
    {
      var made := Make(me, opp);
      if made.Err? {
        return Err(made.error);
      }
      var res := made.value;
      res.FlipDiscs(captured);
      if p == Bitboard.White {
        res.SwapDiscs();
      }
      return Ok(res);
    }
  }

  /** The body of the outer loop of `place_at` for row `i`. */
  method AddRowCapture(seed: bv64, me: bv64, opp: bv64, t: Table, i: Row, captured: bv64) returns (captured': bv64)
    requires captured == CaptureUpTo(seed, me, opp, t, i)
    ensures captured' == CaptureUpTo(seed, me, opp, t, i + 1)
  {
    var x := RunFrom(seed, opp, i, t);
    captured' := captured;
    if Shift(x, i, t) & me != 0 {
      CaptureRowHit(seed, me, opp, t, i, x, captured);
      captured' := captured | x;
    } else {
      CaptureRowMiss(seed, me, opp, t, i, x, captured);
    }
  }

  lemma PlaceOfIs(black: bv64, white: bv64, p: Player, pos: Sq, t: Table, own: bv64, opp: bv64)
    requires own == (if p == Bitboard.Black then black else white) && opp == (if p == Bitboard.Black then white else black)
    ensures PlaceOf(black, white, p, pos, t) == Place(own, opp, p, pos, t)
  {}

  lemma PlaceIs(own: bv64, opp: bv64, p: Player, pos: Sq, t: Table, c: bv64)
    requires c == CaptureUpTo(Bitboard.Single(pos), own | Bitboard.Single(pos), opp, t, 8)
    ensures Place(own, opp, p, pos, t).Err? == Overlaps(own | Bitboard.Single(pos), opp)
    ensures Place(own, opp, p, pos, t).Err? ==> Place(own, opp, p, pos, t).error == Overlap(own | Bitboard.Single(pos), opp)
    ensures Place(own, opp, p, pos, t).Ok? ==> Place(own, opp, p, pos, t).value == FlipSwap(p, own | Bitboard.Single(pos), opp, c)
  {}

  /** The body of the outer loop of `valid_moves` for row `i`. */
  method AddRowMoves(me: bv64, opp: bv64, empty: bv64, t: Table, i: Row, moves: bv64) returns (moves': bv64)
    requires moves == MovesUpTo(me, opp, empty, t, i)
    ensures moves' == MovesUpTo(me, opp, empty, t, i + 1)
  {
    var x := RunFrom(me, opp, i, t);
    MovesRowStep(me, opp, empty, t, i, x, moves);
    moves' := moves | (Shift(x, i, t) & empty);
  }

  lemma MovesOfIs(black: bv64, white: bv64, p: Player, t: Table, moves: bv64)
    requires moves == MovesUpTo(if p == Bitboard.Black then black else white, if p == Bitboard.Black then white else black, !(black | white), t, 8)
    ensures moves == MovesOf(black, white, p, t)
  {}

  /** The inner loop of a row: the seed step and five passes of `x |= shift(x, i) & opp`. */
  method RunFrom(seed: bv64, opp: bv64, i: Row, t: Table) returns (x: bv64)
    ensures x == Run(seed, RowLine(i, t), opp)
  {
    SeedStep(seed, opp, i, t);
    x := Shift(seed, i, t) & opp;
    for j := 0 to 5
      invariant x == GrowBy(Start(seed, RowLine(i, t), opp), RowLine(i, t), opp, j)
    {
      PassStep(Start(seed, RowLine(i, t), opp), opp, i, t, j, x);
      x := x | (Shift(x, i, t) & opp);
    }
  }
}
