/**
 * The bitboard Othello engine of src/board.rs.
 *
 * A board is a pair of 64-bit disc sets, one per player. Square names map to
 * bit indices by 63 - 8 * (rank - 1) - file, so A1 is bit 63, H1 bit 56,
 * A8 bit 7 and H8 bit 0: inside each byte the A file is bit 7 and the H file
 * bit 0. Squares are kept as bit-vectors throughout (`Sq`), exactly as the
 * source's `Pos as u64` shift amounts.
 */
module Bitboard {
  import opened Wrappers

  /** A square: the bit index of a `Pos`. */
  type Sq = i: bv64 | i < 64

  /** The one-square disc set `MASK << i`. */
  function Single(i: Sq): bv64 {
    1 << i
  }

  /** Whether square `i` is a member of the disc set `x`: the source's `x & mask != 0`. */
  predicate Bit(x: bv64, i: Sq) {
    x & Single(i) != 0
  }

  lemma BitSingle(i: Sq, j: Sq)
    ensures Bit(Single(i), j) == (i == j)
  {}

  /** A set inside `o` misses the complement of `o`. */
  lemma Inside(d: bv64, o: bv64)
    requires o & d == d
    ensures d & !o == 0
  {}

  /** A set missing the complement of `o` lies inside `o`. */
  lemma Outside(d: bv64, o: bv64)
    requires d & !o == 0
    ensures o & d == d
  {}

  // ---------------------------------------------------------------- players

  datatype Player = Black | White {
    function Opponent(): (o: Player)
      ensures o != this
    {
      match this
      case Black => White
      case White => Black
    }
  }

  /** `Player::flip`: the variable holding a player is overwritten by its opponent. */
  method Flip(p: Player) returns (q: Player)
    ensures q != p && q.Opponent() == p
  {
    q := p.Opponent();
  }

  // ---------------------------------------------------------------- squares

  /** Squares `c`, `c - 1`, ..., 0. */
  function DescendingFrom(c: Sq): (r: seq<Sq>)
    decreases c
  {
    [c] + if c == 0 then [] else DescendingFrom(c - 1)
  }

  /**
   * `Pos::iter`: A1, B1, ..., H1, A2, ..., H8, which is bit 63 down to bit 0.
   */
  const Positions: seq<Sq> := DescendingFrom(63)

  /** The squares of `DescendingFrom(c)` are those at most `c`. */
  lemma {:induction false} DescendingFromMembers(c: Sq)
    ensures forall j: Sq :: j in DescendingFrom(c) <==> j <= c
  {
    if c != 0 {
      DescendingFromMembers(c - 1);
    }
  }

  /** `DescendingFrom(c)` is strictly descending. */
  lemma {:induction false} DescendingFromOrder(c: Sq)
    ensures forall k, l :: 0 <= k < l < |DescendingFrom(c)| ==> DescendingFrom(c)[l] < DescendingFrom(c)[k]
  {
    if c != 0 {
      DescendingFromOrder(c - 1);
      DescendingFromMembers(c - 1);
      var r := DescendingFrom(c - 1);
      var s := DescendingFrom(c);
      assert s == [c] + r;
      forall k, l | 0 <= k < l < |s|
        ensures s[l] < s[k]
      {
        assert s[l] == r[l - 1];
        if k == 0 {
          assert r[l - 1] in r;
        } else {
          assert s[k] == r[k - 1];
        }
      }
    }
  }

  /** `Pos::iter` lists every square once, in descending bit order (A1 first, H8 last). */
  lemma PositionsShape()
    ensures forall j: Sq :: j in Positions
    ensures forall k, l :: 0 <= k < l < |Positions| ==> Positions[l] < Positions[k]
    ensures Positions[0] == 63
  {
    DescendingFromMembers(63);
    DescendingFromOrder(63);
  }

  /**
   * `Pos::from_wthor_position`: row-major (rank, file), both counted from 0,
   * to a square. The two `assert!`s are the `None` (panic) outcome.
   */
  function FromWthor(rank: bv8, file: bv8): (r: Option<Sq>)
    ensures r.Some? <==> rank < 8 && file < 8
    ensures r.Some? ==> r.value == 63 - 8 * (rank as bv64) - (file as bv64)
  {
    if !(rank < 8) || !(file < 8) then None
    else
      var a: bv8 :=
        match rank
        case 0 => 63 case 1 => 55 case 2 => 47 case 3 => 39
        case 4 => 31 case 5 => 23 case 6 => 15 case _ => 7;
      Some((a - file) as bv64)
  }

  /** The file letter of a square, 'A' for bit 7 of a byte down to 'H' for bit 0. */
  function FileLetter(i: Sq): char {
    ('A' as int + 7 - (i & 7) as int) as char
  }

  /** The rank digit of a square, '1' for the top byte down to '8' for the bottom one. */
  function RankDigit(i: Sq): char {
    ('1' as int + 7 - (i >> 3) as int) as char
  }

  /**
   * `Display for Pos`: the `Debug` name of the variant, which is the square's
   * name ("A1" for 63, "H8" for 0).
   */
  function PosName(i: Sq): (s: string)
    ensures |s| == 2 && 'A' <= s[0] <= 'H' && '1' <= s[1] <= '8'
  {
    [FileLetter(i), RankDigit(i)]
  }

  lemma Predecessor(c: Sq)
    requires c as int > 0
    ensures c != 0 && (c - 1) as int == c as int - 1
  {}

  /** Entry `k` of `DescendingFrom(c)` is square `c - k`. */
  lemma {:induction false} DescendingFromAt(c: Sq, k: nat)
    requires k <= c as int
    ensures k < |DescendingFrom(c)| && DescendingFrom(c)[k] as int == c as int - k
    decreases k
  {
    if k > 0 {
      Predecessor(c);
      DescendingFromAt(c - 1, k - 1);
      assert DescendingFrom(c) == [c] + DescendingFrom(c - 1);
    }
  }

  lemma WthorIndex(rank: bv8, file: bv8)
    requires rank < 8 && file < 8
    ensures 8 * rank as int + file as int < 64
    ensures (63 - 8 * (rank as bv64) - (file as bv64)) as int == 63 - (8 * rank as int + file as int)
  {}

  /** The wthor (rank, file) pairs, taken row-major, are the squares in `Pos::iter` order. */
  lemma FromWthorIter(rank: bv8, file: bv8)
    requires rank < 8 && file < 8
    ensures 8 * rank as int + file as int < |Positions|
    ensures FromWthor(rank, file) == Some(Positions[8 * rank as int + file as int])
  {
    WthorIndex(rank, file);
    DescendingFromAt(63, 8 * rank as int + file as int);
  }

  /** The wthor (rank, file) pair names the square with that file letter and rank digit. */
  lemma FromWthorName(rank: bv8, file: bv8)
    requires rank < 8 && file < 8
    ensures FromWthor(rank, file).Some?
    ensures PosName(FromWthor(rank, file).value)
      == [('A' as int + file as int) as char, ('1' as int + rank as int) as char]
  {}

  datatype ParsePosError = ParsePosError(input: string)

  predicate IsAscii(s: string) {
    forall k | 0 <= k < |s| :: s[k] < 128 as char
  }

  /**
   * `Pos::try_from`. For an ASCII string the byte length is the number of
   * characters; a string that is not ASCII is refused before its length matters.
   */
  function ParsePos(s: string): (r: Result<Sq, ParsePosError>)
    ensures r.Err? ==> r.error == ParsePosError(s)
  {
    if |s| != 2 || !IsAscii(s) then Err(ParsePosError(s))
    else
      var base: bv64 :=
        match s[1]
        case '1' => 63 case '2' => 55 case '3' => 47 case '4' => 39
        case '5' => 31 case '6' => 23 case '7' => 15 case '8' => 7
        case _ => 64;
      if base == 64 then Err(ParsePosError(s))
      else
        var off: bv64 :=
          match s[0]
          case 'A' => 0 case 'B' => 1 case 'C' => 2 case 'D' => 3
          case 'E' => 4 case 'F' => 5 case 'G' => 6 case 'H' => 7
          case _ => 64;
        if off == 64 then Err(ParsePosError(s)) else Ok(base - off)
  }

  /** Only a file letter followed by a rank digit is accepted. */
  lemma ParsePosShape(s: string)
    requires ParsePos(s).Ok?
    ensures |s| == 2 && 'A' <= s[0] <= 'H' && '1' <= s[1] <= '8'
  {}

  /** A file letter followed by a rank digit is accepted, as 63 - 8 * rank - file. */
  lemma ParsePosAccepts(s: string)
    requires |s| == 2 && 'A' <= s[0] <= 'H' && '1' <= s[1] <= '8'
    ensures ParsePos(s).Ok?
    ensures ParsePos(s).value as int == 63 - 8 * (s[1] as int - '1' as int) - (s[0] as int - 'A' as int)
  {}

  /** Every square's printed name parses back to the square. */
  lemma PosNameParses(i: Sq)
    ensures ParsePos(PosName(i)) == Ok(i)
  {}

  /** Parsing is injective on the names it accepts: a name parses to one square only. */
  lemma ParsePosName(s: string)
    requires ParsePos(s).Ok?
    ensures PosName(ParsePos(s).value) == s
  {}

  // ------------------------------------------------------------- directions

  datatype Direction = North | South | East | West | Northwest | Southeast | Northeast | Southwest {
    function Reverse(): (r: Direction)
      ensures r != this
    {
      match this
      case North => South case South => North
      case East => West case West => East
      case Northwest => Southeast case Southeast => Northwest
      case Northeast => Southwest case Southwest => Northeast
    }
  }

  /** `CompassRose::iter`. */
  const CompassRose: seq<Direction> :=
    [North, South, East, West, Northwest, Southeast, Northeast, Southwest]

  /**
   * The eight neighbour functions `north` ... `southwest`. "North" moves toward
   * rank 1 (higher bit), "West" toward the A file (higher bit); a step off the
   * board is `None`. Rank 1 is bits 56-63, rank 8 bits 0-7, the H file the bits
   * with `i & 7 == 0` and the A file those with `i & 7 == 7`.
   */
  function Next(i: Sq, d: Direction): Option<Sq> {
    match d
    case North => if i >= 56 then None else Some(i + 8)
    case South => if i < 8 then None else Some(i - 8)
    case East => if i & 7 == 0 then None else Some(i - 1)
    case West => if i & 7 == 7 then None else Some(i + 1)
    case Northwest => if i >= 56 || i & 7 == 7 then None else Some(i + 9)
    case Southeast => if i < 8 || i & 7 == 0 then None else Some(i - 9)
    case Northeast => if i >= 56 || i & 7 == 0 then None else Some(i + 7)
    case Southwest => if i < 8 || i & 7 == 7 then None else Some(i - 7)
  }

  /** How many more steps in direction `d` the rank (or, for East and West, the file) allows. */
  function Room(i: Sq, d: Direction): bv64 {
    match d
    case North => 7 - (i >> 3)
    case Northwest => 7 - (i >> 3)
    case Northeast => 7 - (i >> 3)
    case South => i >> 3
    case Southeast => i >> 3
    case Southwest => i >> 3
    case West => 7 - (i & 7)
    case East => i & 7
  }

  /** Every step uses up one unit of room, so a ray has at most seven squares. */
  lemma RoomStep(i: Sq, d: Direction)
    ensures Room(i, d) <= 7
    ensures Next(i, d).Some? ==> Room(Next(i, d).value, d) + 1 == Room(i, d)
    ensures Room(i, d) == 0 ==> Next(i, d).None?
  {}

  /** Stepping back undoes a step. */
  lemma NextReverse(i: Sq, d: Direction)
    ensures Next(i, d).Some? ==> Next(Next(i, d).value, d.Reverse()) == Some(i)
  {}

  /** `Shift for u64`: the whole disc set moved one step in direction `d`. */
  function Shift(x: bv64, d: Direction): bv64 {
    match d
    case East => (x >> 1) & 0x7f7f_7f7f_7f7f_7f7f
    case Southeast => (x >> 9) & 0x007f_7f7f_7f7f_7f7f
    case South => x >> 8
    case Southwest => (x >> 7) & 0x00fe_fefe_fefe_fefe
    case West => (x << 1) & 0xfefe_fefe_fefe_fefe
    case Northwest => (x << 9) & 0xfefe_fefe_fefe_fe00
    case North => x << 8
    case Northeast => (x << 7) & 0x7f7f_7f7f_7f7f_7f00
  }

  const AFile: bv64 := 0x8080_8080_8080_8080
  const HFile: bv64 := 0x0101_0101_0101_0101

  /** The masks stop runs from wrapping round to the other edge of the board. */
  lemma ShiftMasks(x: bv64)
    ensures Shift(x, East) & AFile == 0
    ensures Shift(x, Southeast) & AFile == 0
    ensures Shift(x, Northeast) & AFile == 0
    ensures Shift(x, West) & HFile == 0
    ensures Shift(x, Northwest) & HFile == 0
    ensures Shift(x, Southwest) & HFile == 0
    ensures Shift(x, North) == x << 8 && Shift(x, South) == x >> 8
  {}

  /** The disc set holding just the square `o`, if there is one. */
  function SingleOf(o: Option<Sq>): bv64 {
    match o
    case None => 0
    case Some(j) => Single(j)
  }

  /** Shifts distribute over union. */
  lemma ShiftUnion(a: bv64, b: bv64, d: Direction)
    ensures Shift(a | b, d) == Shift(a, d) | Shift(b, d)
  {
    match d
    case North => case South => case East => case West =>
    case Northwest => case Southeast => case Northeast => case Southwest =>
  }

  // ------------------------------------------------------------- symmetries

  /** `flip_diag_a1_h8`: three delta swaps mirroring the board in the A1-H8 diagonal. */
  function FlipDiagA1H8(x: bv64): bv64 {
    var t := 0x0F0F_0F0F_0000_0000 & (x ^ (x << 28));
    var x := x ^ (t ^ (t >> 28));
    var t := 0x3333_0000_3333_0000 & (x ^ (x << 14));
    var x := x ^ (t ^ (t >> 14));
    var t := 0x5500_5500_5500_5500 & (x ^ (x << 7));
    x ^ (t ^ (t >> 7))
  }

  /** `flip_diag_a8_h1`: three delta swaps mirroring the board in the A8-H1 diagonal. */
  function FlipDiagA8H1(x: bv64): bv64 {
    var t := x ^ (x << 36);
    var x := x ^ (0xF0F0_F0F0_0F0F_0F0F & (t ^ (x >> 36)));
    var t := 0xCCCC_0000_CCCC_0000 & (x ^ (x << 18));
    var x := x ^ (t ^ (t >> 18));
    var t := 0xAA00_AA00_AA00_AA00 & (x ^ (x << 9));
    x ^ (t ^ (t >> 9))
  }

  /** `rotate180`: the bit order reversed by swapping ever larger blocks. */
  function Rotate180(x: bv64): bv64 {
    var x := ((x >> 1) & 0x5555_5555_5555_5555) | ((x & 0x5555_5555_5555_5555) << 1);
    var x := ((x >> 2) & 0x3333_3333_3333_3333) | ((x & 0x3333_3333_3333_3333) << 2);
    var x := ((x >> 4) & 0x0F0F_0F0F_0F0F_0F0F) | ((x & 0x0F0F_0F0F_0F0F_0F0F) << 4);
    var x := ((x >> 8) & 0x00FF_00FF_00FF_00FF) | ((x & 0x00FF_00FF_00FF_00FF) << 8);
    var x := ((x >> 16) & 0x0000_FFFF_0000_FFFF) | ((x & 0x0000_FFFF_0000_FFFF) << 16);
    (x >> 32) | (x << 32)
  }

  /** Bit `8a + b` to bit `8b + a`: rank and file exchanged, so A1 and H8 stay put. */
  function Transpose(j: Sq): Sq {
    ((j & 7) << 3) | (j >> 3)
  }

  /** Bit `8a + b` to bit `8(7 - b) + (7 - a)`: A8 and H1 stay put. */
  function AntiTranspose(j: Sq): Sq {
    ((7 - (j & 7)) << 3) | (7 - (j >> 3))
  }

  // Each transform permutes the 64 bits, so it sends a single square to a
  // single square and commutes with intersection; together these give the
  // square-by-square statements below.

  lemma Rotate180Single(j: Sq)
    ensures Rotate180(Single(j)) == Single(63 - j)
  {}

  lemma Rotate180And(a: bv64, b: bv64)
    ensures Rotate180(a & b) == Rotate180(a) & Rotate180(b)
  {}

  lemma Rotate180Zero(a: bv64)
    ensures Rotate180(a) == 0 <==> a == 0
  {}

  /** Square `j` of the rotated board holds what square `63 - j` held. */
  lemma Rotate180Bit(x: bv64, j: Sq)
    ensures Bit(Rotate180(x), j) == Bit(x, 63 - j)
  {
    var s := Single(63 - j);
    Rotate180Single(j);
    Rotate180And(x, s);
    Rotate180Zero(x & s);
  }

  lemma FlipDiagA1H8Single(j: Sq)
    ensures FlipDiagA1H8(Single(Transpose(j))) == Single(j)
  {}

  lemma FlipDiagA1H8And(a: bv64, b: bv64)
    ensures FlipDiagA1H8(a & b) == FlipDiagA1H8(a) & FlipDiagA1H8(b)
  {}

  lemma FlipDiagA1H8Zero(a: bv64)
    ensures FlipDiagA1H8(a) == 0 <==> a == 0
  {}

  /** Square `j` of the mirrored board holds what its transpose held. */
  lemma FlipDiagA1H8Bit(x: bv64, j: Sq)
    ensures Bit(FlipDiagA1H8(x), j) == Bit(x, Transpose(j))
  {
    var s := Single(Transpose(j));
    FlipDiagA1H8Single(j);
    FlipDiagA1H8And(x, s);
    FlipDiagA1H8Zero(x & s);
  }

  lemma FlipDiagA8H1Single(j: Sq)
    ensures FlipDiagA8H1(Single(AntiTranspose(j))) == Single(j)
  {}

  lemma FlipDiagA8H1And(a: bv64, b: bv64)
    ensures FlipDiagA8H1(a & b) == FlipDiagA8H1(a) & FlipDiagA8H1(b)
  {}

  lemma FlipDiagA8H1Zero(a: bv64)
    ensures FlipDiagA8H1(a) == 0 <==> a == 0
  {}

  /** Square `j` of the mirrored board holds what its anti-transpose held. */
  lemma FlipDiagA8H1Bit(x: bv64, j: Sq)
    ensures Bit(FlipDiagA8H1(x), j) == Bit(x, AntiTranspose(j))
  {
    var s := Single(AntiTranspose(j));
    FlipDiagA8H1Single(j);
    FlipDiagA8H1And(x, s);
    FlipDiagA8H1Zero(x & s);
  }

  /** The mirror images of the corner squares: each transform fixes two and swaps two. */
  lemma SymmetryCorners()
    ensures Transpose(63) == 63 && Transpose(0) == 0 && Transpose(7) == 56 && Transpose(56) == 7
    ensures AntiTranspose(7) == 7 && AntiTranspose(56) == 56 && AntiTranspose(63) == 0 && AntiTranspose(0) == 63
  {}

  lemma Rotate180Involution(x: bv64)
    ensures Rotate180(Rotate180(x)) == x
  {}

  lemma FlipDiagA1H8Involution(x: bv64)
    ensures FlipDiagA1H8(FlipDiagA1H8(x)) == x
  {}

  lemma FlipDiagA8H1Involution(x: bv64)
    ensures FlipDiagA8H1(FlipDiagA8H1(x)) == x
  {}

  lemma Rotate180KeepsDisjoint(a: bv64, b: bv64)
    requires DisjointBits(a, b)
    ensures DisjointBits(Rotate180(a), Rotate180(b))
  {}

  lemma FlipDiagA1H8KeepsDisjoint(a: bv64, b: bv64)
    requires DisjointBits(a, b)
    ensures DisjointBits(FlipDiagA1H8(a), FlipDiagA1H8(b))
  {}

  lemma FlipDiagA8H1KeepsDisjoint(a: bv64, b: bv64)
    requires DisjointBits(a, b)
    ensures DisjointBits(FlipDiagA8H1(a), FlipDiagA8H1(b))
  {}

  // ------------------------------------------------------------ population

  /** `count_ones`: the number of squares in a disc set. */
  function Pop(x: bv64): nat
    decreases x
  {
    if x == 0 then 0 else (if x & 1 == 1 then 1 else 0) + Pop(x >> 1)
  }

  /** A disc set with square `i` taken out has one disc fewer. */
  lemma {:induction false} PopRemove(y: bv64, i: Sq)
    requires Bit(y, i)
    ensures Pop(y) == 1 + Pop(y & !Single(i))
    decreases i
  {
    if i == 0 {
      RemoveLowest(y);
    } else {
      RemoveHigher(y, i);
      PopRemove(y >> 1, i - 1);
    }
  }

  lemma RemoveLowest(y: bv64)
    requires Bit(y, 0)
    ensures y != 0 && y & 1 == 1 && (y & !Single(0)) & 1 == 0 && (y & !Single(0)) >> 1 == y >> 1
  {}

  lemma RemoveHigher(y: bv64, i: Sq)
    requires Bit(y, i) && i != 0
    ensures y != 0 && Bit(y >> 1, i - 1) && (y & !Single(i)) & 1 == y & 1
    ensures (y & !Single(i)) >> 1 == (y >> 1) & !Single(i - 1)
  {}

  /** The number of bits below position `k`, counted without leaving bit-vectors. */
  function Width(k: bv64): nat
    decreases k
  {
    if k == 0 then 0 else 1 + Width(k - 1)
  }

  lemma {:induction false} PopWidth(x: bv64, k: bv64)
    requires k <= 64 && (k == 64 || x >> k == 0)
    ensures Pop(x) <= Width(k)
    decreases k
  {
    if k != 0 && x != 0 {
      ShiftWidth(x, k);
      PopWidth(x >> 1, k - 1);
    }
  }

  lemma ShiftWidth(x: bv64, k: bv64)
    requires 0 < k <= 64 && (k == 64 || x >> k == 0)
    ensures k - 1 == 64 || (x >> 1) >> (k - 1) == 0
  {}

  lemma {:induction false} WidthAdd(a: bv64, b: bv64)
    requires a <= 64 && b <= 64 - a
    ensures Width(a + b) == Width(a) + Width(b)
    decreases b
  {
    if b != 0 {
      WidthAdd(a, b - 1);
    }
  }

  /** No disc set has more than 64 squares. */
  lemma PopBound(x: bv64)
    ensures Pop(x) <= 64
  {
    PopWidth(x, 64);
    assert Width(8) == 8;
    WidthAdd(8, 8);
    WidthAdd(16, 16);
    WidthAdd(32, 32);
  }

  // ----------------------------------------------------------------- boards

  /** No square is in both sets. */
  predicate DisjointBits(x: bv64, y: bv64) {
    x & y == 0
  }

  /** Every square of `c` is in `y`. */
  predicate Within(c: bv64, y: bv64) {
    c & !y == 0
  }

  /** The squares in neither set. */
  function EmptyOf(x: bv64, y: bv64): bv64 {
    !(x | y)
  }

  /** `after` is `before` with the squares of `c` added. */
  predicate Gained(after: bv64, before: bv64, c: bv64) {
    after == before | c
  }

  /** `after` is `before` with the squares of `c` removed. */
  predicate Lost(after: bv64, before: bv64, c: bv64) {
    after == before & !c
  }

  /** `flip_discs` on the disc sets `x` (black) and `y` (white). */
  function FlipPair(x: bv64, y: bv64, discs: bv64): Option<Board> {
    if (x | y) & discs == discs then Some(Board(x ^ discs, y ^ discs)) else None
  }

  /** `Board(u64, u64)`: black's discs, then white's. */
  datatype Board = Board(black: bv64, white: bv64) {
    /** No square holds two discs; `from_disks` and play keep this. */
    predicate Disjoint() {
      DisjointBits(black, white)
    }

    /** `get_disks`. */
    function Disks(p: Player): bv64 {
      match p
      case Black => black
      case White => white
    }

    /** The squares nobody holds. */
    function Empty(): bv64 {
      EmptyOf(black, white)
    }

    /** `get`: black is looked at first. */
    function Get(xy: Sq): (r: Option<Player>)
    {
      if Bit(black, xy) then Some(Black)
      else if Bit(white, xy) then Some(White)
      else None
    }

    /**
     * `set`: `None` only when `p` already holds `xy`; a disc of the opponent on
     * `xy` is not looked at, and stays.
     */
    function Set(xy: Sq, p: Player): (r: Option<Board>)
      ensures r.Some? <==> !Bit(Disks(p), xy)
      ensures r.Some? ==> r.value.Disks(p) == Disks(p) | Single(xy)
      ensures r.Some? ==> r.value.Disks(p.Opponent()) == Disks(p.Opponent())
    {
      match p
      case Black => if !Bit(black, xy) then Some(Board(black | Single(xy), white)) else None
      case White => if !Bit(white, xy) then Some(Board(black, white | Single(xy))) else None
    }

    /**
     * `flip_discs`: every square of `discs` changes owner. `None` is the panic
     * for a disc set that is not inside the occupied squares.
     */
    function FlipDiscs(discs: bv64): Option<Board> {
      FlipPair(black, white, discs)
    }

    /** `count`. */
    function Count(p: Player): (n: nat)
      ensures n <= 64
    {
      PopBound(Disks(p));
      Pop(Disks(p))
    }

    /** `Board::flip_diag_a1_h8`: both disc sets mirrored in the A1-H8 diagonal. */
    function FlippedA1H8(): Board {
      Board(FlipDiagA1H8(black), FlipDiagA1H8(white))
    }

    /** `Board::flip_diag_a8_h1`. */
    function FlippedA8H1(): Board {
      Board(FlipDiagA8H1(black), FlipDiagA8H1(white))
    }

    /** `Board::rotate180`. */
    function Rotated180(): Board {
      Board(Rotate180(black), Rotate180(white))
    }

    /** `equivalent`: equal, or equal after one of the three symmetries. */
    predicate Equivalent(other: Board) {
      this == other || FlippedA1H8() == other || FlippedA8H1() == other || Rotated180() == other
    }
  }

  /** `get` names the owner of an occupied square ... */
  lemma GetOwner(b: Board, xy: Sq)
    requires b.Get(xy).Some?
    ensures Bit(b.Disks(b.Get(xy).value), xy)
  {}

  /** ... which on a disjoint board is the one player holding it. */
  lemma GetDisks(b: Board, xy: Sq, p: Player)
    requires b.Disjoint() && Bit(b.Disks(p), xy)
    ensures b.Get(xy) == Some(p)
  {}

  /** `get` is `None` exactly on the empty squares. */
  lemma GetEmpty(b: Board, xy: Sq)
    requires b.Get(xy).None?
    ensures Bit(b.Empty(), xy)
  {}

  lemma GetOccupied(b: Board, xy: Sq)
    requires b.Get(xy).Some?
    ensures !Bit(b.Empty(), xy)
  {}

  /** `Board::initial`: white on D4 and E5, black on E4 and D5. */
  function Initial(): (b: Board)
    ensures b.Disjoint()
    ensures b.Get(36) == Some(White) && b.Get(27) == Some(White)
    ensures b.Get(35) == Some(Black) && b.Get(28) == Some(Black)
    ensures b.black | b.white == Single(36) | Single(35) | Single(28) | Single(27)
  {
    Board(0x0000_0008_1000_0000, 0x0000_0010_0800_0000)
  }

  lemma InitialCount()
    ensures Initial().Count(Black) == 2 && Initial().Count(White) == 2
  {
    var b := Initial();
    PopRemove(b.black, 35);
    PopRemove(b.black & !Single(35), 28);
    assert (b.black & !Single(35)) & !Single(28) == 0;
    PopRemove(b.white, 36);
    PopRemove(b.white & !Single(36), 27);
    assert (b.white & !Single(36)) & !Single(27) == 0;
  }

  /** `from_disks`; `None` is the panic on overlapping disc sets. */
  function FromDisks(black: bv64, white: bv64): (r: Option<Board>)
    ensures r.Some? <==> black & white == 0
    ensures r.Some? ==> r.value.Disjoint() && r.value.black == black && r.value.white == white
  {
    if black & white == 0 then Some(Board(black, white)) else None
  }

  /** `flip_discs` succeeds only on a set of occupied squares. */
  lemma FlipDiscsOccupied(b: Board, discs: bv64)
    requires b.FlipDiscs(discs).Some?
    ensures discs & b.Empty() == 0
  {
    Inside(discs, b.black | b.white);
  }

  /** `flip_discs` does not panic on a set of occupied squares. */
  lemma FlipDiscsDefined(b: Board, discs: bv64)
    requires discs & b.Empty() == 0
    ensures b.FlipDiscs(discs).Some?
  {
    Outside(discs, b.black | b.white);
  }

  /**
   * On a disjoint board `flip_discs` hands each disc of `discs` to the other
   * player and leaves every other square alone.
   */
  lemma FlipDiscsBlack(b: Board, discs: bv64)
    requires b.Disjoint() && b.FlipDiscs(discs).Some?
    ensures b.FlipDiscs(discs).value.black == (b.black & !discs) | (b.white & discs)
  {}

  lemma FlipDiscsWhite(b: Board, discs: bv64)
    requires b.Disjoint() && b.FlipDiscs(discs).Some?
    ensures b.FlipDiscs(discs).value.white == (b.white & !discs) | (b.black & discs)
  {}

  lemma FlipDiscsKeepsDisjoint(b: Board, discs: bv64)
    requires b.Disjoint() && b.FlipDiscs(discs).Some?
    ensures b.FlipDiscs(discs).value.Disjoint()
  {}

  /** Each symmetry moves both disc sets, so a disjoint board stays disjoint. */
  lemma FlippedA1H8KeepsDisjoint(b: Board)
    requires b.Disjoint()
    ensures b.FlippedA1H8().Disjoint()
  {
    FlipDiagA1H8KeepsDisjoint(b.black, b.white);
  }

  lemma FlippedA8H1KeepsDisjoint(b: Board)
    requires b.Disjoint()
    ensures b.FlippedA8H1().Disjoint()
  {
    FlipDiagA8H1KeepsDisjoint(b.black, b.white);
  }

  lemma Rotated180KeepsDisjoint(b: Board)
    requires b.Disjoint()
    ensures b.Rotated180().Disjoint()
  {
    Rotate180KeepsDisjoint(b.black, b.white);
  }

  lemma SymmetriesInvolutive(b: Board)
    ensures b.FlippedA1H8().FlippedA1H8() == b
    ensures b.FlippedA8H1().FlippedA8H1() == b
    ensures b.Rotated180().Rotated180() == b
  {
    FlipDiagA1H8Involution(b.black);
    FlipDiagA1H8Involution(b.white);
    FlipDiagA8H1Involution(b.black);
    FlipDiagA8H1Involution(b.white);
    Rotate180Involution(b.black);
    Rotate180Involution(b.white);
  }

  /** `equivalent` holds between a board and each of its images, in both directions. */
  lemma EquivalentImages(b: Board)
    ensures b.Equivalent(b) && b.Equivalent(b.FlippedA1H8()) && b.Equivalent(b.FlippedA8H1()) && b.Equivalent(b.Rotated180())
    ensures b.FlippedA1H8().Equivalent(b) && b.FlippedA8H1().Equivalent(b) && b.Rotated180().Equivalent(b)
  {
    SymmetriesInvolutive(b);
  }

  /** Since each symmetry undoes itself, `equivalent` is symmetric. */
  lemma EquivalentSymmetric(b: Board, other: Board)
    requires b.Equivalent(other)
    ensures other.Equivalent(b)
  {
    if other == b {
    } else if other == b.FlippedA1H8() {
      SymmetriesInvolutive(b);
      assert other.FlippedA1H8() == b;
    } else if other == b.FlippedA8H1() {
      SymmetriesInvolutive(b);
      assert other.FlippedA8H1() == b;
    } else {
      SymmetriesInvolutive(b);
      assert other.Rotated180() == b;
    }
  }

  /** `Action`: where the disc went and the board it made. */
  datatype Action = Action(at: Sq, board: Board)

  // ------------------------------------------------- fast move generation

  /** One extension step of a run: `x | (x.shift(d) & opp_disks)`. */
  function Extend(x: bv64, d: Direction, opp: bv64): bv64 {
    x | (Shift(x, d) & opp)
  }

  /**
   * The run of opponent discs reachable from `seed` in direction `d`: one seed
   * step and five extension steps, as written out in `valid_moves_fast`,
   * `place_at_unchecked` and `valid_moves`.
   */
  function Propagate(seed: bv64, d: Direction, opp: bv64): bv64 {
    Extend(Extend(Extend(Extend(Extend(Shift(seed, d) & opp, d, opp), d, opp), d, opp), d, opp), d, opp)
  }

  /** The empty squares that end a run in direction `d` started from `my`. */
  function DirMoves(my: bv64, opp: bv64, empty: bv64, d: Direction): bv64 {
    Shift(Propagate(my, d, opp), d) & empty
  }

  /** The run from `seed` in direction `d`, kept only when it ends on a disc of `my`. */
  function DirCapture(seed: bv64, my: bv64, opp: bv64, d: Direction): bv64 {
    Closing(Propagate(seed, d, opp), d, my)
  }

  /** `x` if the square after it in direction `d` holds a disc of `my`, else nothing. */
  function Closing(x: bv64, d: Direction, my: bv64): bv64 {
    if Shift(x, d) & my != 0 then x else 0
  }

  /** `moves` after the first `k` directions of the compass rose. */
  function MovesUpTo(my: bv64, opp: bv64, empty: bv64, k: nat): bv64
    requires k <= |CompassRose|
  {
    if k == 0 then 0 else MovesUpTo(my, opp, empty, k - 1) | DirMoves(my, opp, empty, CompassRose[k - 1])
  }

  /** `captured_disks` after the first `k` directions of the compass rose. */
  function CaptureUpTo(seed: bv64, my: bv64, opp: bv64, k: nat): bv64
    requires k <= |CompassRose|
  {
    if k == 0 then 0 else CaptureUpTo(seed, my, opp, k - 1) | DirCapture(seed, my, opp, CompassRose[k - 1])
  }

  lemma MovesStep(my: bv64, opp: bv64, empty: bv64, k: nat, d: Direction)
    requires k < |CompassRose| && d == CompassRose[k]
    ensures MovesUpTo(my, opp, empty, k + 1) == MovesUpTo(my, opp, empty, k) | DirMoves(my, opp, empty, d)
  {}

  lemma CaptureStep(seed: bv64, my: bv64, opp: bv64, k: nat, d: Direction)
    requires k < |CompassRose| && d == CompassRose[k]
    ensures CaptureUpTo(seed, my, opp, k + 1) == CaptureUpTo(seed, my, opp, k) | DirCapture(seed, my, opp, d)
  {}

  /** The legal-move mask of `p`, the value of `valid_moves_fast`. */
  function MovesMask(b: Board, p: Player): bv64 {
    MovesUpTo(b.Disks(p), b.Disks(p.Opponent()), b.Empty(), |CompassRose|)
  }

  /** The discs `p` captures by playing `i`, as `place_at_unchecked` computes them. */
  function Captured(b: Board, p: Player, i: Sq): bv64 {
    CaptureAll(Single(i), b.Disks(p) | Single(i), b.Disks(p.Opponent()))
  }

  /** `captured_disks` after the whole compass rose. */
  function CaptureAll(seed: bv64, my: bv64, opp: bv64): bv64 {
    CaptureUpTo(seed, my, opp, |CompassRose|)
  }

  /**
   * The board after `p` plays `i`: the disc is added to `p`'s set and the
   * captured discs change owner. Nothing is checked (`place_at_unchecked`).
   */
  function PlaceAt(b: Board, p: Player, i: Sq): Board {
    Assemble(p, b.Disks(p) | Single(i), b.Disks(p.Opponent()), Captured(b, p, i))
  }

  /** The board whose `p` discs are `my ^ c` and whose other discs are `opp ^ c`. */
  function Assemble(p: Player, my: bv64, opp: bv64, c: bv64): Board {
    if p == White then Board(opp ^ c, my ^ c) else Board(my ^ c, opp ^ c)
  }

  /** One pass of the direction loop of `valid_moves_fast`. */
  method DirectionMoves(my: bv64, opp: bv64, empty: bv64, d: Direction) returns (m: bv64)
    ensures m == DirMoves(my, opp, empty, d)
  {
    var x := Shift(my, d) & opp;
    x := Extend(x, d, opp);
    x := Extend(x, d, opp);
    x := Extend(x, d, opp);
    x := Extend(x, d, opp);
    x := Extend(x, d, opp);
    m := Shift(x, d) & empty;
  }

  /** `valid_moves_fast`. */
  method ValidMovesFast(b: Board, p: Player) returns (moves: bv64)
    ensures moves == MovesMask(b, p)
  {
    var empty := b.Empty();
    moves := 0;
    var my := b.Disks(p);
    var opp := b.Disks(p.Opponent());
    for k := 0 to |CompassRose|
      invariant moves == MovesUpTo(my, opp, empty, k)
    {
      var d := CompassRose[k];
      MovesStep(my, opp, empty, k, d);
      var m := DirectionMoves(my, opp, empty, d);
      moves := moves | m;
    }
  }

  /** One pass of the direction loop of `place_at_unchecked`: the run is kept if `my` closes it. */
  method DirectionCapture(seed: bv64, my: bv64, opp: bv64, d: Direction) returns (c: bv64)
    ensures c == DirCapture(seed, my, opp, d)
  {
    var x := Shift(seed, d) & opp;
    x := Extend(x, d, opp);
    x := Extend(x, d, opp);
    x := Extend(x, d, opp);
    x := Extend(x, d, opp);
    x := Extend(x, d, opp);
    c := if Shift(x, d) & my != 0 then x else 0;
  }

  /** The direction loop shared by `place_at_unchecked` and `valid_moves`. */
  method CaptureDiscs(seed: bv64, my: bv64, opp: bv64) returns (captured: bv64)
    ensures captured == CaptureAll(seed, my, opp)
  {
    captured := 0;
    for k := 0 to |CompassRose|
      invariant captured == CaptureUpTo(seed, my, opp, k)
    {
      var d := CompassRose[k];
      CaptureStep(seed, my, opp, k, d);
      var c := DirectionCapture(seed, my, opp, d);
      captured := captured | c;
    }
  }

  /** `place_at_unchecked`: the final branch on `p` is `Assemble`. */
  method PlaceAtUnchecked(b: Board, p: Player, i: Sq) returns (r: Board)
    ensures r == PlaceAt(b, p, i)
  {
    var my := b.Disks(p) | Single(i);
    var opp := b.Disks(p.Opponent());
    var captured := CaptureDiscs(Single(i), my, opp);
    r := Assemble(p, my, opp, captured);
  }

  /** `is_final`: neither player has a legal move. */
  function IsFinal(b: Board): bool {
    MovesMask(b, Black) == 0 && MovesMask(b, White) == 0
  }

  // ------------------------------------------------------- effect of a move

  /** A run only ever holds opponent discs. */
  lemma PropagateWithin(seed: bv64, d: Direction, opp: bv64)
    ensures Within(Propagate(seed, d, opp), opp)
  {
    var x := Shift(seed, d) & opp;
    CutWithin(Shift(seed, d), opp);
    PropagateSteps(seed, d, opp, x);
    ExtendFive(x, d, opp, Propagate(seed, d, opp));
  }

  /** A run is the first step from the seed, extended five times. */
  lemma PropagateSteps(seed: bv64, d: Direction, opp: bv64, x: bv64)
    requires x == Shift(seed, d) & opp
    ensures Propagate(seed, d, opp) == Extend(Extend(Extend(Extend(Extend(x, d, opp), d, opp), d, opp), d, opp), d, opp)
  {}

  lemma CutWithin(x: bv64, opp: bv64)
    ensures Within(x & opp, opp)
  {}

  lemma ExtendFive(x: bv64, d: Direction, opp: bv64, r: bv64)
    requires Within(x, opp)
    requires r == Extend(Extend(Extend(Extend(Extend(x, d, opp), d, opp), d, opp), d, opp), d, opp)
    ensures Within(r, opp)
  {
    var x1 := Extend(x, d, opp);
    ExtendWithin(x, d, opp);
    var x2 := Extend(x1, d, opp);
    ExtendWithin(x1, d, opp);
    var x3 := Extend(x2, d, opp);
    ExtendWithin(x2, d, opp);
    var x4 := Extend(x3, d, opp);
    ExtendWithin(x3, d, opp);
    ExtendWithin(x4, d, opp);
  }

  lemma ExtendWithin(x: bv64, d: Direction, opp: bv64)
    ensures Within(x, opp) ==> Within(Extend(x, d, opp), opp)
  {}

  lemma {:induction false} CaptureUpToWithin(seed: bv64, my: bv64, opp: bv64, k: nat)
    requires k <= |CompassRose|
    ensures Within(CaptureUpTo(seed, my, opp, k), opp)
  {
    if k > 0 {
      CaptureUpToWithin(seed, my, opp, k - 1);
      DirCaptureWithin(seed, my, opp, CompassRose[k - 1]);
      UnionWithin(CaptureUpTo(seed, my, opp, k - 1), DirCapture(seed, my, opp, CompassRose[k - 1]), opp);
    }
  }

  lemma DirCaptureWithin(seed: bv64, my: bv64, opp: bv64, d: Direction)
    ensures Within(DirCapture(seed, my, opp, d), opp)
  {
    PropagateWithin(seed, d, opp);
  }

  lemma UnionWithin(x: bv64, y: bv64, opp: bv64)
    requires Within(x, opp) && Within(y, opp)
    ensures Within(x | y, opp)
  {}

  /** `place_at_unchecked` captures opponent discs only. */
  lemma CapturedWithin(b: Board, p: Player, i: Sq)
    ensures Within(Captured(b, p, i), b.Disks(p.Opponent()))
  {
    var seed, my, opp := Single(i), b.Disks(p) | Single(i), b.Disks(p.Opponent());
    CaptureAllWithin(seed, my, opp);
    assert Captured(b, p, i) == CaptureAll(seed, my, opp);
  }

  lemma CaptureAllWithin(seed: bv64, my: bv64, opp: bv64)
    ensures Within(CaptureAll(seed, my, opp), opp)
  {
    CaptureUpToWithin(seed, my, opp, |CompassRose|);
  }

  lemma {:induction false} MovesUpToEmpty(my: bv64, opp: bv64, empty: bv64, k: nat)
    requires k <= |CompassRose|
    ensures Within(MovesUpTo(my, opp, empty, k), empty)
  {
    if k > 0 {
      MovesUpToEmpty(my, opp, empty, k - 1);
      DirMovesEmpty(Propagate(my, CompassRose[k - 1], opp), CompassRose[k - 1], empty);
      UnionWithin(MovesUpTo(my, opp, empty, k - 1), DirMoves(my, opp, empty, CompassRose[k - 1]), empty);
    }
  }

  lemma DirMovesEmpty(x: bv64, d: Direction, empty: bv64)
    ensures Within(Shift(x, d) & empty, empty)
  {}

  /** A legal move is on an empty square. */
  lemma MovesAreEmpty(b: Board, p: Player, i: Sq)
    requires Bit(MovesMask(b, p), i)
    ensures Bit(b.Empty(), i)
  {
    MovesUpToEmpty(b.Disks(p), b.Disks(p.Opponent()), b.Empty(), |CompassRose|);
    InsideOf(MovesMask(b, p), b.Empty(), i);
  }

  lemma InsideOf(x: bv64, y: bv64, i: Sq)
    requires Within(x, y) && Bit(x, i)
    ensures Bit(y, i)
  {}

  /*
   * The effect of `place_at_unchecked` is proved first on plain disc sets
   * `bl` and `wh` (black's and white's), the played square `i` and a capture
   * `c`, then for `Assemble` on a board with any capture inside the opponent's
   * discs, and last for `PlaceAt` itself, one player at a time.
   */

  /** `r` is the board `b` after `p` plays the empty square `i` and captures `c`. */
  predicate Placed(b: Board, p: Player, i: Sq, c: bv64, r: Board) {
    r.Disjoint() && Lost(r.Empty(), b.Empty(), Single(i))
    && Gained(r.Disks(p), b.Disks(p), Single(i) | c) && Lost(r.Disks(p.Opponent()), b.Disks(p.Opponent()), c)
  }

  lemma FreeSquare(bl: bv64, wh: bv64, i: Sq)
    ensures Bit(EmptyOf(bl, wh), i) ==> DisjointBits(Single(i), bl | wh)
  {}

  lemma BlackDisjointBits(bl: bv64, wh: bv64, i: Sq, c: bv64)
    requires DisjointBits(bl, wh) && DisjointBits(Single(i), bl | wh) && Within(c, wh)
    ensures DisjointBits((bl | Single(i)) ^ c, wh ^ c)
  {}

  lemma BlackDisjoint(bl: bv64, wh: bv64, i: Sq, c: bv64)
    ensures DisjointBits(bl, wh) && DisjointBits(Single(i), bl | wh) && Within(c, wh) ==>
      DisjointBits((bl | Single(i)) ^ c, wh ^ c)
  {
    if DisjointBits(bl, wh) && DisjointBits(Single(i), bl | wh) && Within(c, wh) {
      BlackDisjointBits(bl, wh, i, c);
    }
  }

  lemma BlackEmptyBits(bl: bv64, wh: bv64, i: Sq, c: bv64)
    requires DisjointBits(bl, wh) && DisjointBits(Single(i), bl | wh) && Within(c, wh)
    ensures Lost(EmptyOf((bl | Single(i)) ^ c, wh ^ c), EmptyOf(bl, wh), Single(i))
  {}

  lemma BlackEmpty(bl: bv64, wh: bv64, i: Sq, c: bv64)
    ensures DisjointBits(bl, wh) && DisjointBits(Single(i), bl | wh) && Within(c, wh) ==>
      Lost(EmptyOf((bl | Single(i)) ^ c, wh ^ c), EmptyOf(bl, wh), Single(i))
  {
    if DisjointBits(bl, wh) && DisjointBits(Single(i), bl | wh) && Within(c, wh) {
      BlackEmptyBits(bl, wh, i, c);
    }
  }

  lemma BlackGainsBits(bl: bv64, wh: bv64, i: Sq, c: bv64)
    requires DisjointBits(bl, wh) && DisjointBits(Single(i), bl | wh) && Within(c, wh)
    ensures Gained((bl | Single(i)) ^ c, bl, Single(i) | c)
  {}

  lemma BlackGains(bl: bv64, wh: bv64, i: Sq, c: bv64)
    ensures DisjointBits(bl, wh) && DisjointBits(Single(i), bl | wh) && Within(c, wh) ==>
      Gained((bl | Single(i)) ^ c, bl, Single(i) | c)
  {
    if DisjointBits(bl, wh) && DisjointBits(Single(i), bl | wh) && Within(c, wh) {
      BlackGainsBits(bl, wh, i, c);
    }
  }

  lemma WhiteDisjointBits(bl: bv64, wh: bv64, i: Sq, c: bv64)
    requires DisjointBits(bl, wh) && DisjointBits(Single(i), bl | wh) && Within(c, bl)
    ensures DisjointBits(bl ^ c, (wh | Single(i)) ^ c)
  {}

  lemma WhiteDisjoint(bl: bv64, wh: bv64, i: Sq, c: bv64)
    ensures DisjointBits(bl, wh) && DisjointBits(Single(i), bl | wh) && Within(c, bl) ==>
      DisjointBits(bl ^ c, (wh | Single(i)) ^ c)
  {
    if DisjointBits(bl, wh) && DisjointBits(Single(i), bl | wh) && Within(c, bl) {
      WhiteDisjointBits(bl, wh, i, c);
    }
  }

  lemma WhiteEmptyBits(bl: bv64, wh: bv64, i: Sq, c: bv64)
    requires DisjointBits(bl, wh) && DisjointBits(Single(i), bl | wh) && Within(c, bl)
    ensures Lost(EmptyOf(bl ^ c, (wh | Single(i)) ^ c), EmptyOf(bl, wh), Single(i))
  {}

  lemma WhiteEmpty(bl: bv64, wh: bv64, i: Sq, c: bv64)
    ensures DisjointBits(bl, wh) && DisjointBits(Single(i), bl | wh) && Within(c, bl) ==>
      Lost(EmptyOf(bl ^ c, (wh | Single(i)) ^ c), EmptyOf(bl, wh), Single(i))
  {
    if DisjointBits(bl, wh) && DisjointBits(Single(i), bl | wh) && Within(c, bl) {
      WhiteEmptyBits(bl, wh, i, c);
    }
  }

  lemma WhiteGainsBits(bl: bv64, wh: bv64, i: Sq, c: bv64)
    requires DisjointBits(bl, wh) && DisjointBits(Single(i), bl | wh) && Within(c, bl)
    ensures Gained((wh | Single(i)) ^ c, wh, Single(i) | c)
  {}

  lemma WhiteGains(bl: bv64, wh: bv64, i: Sq, c: bv64)
    ensures DisjointBits(bl, wh) && DisjointBits(Single(i), bl | wh) && Within(c, bl) ==>
      Gained((wh | Single(i)) ^ c, wh, Single(i) | c)
  {
    if DisjointBits(bl, wh) && DisjointBits(Single(i), bl | wh) && Within(c, bl) {
      WhiteGainsBits(bl, wh, i, c);
    }
  }

  lemma LosesCaptured(y: bv64, c: bv64)
    ensures Within(c, y) ==> Lost(y ^ c, y, c)
  {}

  lemma AssembleBlackDisjoint(b: Board, i: Sq, c: bv64)
    requires b.Disjoint() && Bit(b.Empty(), i) && Within(c, b.Disks(Black.Opponent()))
    ensures Assemble(Black, b.Disks(Black) | Single(i), b.Disks(Black.Opponent()), c).Disjoint()
  {
    FreeSquare(b.black, b.white, i);
    BlackDisjoint(b.black, b.white, i, c);
  }

  lemma AssembleBlackEmpty(b: Board, i: Sq, c: bv64)
    requires b.Disjoint() && Bit(b.Empty(), i) && Within(c, b.Disks(Black.Opponent()))
    ensures Lost(Assemble(Black, b.Disks(Black) | Single(i), b.Disks(Black.Opponent()), c).Empty(), b.Empty(), Single(i))
  {
    FreeSquare(b.black, b.white, i);
    BlackEmpty(b.black, b.white, i, c);
  }

  lemma AssembleBlackGains(b: Board, i: Sq, c: bv64)
    requires b.Disjoint() && Bit(b.Empty(), i) && Within(c, b.Disks(Black.Opponent()))
    ensures Gained(Assemble(Black, b.Disks(Black) | Single(i), b.Disks(Black.Opponent()), c).Disks(Black), b.Disks(Black), Single(i) | c)
  {
    FreeSquare(b.black, b.white, i);
    BlackGains(b.black, b.white, i, c);
  }

  lemma AssembleBlackLoses(b: Board, i: Sq, c: bv64)
    requires Within(c, b.Disks(Black.Opponent()))
    ensures Lost(Assemble(Black, b.Disks(Black) | Single(i), b.Disks(Black.Opponent()), c).Disks(Black.Opponent()), b.Disks(Black.Opponent()), c)
  {
    LosesCaptured(b.white, c);
  }

  lemma AssembleWhiteDisjoint(b: Board, i: Sq, c: bv64)
    requires b.Disjoint() && Bit(b.Empty(), i) && Within(c, b.Disks(White.Opponent()))
    ensures Assemble(White, b.Disks(White) | Single(i), b.Disks(White.Opponent()), c).Disjoint()
  {
    FreeSquare(b.black, b.white, i);
    WhiteDisjoint(b.black, b.white, i, c);
  }

  lemma AssembleWhiteEmpty(b: Board, i: Sq, c: bv64)
    requires b.Disjoint() && Bit(b.Empty(), i) && Within(c, b.Disks(White.Opponent()))
    ensures Lost(Assemble(White, b.Disks(White) | Single(i), b.Disks(White.Opponent()), c).Empty(), b.Empty(), Single(i))
  {
    FreeSquare(b.black, b.white, i);
    WhiteEmpty(b.black, b.white, i, c);
  }

  lemma AssembleWhiteGains(b: Board, i: Sq, c: bv64)
    requires b.Disjoint() && Bit(b.Empty(), i) && Within(c, b.Disks(White.Opponent()))
    ensures Gained(Assemble(White, b.Disks(White) | Single(i), b.Disks(White.Opponent()), c).Disks(White), b.Disks(White), Single(i) | c)
  {
    FreeSquare(b.black, b.white, i);
    WhiteGains(b.black, b.white, i, c);
  }

  lemma AssembleWhiteLoses(b: Board, i: Sq, c: bv64)
    requires Within(c, b.Disks(White.Opponent()))
    ensures Lost(Assemble(White, b.Disks(White) | Single(i), b.Disks(White.Opponent()), c).Disks(White.Opponent()), b.Disks(White.Opponent()), c)
  {
    LosesCaptured(b.black, c);
  }

  lemma AssembleBlack(b: Board, i: Sq, c: bv64)
    requires b.Disjoint() && Bit(b.Empty(), i) && Within(c, b.Disks(Black.Opponent()))
    ensures Placed(b, Black, i, c, Assemble(Black, b.Disks(Black) | Single(i), b.Disks(Black.Opponent()), c))
  {
    AssembleBlackDisjoint(b, i, c);
    AssembleBlackEmpty(b, i, c);
    AssembleBlackGains(b, i, c);
    AssembleBlackLoses(b, i, c);
  }

  lemma AssembleWhite(b: Board, i: Sq, c: bv64)
    requires b.Disjoint() && Bit(b.Empty(), i) && Within(c, b.Disks(White.Opponent()))
    ensures Placed(b, White, i, c, Assemble(White, b.Disks(White) | Single(i), b.Disks(White.Opponent()), c))
  {
    AssembleWhiteDisjoint(b, i, c);
    AssembleWhiteEmpty(b, i, c);
    AssembleWhiteGains(b, i, c);
    AssembleWhiteLoses(b, i, c);
  }

  lemma PlaceBlack(b: Board, i: Sq)
    requires b.Disjoint() && Bit(b.Empty(), i)
    ensures Placed(b, Black, i, Captured(b, Black, i), PlaceAt(b, Black, i))
  {
    CapturedWithin(b, Black, i);
    AssembleBlack(b, i, Captured(b, Black, i));
  }

  lemma PlaceWhite(b: Board, i: Sq)
    requires b.Disjoint() && Bit(b.Empty(), i)
    ensures Placed(b, White, i, Captured(b, White, i), PlaceAt(b, White, i))
  {
    CapturedWithin(b, White, i);
    AssembleWhite(b, i, Captured(b, White, i));
  }

  /**
   * `place_at_unchecked` on an empty square of a board without overlaps:
   * the board stays without overlaps, exactly the played square stops being
   * empty, the mover gains the square and the captured discs, and the
   * opponent loses exactly the captured discs, which were all the opponent's.
   */
  lemma PlaceAtEffect(b: Board, p: Player, i: Sq)
    requires b.Disjoint() && Bit(b.Empty(), i)
    ensures Placed(b, p, i, Captured(b, p, i), PlaceAt(b, p, i))
    ensures Within(Captured(b, p, i), b.Disks(p.Opponent()))
  {
    CapturedWithin(b, p, i);
    if p == Black { PlaceBlack(b, i); } else { PlaceWhite(b, i); }
  }

  /** A legal move fills one empty square. */
  lemma PlaceAtFills(b: Board, p: Player, i: Sq)
    requires b.Disjoint() && Bit(MovesMask(b, p), i)
    ensures PlaceAt(b, p, i).Disjoint() && Pop(PlaceAt(b, p, i).Empty()) + 1 == Pop(b.Empty())
  {
    MovesAreEmpty(b, p, i);
    PlaceAtEffect(b, p, i);
    PopRemove(b.Empty(), i);
  }
}
