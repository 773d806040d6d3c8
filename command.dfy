/**
 * The line protocol of src/command.rs: `Cmd::try_from` turns a line into a
 * command (or an error, or the `unreachable!` panic), and `Display for Cmd`
 * writes a command back out.
 */
module Command {
  import opened Wrappers
  import Bitboard

  type U32 = n: int | 0 <= n < 0x1_0000_0000
  type I32 = n: int | -0x8000_0000 <= n < 0x8000_0000

  /** `Wl`. */
  datatype Wl = Win | Lose | Tie

  /** `Stat`: a player's name, score and win and loss counts. */
  datatype Stat = Stat(name: string, score: I32, nWin: U32, nLose: U32)

  /** `Cmd`; `Milliseconds` and `Score` are the bare numbers they wrap. */
  datatype Cmd =
    | Start(bw: Bitboard.Player, opponentName: string, remainingTime: U32)
    | End(result: Wl, myScore: U32, opponentScore: U32, reason: string)
    | Move(pos: Option<Bitboard.Sq>)
    | Ack(remainingTime: U32)
    | Bye(stat: seq<Stat>)

  /** `IntErrorKind`, the part of a `ParseIntError` that `from_str` fills in. */
  datatype IntErrorKind = Empty | InvalidDigit | PosOverflow | NegOverflow

  /** `CmdParseError`, without `IoError`, which only `read_cmd` produces. */
  datatype CmdParseError =
    | ParseIntError(kind: IntErrorKind)
    | ParsePosError(pos: Bitboard.ParsePosError)
    | NonAscii(text: string)
    | UnknownCommand(token: string)
    | UnexpectedToken(cmd: string, token: string)
    | ExpectedFound(cmd: string, expected: string, found: string)
    | Missing(cmd: string, what: string)

  /** What `try_from` does with a line: a command, an error, or the panic of `unreachable!`. */
  datatype Parse = Parsed(cmd: Cmd) | Failed(error: CmdParseError) | Panicked

  // ---------------------------------------------------------------- tokens

  /** Unicode `White_Space`, the separators of `split_whitespace`. */
  predicate IsSpace(c: char) {
    ('\t' <= c <= '\r') || c == ' ' || c == '\U{0085}' || c == '\U{00A0}' || c == '\U{1680}'
    || ('\U{2000}' <= c <= '\U{200A}') || c == '\U{2028}' || c == '\U{2029}' || c == '\U{202F}'
    || c == '\U{205F}' || c == '\U{3000}'
  }

  /** A token: a non-empty run of characters that are not white space. */
  predicate Word(w: string) {
    |w| > 0 && forall k | 0 <= k < |w| :: !IsSpace(w[k])
  }

  /** The length of the run of non-space characters that starts `s`. */
  function WordLen(s: string): (n: nat)
    ensures n <= |s|
  {
    if s == [] || IsSpace(s[0]) then 0 else 1 + WordLen(s[1..])
  }

  /** `split_whitespace().collect()`. */
  function Tokens(s: string): seq<string>
    decreases |s|
  {
    if s == [] then []
    else if IsSpace(s[0]) then Tokens(s[1..])
    else
      var n := WordLen(s);
      [s[..n]] + Tokens(s[n..])
  }

  lemma {:induction false} WordLenWord(s: string)
    requires s != [] && !IsSpace(s[0])
    ensures 0 < WordLen(s) && Word(s[..WordLen(s)])
    ensures WordLen(s) < |s| ==> IsSpace(s[WordLen(s)])
  {
    if |s| > 1 && !IsSpace(s[1]) {
      WordLenWord(s[1..]);
      var n := WordLen(s[1..]);
      assert s[..n + 1] == [s[0]] + s[1..][..n];
    }
  }

  /** Every token is a word. */
  lemma {:induction false} TokensAreWords(s: string)
    ensures forall k | 0 <= k < |Tokens(s)| :: Word(Tokens(s)[k])
    decreases |s|
  {
    if s != [] {
      if IsSpace(s[0]) {
        TokensAreWords(s[1..]);
      } else {
        WordLenWord(s);
        TokensAreWords(s[WordLen(s)..]);
      }
    }
  }

  lemma {:induction false} WordLenPrefix(w: string, rest: string)
    requires Word(w) && (rest == [] || IsSpace(rest[0]))
    ensures WordLen(w + rest) == |w|
  {
    if |w| > 1 {
      assert (w + rest)[1..] == w[1..] + rest;
      assert w[1..][0] == w[1];
      WordLenPrefix(w[1..], rest);
    } else {
      assert (w + rest)[1..] == rest;
    }
  }

  /** A word followed by nothing or by white space is the first token. */
  lemma WordThen(w: string, rest: string)
    requires Word(w) && (rest == [] || IsSpace(rest[0]))
    ensures Tokens(w + rest) == [w] + Tokens(rest)
  {
    WordLenPrefix(w, rest);
    assert (w + rest)[..|w|] == w;
    assert (w + rest)[|w|..] == rest;
  }

  lemma SpaceThen(rest: string)
    ensures Tokens(" " + rest) == Tokens(rest)
  {
    assert (" " + rest)[1..] == rest;
  }

  /** `" " + w + rest` contributes the token `w`. */
  lemma SpacedWord(w: string, rest: string)
    requires Word(w) && (rest == [] || IsSpace(rest[0]))
    ensures Tokens(" " + w + rest) == [w] + Tokens(rest)
  {
    assert " " + w + rest == " " + (w + rest);
    SpaceThen(w + rest);
    WordThen(w, rest);
  }

  // -------------------------------------------------------------- integers

  predicate IsDigit(c: char) {
    '0' <= c <= '9'
  }

  function DigitValue(c: char): nat
    requires IsDigit(c)
  {
    c as int - '0' as int
  }

  function DigitChar(d: nat): (c: char)
    requires d < 10
    ensures IsDigit(c) && DigitValue(c) == d
  {
    ('0' as int + d) as char
  }

  /**
   * The digit loop of `from_str_radix`, left to right: `acc * 10 + d` (or
   * `- d` for a negative number), failing at the first bad digit or the first
   * step out of `lo..=hi`.
   */
  function Digits(d: string, acc: int, lo: int, hi: int, neg: bool): Result<int, IntErrorKind>
    decreases |d|
  {
    if d == [] then Ok(acc)
    else if !IsDigit(d[0]) then Err(InvalidDigit)
    else
      var next := if neg then acc * 10 - DigitValue(d[0]) else acc * 10 + DigitValue(d[0]);
      if next > hi then Err(PosOverflow)
      else if next < lo then Err(NegOverflow)
      else Digits(d[1..], next, lo, hi, neg)
  }

  /** `str::parse` for an integer type with range `lo..=hi`; `signed` admits a leading `-`. */
  function FromStr(s: string, lo: int, hi: int, signed: bool): Result<int, IntErrorKind> {
    if s == [] then Err(Empty)
    else if (s[0] == '+' || s[0] == '-') && |s| == 1 then Err(InvalidDigit)
    else if s[0] == '+' then Digits(s[1..], 0, lo, hi, false)
    else if s[0] == '-' && signed then Digits(s[1..], 0, lo, hi, true)
    else Digits(s, 0, lo, hi, false)
  }

  function ParseU32(s: string): (r: Result<U32, IntErrorKind>)
    ensures r.Ok? ==> FromStr(s, 0, 0xffff_ffff, false) == Ok(r.value as int)
  {
    match FromStr(s, 0, 0xffff_ffff, false)
    case Ok(v) => if 0 <= v <= 0xffff_ffff then Ok(v as U32) else Err(PosOverflow)
    case Err(e) => Err(e)
  }

  function ParseI32(s: string): (r: Result<I32, IntErrorKind>)
    ensures r.Ok? ==> FromStr(s, -0x8000_0000, 0x7fff_ffff, true) == Ok(r.value as int)
  {
    match FromStr(s, -0x8000_0000, 0x7fff_ffff, true)
    case Ok(v) => if -0x8000_0000 <= v <= 0x7fff_ffff then Ok(v as I32) else Err(PosOverflow)
    case Err(e) => Err(e)
  }

  /** Every value `Digits` produces lies in `lo..=hi` when it starts there. */
  lemma {:induction false} DigitsInRange(d: string, acc: int, lo: int, hi: int, neg: bool)
    requires lo <= acc <= hi
    ensures Digits(d, acc, lo, hi, neg).Ok? ==> lo <= Digits(d, acc, lo, hi, neg).value <= hi
    decreases |d|
  {
    if d != [] && IsDigit(d[0]) {
      var next := if neg then acc * 10 - DigitValue(d[0]) else acc * 10 + DigitValue(d[0]);
      if lo <= next <= hi {
        DigitsInRange(d[1..], next, lo, hi, neg);
      }
    }
  }

  /** `ParseIntError`'s message, which START quotes in its error. */
  function IntErrorText(k: IntErrorKind): string {
    match k
    case Empty => "cannot parse integer from empty string"
    case InvalidDigit => "invalid digit found in string"
    case PosOverflow => "number too large to fit in target type"
    case NegOverflow => "number too small to fit in target type"
  }

  /** `Display` of an unsigned number: decimal, no leading zeros. */
  function ShowNat(n: nat): (s: string)
    ensures |s| > 0 && forall k | 0 <= k < |s| :: IsDigit(s[k])
    decreases n
  {
    if n < 10 then [DigitChar(n)] else ShowNat(n / 10) + [DigitChar(n % 10)]
  }

  /** `Display` of a signed number. */
  function ShowInt(i: int): string {
    if i < 0 then "-" + ShowNat(-i) else ShowNat(i)
  }

  /** The digit loop applied to `d` and then one more digit. */
  lemma {:induction false} DigitsSnoc(d: string, c: char, acc: int, lo: int, hi: int, neg: bool)
    requires IsDigit(c) && Digits(d, acc, lo, hi, neg).Ok?
    ensures var v := Digits(d, acc, lo, hi, neg).value;
      var next := if neg then v * 10 - DigitValue(c) else v * 10 + DigitValue(c);
      Digits(d + [c], acc, lo, hi, neg) == (if next > hi then Err(PosOverflow) else if next < lo then Err(NegOverflow) else Ok(next))
    decreases |d|
  {
    if d == [] {
      assert d + [c] == [c];
    } else {
      assert (d + [c])[1..] == d[1..] + [c];
      var next := if neg then acc * 10 - DigitValue(d[0]) else acc * 10 + DigitValue(d[0]);
      DigitsSnoc(d[1..], c, next, lo, hi, neg);
    }
  }

  /** The digit loop reads back what `ShowNat` writes, with the sign it is given. */
  lemma {:induction false} DigitsShowNat(n: nat, lo: int, hi: int, neg: bool)
    requires lo <= 0 <= hi
    requires if neg then -(n as int) >= lo else n <= hi
    ensures Digits(ShowNat(n), 0, lo, hi, neg) == Ok(if neg then -(n as int) else n as int)
    decreases n
  {
    if n < 10 {
      assert ShowNat(n)[1..] == [];
    } else {
      DigitsShowNat(n / 10, lo, hi, neg);
      DigitsSnoc(ShowNat(n / 10), DigitChar(n % 10), 0, lo, hi, neg);
    }
  }

  /** `t.to_string().parse::<u32>()` gives back `t`. */
  lemma ParseShowU32(t: U32)
    ensures ParseU32(ShowNat(t)) == Ok(t)
  {
    DigitsShowNat(t, 0, 0xffff_ffff, false);
  }

  /** `v.to_string().parse::<i32>()` gives back `v`. */
  lemma ParseShowI32(v: I32)
    ensures ParseI32(ShowInt(v)) == Ok(v)
  {
    if v < 0 {
      var m: nat := -(v as int);
      DigitsShowNat(m, -0x8000_0000, 0x7fff_ffff, true);
      assert ShowInt(v)[1..] == ShowNat(m);
    } else {
      DigitsShowNat(v, -0x8000_0000, 0x7fff_ffff, false);
    }
  }

  lemma ShowNatWord(n: nat)
    ensures Word(ShowNat(n))
  {}

  lemma ShowIntWord(i: int)
    ensures Word(ShowInt(i))
  {
    if i < 0 {
      var s := ShowInt(i);
      forall k | 0 <= k < |s|
        ensures !IsSpace(s[k])
      {
        if k > 0 { assert s[k] == ShowNat(-i)[k - 1]; }
      }
    }
  }

  // --------------------------------------------------------------- parsing

  /** The `BYE` loop's spec: groups of four tokens, each a `Stat`, in order. */
  function ByeStats(line: string, toks: seq<string>): Result<seq<Stat>, CmdParseError>
    decreases |toks|
  {
    if toks == [] then Ok([])
    else if |toks| < 4 then Err(ExpectedFound("BYE", "multiple of 4 tokens", line))
    else
      match StatOf(toks[0], toks[1], toks[2], toks[3])
      case Err(e) => Err(e)
      case Ok(st) =>
        match ByeStats(line, toks[4..])
        case Err(e) => Err(e)
        case Ok(rest) => Ok([st] + rest)
  }

  /** One group of the `BYE` loop: a name, an `i32` score and two `u32` counts. */
  function StatOf(name: string, score: string, nWin: string, nLose: string): Result<Stat, CmdParseError> {
    match ParseI32(score)
    case Err(_) => Err(ExpectedFound("BYE", "integer", score))
    case Ok(sc) =>
      match ParseU32(nWin)
      case Err(_) => Err(ExpectedFound("BYE", "n_win >= 0", nWin))
      case Ok(w) =>
        match ParseU32(nLose)
        case Err(_) => Err(ExpectedFound("BYE", "n_lose >= 0", nLose))
        case Ok(l) => Ok(Stat(name, sc, w, l))
  }

  /** The `BYE` arm: the token count check, then the loop. */
  function ByeOf(line: string, stat: seq<string>): Parse {
    if |stat| % 4 != 0 then Failed(ExpectedFound("BYE", "multiple of 4 tokens", line))
    else
      match ByeStats(line, stat)
      case Ok(v) => Parsed(Bye(v))
      case Err(e) => Failed(e)
  }

  /** The `START` arm with all four tokens: the time is parsed before the colour is looked at. */
  function StartOf(line: string, wb: string, name: string, time: string): Parse {
    match ParseU32(time)
    case Err(e) => Failed(ExpectedFound("START", "nonnegative integer", IntErrorText(e)))
    case Ok(t) =>
      if wb == "WHITE" then Parsed(Start(Bitboard.White, name, t))
      else if wb == "BLACK" then Parsed(Start(Bitboard.Black, name, t))
      else Failed(ExpectedFound("START", "WHITE or BLACK", line))
  }

  /** The `END` arm with all five tokens: both scores, then the result word. */
  function EndOf(wl: string, n: string, m: string, reason: string): Parse {
    match ParseU32(n)
    case Err(e) => Failed(ParseIntError(e))
    case Ok(a) =>
      match ParseU32(m)
      case Err(e) => Failed(ParseIntError(e))
      case Ok(b) =>
        if wl == "WIN" then Parsed(End(Win, a, b, reason))
        else if wl == "LOSE" then Parsed(End(Lose, a, b, reason))
        else if wl == "TIE" then Parsed(End(Tie, a, b, reason))
        else Panicked
  }

  /** `Cmd::try_from`: the line's tokens, then the `match` on them. */
  function ParseCmd(line: string): Parse {
    ParseTokens(line, Tokens(line))
  }

  /** The slice patterns of the `match` in `try_from`, in order; `line` is quoted by some errors. */
  function ParseTokens(line: string, t: seq<string>): Parse {
    if t == [] then Failed(Missing("command", "command"))
    else if t[0] == "START" then StartArm(line, t)
    else if t[0] == "END" then EndArm(t)
    else if t[0] == "MOVE" then MoveArm(t)
    else if t[0] == "ACK" && |t| <= 2 then AckArm(t)
    else if t[0] == "BYE" then ByeOf(line, t[1..])
    else Failed(UnknownCommand(t[0]))
  }

  /** The `["START", ..]` patterns. */
  function StartArm(line: string, t: seq<string>): Parse
    requires |t| >= 1
  {
    if |t| == 1 then Failed(Missing("START", "WHITE or BLACK"))
    else if |t| == 2 then Failed(Missing("START", "opponent name"))
    else if |t| == 3 then Failed(Missing("START", "remaining time"))
    else if |t| == 4 then StartOf(line, t[1], t[2], t[3])
    else Failed(UnexpectedToken("START", t[4]))
  }

  /** The `["END", ..]` patterns. */
  function EndArm(t: seq<string>): Parse
    requires |t| >= 1
  {
    if |t| == 1 then Failed(Missing("END", "WIN or LOSE"))
    else if |t| == 2 then Failed(Missing("END", "my score"))
    else if |t| == 3 then Failed(Missing("END", "opponent score"))
    else if |t| == 4 then Failed(Missing("END", "reason"))
    else if |t| == 5 then EndOf(t[1], t[2], t[3], t[4])
    else Failed(UnexpectedToken("END", t[5]))
  }

  /** The `["MOVE", ..]` patterns. */
  function MoveArm(t: seq<string>): Parse
    requires |t| >= 1
  {
    if |t| == 1 then Failed(Missing("MOVE", "position (e.g. A1)"))
    else if |t| == 2 then
      if t[1] == "PASS" then Parsed(Move(None))
      else
        match Bitboard.ParsePos(t[1])
        case Ok(p) => Parsed(Move(Some(p)))
        case Err(e) => Failed(ParsePosError(e))
    else Failed(UnexpectedToken("MOVE", t[2]))
  }

  /** `["ACK"]` and `["ACK", rt]`; a longer `ACK` line falls through to the last arm. */
  function AckArm(t: seq<string>): Parse
    requires 1 <= |t| <= 2
  {
    if |t| == 1 then Failed(Missing("ACK", "remaining time, in ms (e.g. 1000)"))
    else
      match ParseU32(t[1])
      case Ok(v) => Parsed(Ack(v))
      case Err(e) => Failed(ParseIntError(e))
  }

  // ------------------------------------------------------------ error cases

  lemma {:induction false} BlankTokens(s: string)
    requires forall k | 0 <= k < |s| :: IsSpace(s[k])
    ensures Tokens(s) == []
    decreases |s|
  {
    if s != [] {
      assert forall k | 0 <= k < |s[1..]| :: IsSpace(s[1..][k]) by {
        forall k | 0 <= k < |s[1..]| ensures IsSpace(s[1..][k]) { assert s[1..][k] == s[k + 1]; }
      }
      BlankTokens(s[1..]);
    }
  }

  /** A line of white space only has no token, and is missing its command. */
  lemma ParseBlank(line: string)
    requires forall k | 0 <= k < |line| :: IsSpace(line[k])
    ensures ParseCmd(line) == Failed(Missing("command", "command"))
  {
    BlankTokens(line);
  }

  /** Only the five keywords are commands, and only `END` can panic. */
  lemma ParseKeywords(line: string, t: seq<string>)
    ensures t != [] && t[0] != "START" && t[0] != "END" && t[0] != "MOVE" && t[0] != "ACK" && t[0] != "BYE"
      ==> ParseTokens(line, t) == Failed(UnknownCommand(t[0]))
    ensures ParseTokens(line, t).Panicked? ==> t != [] && t[0] == "END"
  {}

  /** `START` takes exactly three fields: fewer are missing, a fifth token is unexpected. */
  lemma ParseStartShape(line: string, t: seq<string>)
    requires t != [] && t[0] == "START"
    ensures |t| < 4 <==> ParseTokens(line, t).Failed? && ParseTokens(line, t).error.Missing?
    ensures |t| > 4 ==> ParseTokens(line, t) == Failed(UnexpectedToken("START", t[4]))
    ensures ParseTokens(line, t).Parsed? ==>
      |t| == 4 && ParseU32(t[3]).Ok?
      && ParseTokens(line, t).cmd == Start(if t[1] == "WHITE" then Bitboard.White else Bitboard.Black, t[2], ParseU32(t[3]).value)
    ensures |t| == 4 && ParseU32(t[3]).Ok? ==>
      (ParseTokens(line, t).Parsed? <==> t[1] == "WHITE" || t[1] == "BLACK")
      && (ParseTokens(line, t).Failed? ==> ParseTokens(line, t).error == ExpectedFound("START", "WHITE or BLACK", line))
  {}

  /** `END` takes exactly four fields; scores are read before the result word, which panics when unknown. */
  lemma ParseEndShape(line: string, t: seq<string>)
    requires t != [] && t[0] == "END"
    ensures |t| < 5 <==> ParseTokens(line, t).Failed? && ParseTokens(line, t).error.Missing?
    ensures |t| > 5 ==> ParseTokens(line, t) == Failed(UnexpectedToken("END", t[5]))
    ensures ParseTokens(line, t).Panicked? <==>
      |t| == 5 && ParseU32(t[2]).Ok? && ParseU32(t[3]).Ok? && t[1] != "WIN" && t[1] != "LOSE" && t[1] != "TIE"
    ensures ParseTokens(line, t).Parsed? ==>
      |t| == 5 && ParseU32(t[2]).Ok? && ParseU32(t[3]).Ok?
      && ParseTokens(line, t).cmd
         == End(if t[1] == "WIN" then Win else if t[1] == "LOSE" then Lose else Tie, ParseU32(t[2]).value, ParseU32(t[3]).value, t[4])
  {}

  /** `MOVE` takes one field, `PASS` or a square name. */
  lemma ParseMoveShape(line: string, t: seq<string>)
    requires t != [] && t[0] == "MOVE"
    ensures |t| == 1 ==> ParseTokens(line, t) == Failed(Missing("MOVE", "position (e.g. A1)"))
    ensures |t| > 2 ==> ParseTokens(line, t) == Failed(UnexpectedToken("MOVE", t[2]))
    ensures |t| == 2 && t[1] == "PASS" ==> ParseTokens(line, t) == Parsed(Move(None))
    ensures |t| == 2 && t[1] != "PASS" ==>
      ParseTokens(line, t) == match Bitboard.ParsePos(t[1])
        case Ok(q) => Parsed(Move(Some(q)))
        case Err(e) => Failed(ParsePosError(e))
  {}

  /** `ACK` takes one field; with two or more it is no command at all. */
  lemma ParseAckShape(line: string, t: seq<string>)
    requires t != [] && t[0] == "ACK"
    ensures |t| == 1 ==> ParseTokens(line, t).Failed? && ParseTokens(line, t).error.Missing?
    ensures |t| == 2 ==> ParseTokens(line, t) == match ParseU32(t[1])
      case Ok(v) => Parsed(Ack(v))
      case Err(e) => Failed(ParseIntError(e))
    ensures |t| > 2 ==> ParseTokens(line, t) == Failed(UnknownCommand("ACK"))
  {}

  /** The stats `BYE` reads: one per group of four tokens, named by the group's first token, in order. */
  lemma {:induction false} ByeStatsShape(line: string, toks: seq<string>)
    ensures ByeStats(line, toks).Ok? ==>
      |toks| == 4 * |ByeStats(line, toks).value|
      && forall k | 0 <= k < |ByeStats(line, toks).value| :: ByeStats(line, toks).value[k].name == toks[4 * k]
    decreases |toks|
  {
    if |toks| >= 4 && ByeStats(line, toks).Ok? {
      ByeStatsShape(line, toks[4..]);
      var v := ByeStats(line, toks).value;
      var w := ByeStats(line, toks[4..]).value;
      assert v == [v[0]] + w;
      forall k | 0 <= k < |v| ensures v[k].name == toks[4 * k] {
        if k > 0 { assert v[k] == w[k - 1]; assert toks[4..][4 * (k - 1)] == toks[4 * k]; }
      }
    }
  }

  /** `BYE` needs its token count to be a multiple of four; otherwise it quotes the line. */
  lemma ParseByeShape(line: string, t: seq<string>)
    requires t != [] && t[0] == "BYE"
    ensures (|t| - 1) % 4 != 0 ==> ParseTokens(line, t) == Failed(ExpectedFound("BYE", "multiple of 4 tokens", line))
    ensures |t| == 1 ==> ParseTokens(line, t) == Parsed(Bye([]))
    ensures ParseTokens(line, t).Parsed? ==>
      ParseTokens(line, t).cmd.Bye?
      && |t| - 1 == 4 * |ParseTokens(line, t).cmd.stat|
      && forall k | 0 <= k < |ParseTokens(line, t).cmd.stat| :: ParseTokens(line, t).cmd.stat[k].name == t[1 + 4 * k]
  {
    ByeStatsShape(line, t[1..]);
    if ParseTokens(line, t).Parsed? {
      var v := ParseTokens(line, t).cmd.stat;
      forall k | 0 <= k < |v| ensures v[k].name == t[1 + 4 * k] { assert t[1..][4 * k] == t[1 + 4 * k]; }
    }
  }

  /**
   * The loop of the `BYE` arm: `stat` is rebound to the tokens after each
   * group and `vec` gathers the stats.
   */
  method ParseBye(line: string, stat: seq<string>) returns (r: Parse)
    ensures r == ByeOf(line, stat)
  {
    if |stat| % 4 != 0 {
      return Failed(ExpectedFound("BYE", "multiple of 4 tokens", line));
    }
    var vec: seq<Stat> := [];
    var rest := stat;
    ghost var total := ByeStats(line, stat);
    ThenEmpty(total);
    while true
      invariant Then(vec, ByeStats(line, rest)) == total
      decreases |rest|
    {
      if rest == [] {
        assert vec + [] == vec;
        return Parsed(Bye(vec));
      }
      if |rest| < 4 {
        return Failed(ExpectedFound("BYE", "multiple of 4 tokens", line));
      }
      var st := StatOf(rest[0], rest[1], rest[2], rest[3]);
      if st.Err? {
        return Failed(st.error);
      }
      ByeStep(line, rest, vec, st.value);
      vec := vec + [st.value];
      rest := rest[4..];
    }
  }

  /** `vec` in front of the stats still to come, or the error that ends the loop. */
  function Then(vec: seq<Stat>, r: Result<seq<Stat>, CmdParseError>): Result<seq<Stat>, CmdParseError> {
    match r
    case Ok(v) => Ok(vec + v)
    case Err(e) => Err(e)
  }

  lemma ThenEmpty(r: Result<seq<Stat>, CmdParseError>)
    ensures Then([], r) == r
  {
    match r
    case Ok(v) => assert [] + v == v;
    case Err(_) =>
  }

  lemma ByeStep(line: string, rest: seq<string>, vec: seq<Stat>, st: Stat)
    requires |rest| >= 4 && StatOf(rest[0], rest[1], rest[2], rest[3]) == Ok(st)
    ensures Then(vec, ByeStats(line, rest)) == Then(vec + [st], ByeStats(line, rest[4..]))
  {
    match ByeStats(line, rest[4..])
    case Ok(v) => assert vec + ([st] + v) == (vec + [st]) + v;
    case Err(_) =>
  }

  // ------------------------------------------------------------- formatting

  /** `{:?}` of a player and of a result: the variant name. */
  function PlayerName(p: Bitboard.Player): string {
    match p
    case Black => "Black"
    case White => "White"
  }

  function WlName(w: Wl): string {
    match w
    case Win => "Win"
    case Lose => "Lose"
    case Tie => "Tie"
  }


  /** The fields after a keyword, each preceded by one space, as the `write!` formats put them. */
  function Spaced(ws: seq<string>): string
    decreases |ws|
  {
    if ws == [] then [] else " " + ws[0] + Spaced(ws[1..])
  }

  /** The four fields the `BYE` loop writes for one stat. */
  function StatFields(s: Stat): seq<string> {
    [s.name, ShowInt(s.score), ShowNat(s.nWin), ShowNat(s.nLose)]
  }

  function StatsText(stat: seq<Stat>): string
    decreases |stat|
  {
    if stat == [] then [] else Spaced(StatFields(stat[0])) + StatsText(stat[1..])
  }

  /** `Display for Cmd`. */
  function Show(c: Cmd): string {
    match c
    case Start(bw, name, t) => "START" + Spaced([PlayerName(bw), name, ShowNat(t)])
    case End(wl, a, b, reason) => "END" + Spaced([WlName(wl), ShowNat(a), ShowNat(b), reason])
    case Move(None) => "MOVE PASS"
    case Move(Some(p)) => "MOVE" + Spaced([Bitboard.PosName(p)])
    case Ack(t) => "ACK" + Spaced([ShowNat(t)])
    case Bye(stat) => "BYE" + StatsText(stat)
  }

  /** The `BYE` arm of `fmt`: the keyword, then one `write!` per stat. */
  method WriteBye(stat: seq<Stat>) returns (out: string)
    ensures out == Show(Bye(stat))
  {
    out := "BYE";
    ghost var total := Show(Bye(stat));
    for k := 0 to |stat|
      invariant out + StatsText(stat[k..]) == total
    {
      var field := Spaced(StatFields(stat[k]));
      assert stat[k..][1..] == stat[k + 1..];
      assert out + (field + StatsText(stat[k + 1..])) == (out + field) + StatsText(stat[k + 1..]);
      out := out + field;
    }
    assert stat[|stat|..] == [];
  }

  // ------------------------------------------------------------ round trips

  /** A stat the parser can read back: its name is one token. */
  predicate Printable(s: Stat) {
    Word(s.name)
  }

  /** The tokens the `BYE` loop writes for `stat`. */
  function StatsTokens(stat: seq<Stat>): seq<string>
    decreases |stat|
  {
    if stat == [] then [] else StatFields(stat[0]) + StatsTokens(stat[1..])
  }

  predicate Words(ws: seq<string>) {
    forall k | 0 <= k < |ws| :: Word(ws[k])
  }

  /** Space-separated words split back into the same words. */
  lemma {:induction false} SpacedTokens(ws: seq<string>, rest: string)
    requires Words(ws) && (rest == [] || IsSpace(rest[0]))
    ensures Tokens(Spaced(ws) + rest) == ws + Tokens(rest)
    ensures Spaced(ws) == [] || Spaced(ws)[0] == ' '
    decreases |ws|
  {
    if ws == [] {
      assert Spaced(ws) + rest == rest;
    } else {
      var tail := Spaced(ws[1..]);
      WordsTail(ws);
      SpacedTokens(ws[1..], rest);
      SpacedTail(tail, rest);
      SpacedCons(ws, rest);
      SpacedWord(ws[0], tail + rest);
      ConsConcat(ws, Tokens(rest));
    }
  }

  lemma SpacedCons(ws: seq<string>, rest: string)
    requires ws != []
    ensures Spaced(ws) + rest == " " + ws[0] + (Spaced(ws[1..]) + rest)
  {}

  lemma ConsConcat<T>(xs: seq<T>, ys: seq<T>)
    requires xs != []
    ensures xs + ys == [xs[0]] + (xs[1..] + ys)
  {
    assert xs == [xs[0]] + xs[1..];
  }

  lemma WordsTail(ws: seq<string>)
    requires Words(ws) && ws != []
    ensures Word(ws[0]) && Words(ws[1..])
  {
    forall k | 0 <= k < |ws[1..]| ensures Word(ws[1..][k]) { assert ws[1..][k] == ws[k + 1]; }
  }

  lemma SpacedTail(tail: string, rest: string)
    requires tail == [] || tail[0] == ' '
    requires rest == [] || IsSpace(rest[0])
    ensures tail + rest == [] || IsSpace((tail + rest)[0])
  {
    if tail == [] { assert tail + rest == rest; }
  }

  lemma StatFieldsWords(s: Stat)
    requires Printable(s)
    ensures Words(StatFields(s))
  {
    ShowIntWord(s.score);
    ShowNatWord(s.nWin);
    ShowNatWord(s.nLose);
  }

  lemma {:induction false} StatsTextTokens(stat: seq<Stat>)
    requires forall k | 0 <= k < |stat| :: Printable(stat[k])
    ensures Tokens(StatsText(stat)) == StatsTokens(stat)
    ensures StatsText(stat) == [] || StatsText(stat)[0] == ' '
    decreases |stat|
  {
    if stat == [] {
    } else {
      assert forall k | 0 <= k < |stat[1..]| :: Printable(stat[1..][k]) by {
        forall k | 0 <= k < |stat[1..]| ensures Printable(stat[1..][k]) { assert stat[1..][k] == stat[k + 1]; }
      }
      StatsTextTokens(stat[1..]);
      assert Printable(stat[0]);
      StatFieldsWords(stat[0]);
      SpacedTokens(StatFields(stat[0]), StatsText(stat[1..]));
    }
  }

  lemma {:induction false} ByeStatsTokens(line: string, stat: seq<Stat>)
    ensures ByeStats(line, StatsTokens(stat)) == Ok(stat)
    decreases |stat|
  {
    if stat != [] {
      var s := stat[0];
      ByeStatsTokens(line, stat[1..]);
      ParseShowI32(s.score);
      ParseShowU32(s.nWin);
      ParseShowU32(s.nLose);
      var t := StatsTokens(stat);
      assert t[..4] == StatFields(s);
      assert t[4..] == StatsTokens(stat[1..]);
      assert StatOf(t[0], t[1], t[2], t[3]) == Ok(s);
      assert stat == [s] + stat[1..];
    }
  }

  lemma {:induction false} StatsTokensLength(stat: seq<Stat>)
    ensures |StatsTokens(stat)| == 4 * |stat|
    ensures |StatsTokens(stat)| % 4 == 0
    decreases |stat|
  {
    if stat != [] { StatsTokensLength(stat[1..]); }
  }

  /** The tokens of a keyword followed by spaced fields. */
  lemma KeywordTokens(key: string, ws: seq<string>)
    requires Word(key) && Words(ws)
    ensures Tokens(key + Spaced(ws)) == [key] + ws
  {
    SpacedTokens(ws, []);
    assert Spaced(ws) + [] == Spaced(ws);
    assert ws + [] == ws;
    WordThen(key, Spaced(ws));
  }

  /** `MOVE`, `ACK` and `BYE` (with one-token names) read back as written. */
  lemma ParseShowPass()
    ensures ParseCmd(Show(Move(None))) == Parsed(Move(None))
  {
    PassTokens();
  }

  lemma PassTokens()
    ensures Tokens("MOVE PASS") == ["MOVE", "PASS"]
  {
    assert "MOVE PASS" == "MOVE" + Spaced(["PASS"]);
    KeywordTokens("MOVE", ["PASS"]);
  }

  lemma ParseShowMove(q: Bitboard.Sq)
    ensures ParseCmd(Show(Move(Some(q)))) == Parsed(Move(Some(q)))
  {
    var name := Bitboard.PosName(q);
    KeywordTokens("MOVE", [name]);
    Bitboard.PosNameParses(q);
    assert MoveArm(["MOVE", name]) == Parsed(Move(Some(q)));
  }

  lemma ParseShowAck(t: U32)
    ensures ParseCmd(Show(Ack(t))) == Parsed(Ack(t))
  {
    ShowNatWord(t);
    KeywordTokens("ACK", [ShowNat(t)]);
    ParseShowU32(t);
  }

  lemma ParseShowBye(stat: seq<Stat>)
    requires forall k | 0 <= k < |stat| :: Printable(stat[k])
    ensures ParseCmd(Show(Bye(stat))) == Parsed(Bye(stat))
  {
    var line := Show(Bye(stat));
    var toks := ["BYE"] + StatsTokens(stat);
    StatsTextTokens(stat);
    WordThen("BYE", StatsText(stat));
    assert Tokens(line) == toks;
    assert toks[0] == "BYE" && toks[1..] == StatsTokens(stat);
    assert ParseTokens(line, toks) == ByeOf(line, StatsTokens(stat));
    StatsTokensLength(stat);
    ByeStatsTokens(line, stat);
    assert ByeOf(line, StatsTokens(stat)) == Parsed(Bye(stat));
  }

  /**
   * `START` does not read back: the colour is written as "Black" or "White",
   * which the parser refuses, quoting the whole line.
   */
  lemma ParseShowStart(bw: Bitboard.Player, name: string, t: U32)
    requires Word(name)
    ensures ParseCmd(Show(Start(bw, name, t)))
      == Failed(ExpectedFound("START", "WHITE or BLACK", Show(Start(bw, name, t))))
  {
    ShowNatWord(t);
    KeywordTokens("START", [PlayerName(bw), name, ShowNat(t)]);
    ParseShowU32(t);
  }

  /** `END` does not read back either: "Win", "Lose" or "Tie" reaches `unreachable!`. */
  lemma ParseShowEnd(wl: Wl, a: U32, b: U32, reason: string)
    requires Word(reason)
    ensures ParseCmd(Show(End(wl, a, b, reason))) == Panicked
  {
    ShowNatWord(a);
    ShowNatWord(b);
    KeywordTokens("END", [WlName(wl), ShowNat(a), ShowNat(b), reason]);
    ParseShowU32(a);
    ParseShowU32(b);
  }
}
