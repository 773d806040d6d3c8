# reversi-AI, modelled in Dafny

reversi-AI plays Othello (reversi) on an 8×8 board. The board is a pair of
64-bit masks, one for black's discs and one for white's. Bit 63 is A1 and
bit 0 is H8. Moves are generated by shifting these masks in the eight
compass directions. Several agents are built on top of the board:

- a random agent;
- a one-step lookahead agent that prefers corners and "safe" moves;
- a breadth-first enumerator of positions, up to symmetry;
- a depth-limited negamax search;
- a Monte Carlo tree search agent.

A driver plays one game between two agents. A line-based text protocol
carries commands to and from a game server. The repository also holds a
C++ twin of the board and of the random agent.

This project models the following in Dafny:

- the Rust board (`src/board.rs`);
- the protocol's command type (`src/command.rs`);
- the agents (`src/agent.rs`, `src/dfs_agent.rs`, `src/mcts_agent.rs`);
- the game driver (`src/simulate.rs`);
- the C++ board (`board.hpp`);
- the C++ random agent (`agent.cpp`).

The modules are:

- `Bitboard`: squares, players, directions, shifts, the three symmetries,
  `Board` as a datatype, `valid_moves_fast` and `place_at_unchecked`.
- `Moves`: `valid_moves` and `valid_moves_slow`.
- `MoveAgreement`: the mask of `valid_moves_fast` against the ray walk of
  `valid_moves_slow`.
- `CaptureAgreement`: the captures of `place_at_unchecked` against the ray
  walk of `valid_moves_slow`, square by square, and the two move lists as
  sets of actions.
- `Game`: the move list on top of any pair of move-mask and play
  operations.
- `Replays`: `boards_from`.
- `Command`: tokenising, parsing and printing of protocol commands.
- `Agents`: the random agent, the lookahead agent and `bfs`.
- `Simulation` and `SimulationFacts`: `simulate`.
- `DfsSearch`: the negamax search.
- `Mcts`: the tree search, as a class over an arena of nodes.
- `BoardCpp`: the C++ board, as a class with two mask fields.
- `AgentCpp`: the C++ random agent.

Loops in the source are written as methods with loop invariants. Each
method is proved equal to a specification function, and the properties are
proved about those functions. The drivers and agents take the two board
operations as a parameter (`Game.Rules`). They are used with
`Game.Engine`, the pair from `src/board.rs`. The board from `board.hpp` has
a table parameter. `Written` is the shift table as it is in the file.
`Intended` is the table with row 6 corrected (see Findings).

## Model

| member | source | states |
|---|---|---|
| Bitboard.Player.Opponent | src/board.rs:11-16 | The opponent of a player is the other player. |
| Bitboard.Flip | src/board.rs:17-19 | `flip` replaces the player by its opponent, and the opponent of the new value is the old one. |
| Bitboard.PositionsShape | src/board.rs:36-49 | `Pos::iter` yields every square, in strictly descending bit order, starting at A1 (bit 63). |
| Bitboard.DescendingFromAt | src/board.rs:36-49 | The k-th square that the iterator yields from square c is c - k. |
| Bitboard.FromWthor | src/board.rs:50-67 | A wthor (rank, file) pair gives a square exactly when both are below 8. The square is 63 - 8·rank - file. |
| Bitboard.FromWthorIter | src/board.rs:50-67 | Row-major wthor index 8·rank + file is the position of the square in `Pos::iter` order. |
| Bitboard.FromWthorName | src/board.rs:50-74 | A wthor pair names the file letter A + file and the rank digit 1 + rank. |
| Bitboard.PosName | src/board.rs:69-74 | A square prints as a file letter A–H followed by a rank digit 1–8. |
| Bitboard.ParsePos | src/board.rs:78-109 | A rejected string is returned inside the error. |
| Bitboard.ParsePosShape | src/board.rs:78-109 | Only a two-character file letter plus rank digit is accepted. |
| Bitboard.ParsePosAccepts | src/board.rs:78-109 | Every letter A–H followed by a digit 1–8 is accepted, as square 63 - 8·rank - file. |
| Bitboard.PosNameParses | src/board.rs:69-109 | Every square's printed name parses back to that square. |
| Bitboard.ParsePosName | src/board.rs:69-109 | Every accepted string is the printed name of the square it parses to. |
| Bitboard.RoomStep | src/board.rs:132-187 | Each step in a direction uses up one unit of room, so a ray has at most seven squares. |
| Bitboard.NextReverse | src/board.rs:132-225 | A step in the reverse direction undoes a step. |
| Bitboard.ShiftMasks | src/board.rs:234-254 | A shift towards the east never lands on the A file, and a shift towards the west never lands on the H file, so runs never wrap round the board. |
| Bitboard.ShiftUnion | src/board.rs:234-254 | A shift of a union is the union of the shifts. |
| Bitboard.FlipDiagA1H8Bit | src/board.rs:256-268 | Square j of the mirrored mask holds what the transposed square held. |
| Bitboard.FlipDiagA8H1Bit | src/board.rs:270-281 | Square j of the mirrored mask holds what the anti-transposed square held. |
| Bitboard.Rotate180Bit | src/board.rs:283-296 | Square j of the rotated mask holds what square 63 - j held. |
| Bitboard.SymmetryCorners | src/board.rs:256-296 | Each diagonal mirror fixes two corners and swaps the other two. |
| Bitboard.Rotate180Involution | src/board.rs:283-296 | Rotating twice gives the mask back. |
| Bitboard.FlipDiagA1H8Involution | src/board.rs:256-268 | Mirroring twice in the A1–H8 diagonal gives the mask back. |
| Bitboard.FlipDiagA8H1Involution | src/board.rs:270-281 | Mirroring twice in the A8–H1 diagonal gives the mask back. |
| Bitboard.Rotate180KeepsDisjoint | src/board.rs:283-296 | Rotation keeps two non-overlapping disc sets non-overlapping. |
| Bitboard.Initial | src/board.rs:305-310 | The initial board has white on D4 and E5, black on E4 and D5, and nothing else. |
| Bitboard.InitialCount | src/board.rs:305-310 | Each player starts with two discs. |
| Bitboard.FromDisks | src/board.rs:311-314 | `from_disks` succeeds exactly when the two sets do not overlap, and keeps them as given. |
| Bitboard.PopBound | src/board.rs:318-323 | A population count is at most 64. |
| Bitboard.Board.Count | src/board.rs:318-323 | A player's disc count is at most 64. |
| Bitboard.Board.Set | src/board.rs:324-336 | `set` fails exactly when the player already holds the square. Otherwise the player gains the square and the opponent's set is unchanged. |
| Bitboard.FlipDiscsOccupied | src/board.rs:337-346 | `flip_discs` succeeds only on a set of occupied squares. |
| Bitboard.FlipDiscsDefined | src/board.rs:337-346 | `flip_discs` does not panic on a set of occupied squares. |
| Bitboard.FlipDiscsBlack | src/board.rs:337-346 | On a board without overlaps, every square of the set changes owner and every other square is unchanged. |
| Bitboard.FlipDiscsKeepsDisjoint | src/board.rs:337-346 | Flipping keeps a board without overlaps. |
| Bitboard.GetOwner | src/board.rs:347-356 | `get` names a player who holds the square. |
| Bitboard.GetDisks | src/board.rs:347-362 | On a board without overlaps, `get` names the one player whose disc set contains the square. |
| Bitboard.GetEmpty | src/board.rs:347-356 | `get` is `None` exactly on the empty squares. |
| Bitboard.SymmetriesInvolutive | src/board.rs:363-371 | Each of the three board symmetries undoes itself. |
| Bitboard.FlippedA1H8KeepsDisjoint | src/board.rs:363-371 | A mirrored board has no overlaps when the original had none. |
| Bitboard.EquivalentImages | src/board.rs:372-386 | A board is equivalent to itself and to each of its three images, in both directions. |
| Bitboard.EquivalentSymmetric | src/board.rs:372-386 | `equivalent` is symmetric. |
| Bitboard.DirectionMoves | src/board.rs:499-514 | One direction pass of the loop computes that direction's moves. |
| Bitboard.ValidMovesFast | src/board.rs:499-514 | The loop computes the move mask `MovesMask`, the union of the eight direction masks. |
| Bitboard.MovesAreEmpty | src/board.rs:499-514 | Every legal move is on an empty square. |
| Bitboard.DirectionCapture | src/board.rs:420-429 | One pass of the direction loop computes `DirCapture`, the run from the played square kept only when a disc of the mover closes it (which squares it keeps is `CaptureAgreement.DirCaptureBit`). |
| Bitboard.CaptureDiscs | src/board.rs:416-435 | The direction loop captures the union of the closed runs. |
| Bitboard.PlaceAtUnchecked | src/board.rs:416-435 | The method returns `PlaceAt`, the board that the captures and the played square make. |
| Bitboard.CapturedWithin | src/board.rs:416-435 | Only opponent discs are captured. |
| Bitboard.PlaceAtEffect | src/board.rs:416-435 | Playing an empty square of a board without overlaps has these effects: the board stays without overlaps; exactly that square stops being empty; the mover gains it plus the captures; the opponent loses the captures and nothing else. |
| Bitboard.PlaceAtFills | src/board.rs:416-435 | A legal move fills exactly one empty square. |
| Moves.AscendingShape | src/board.rs:436-498 | The order in which `valid_moves` reads the mask lists every square in increasing bit order. |
| Moves.SquaresInMembers | src/board.rs:436-498 | The squares read off the mask are exactly the squares of the mask. |
| Moves.SquaresInLowest | src/board.rs:436-498 | The lowest square of the mask comes first. |
| Moves.TakeLowest | src/board.rs:455-459 | `moves & (!moves + 1)` is the lowest legal square; removing it leaves a smaller mask. |
| Moves.FastAction | src/board.rs:460-476 | The closure body gives the action: the square and the board `place_at_unchecked` makes. |
| Moves.ValidMoves | src/board.rs:436-498 | `valid_moves` yields the legal moves in increasing square order, each with its board. |
| Moves.Actions | src/board.rs:436-498 | Each listed action is its square and the board that playing the square makes. |
| Moves.FlipCandidates | src/board.rs:391-407 | The direction loop gathers the union of the rays that flip. |
| Moves.RayWalk | src/board.rs:393-406 | The ray loop in one direction collects opponent discs and keeps them only when the mover's disc ends the ray. |
| Moves.RaySquare | src/board.rs:396-405 | At one square the ray either ends with its value or collects an opponent disc and goes on. |
| Moves.RayFlipsOccupied | src/board.rs:393-406 | A ray collects only occupied squares. |
| Moves.FlipCandidateOccupied | src/board.rs:391-407 | The flip candidates are all occupied. |
| Moves.SlowBoard | src/board.rs:408-411 | On an empty square, neither `set` nor `flip_discs` panics. |
| Moves.SlowTry | src/board.rs:389-414 | The closure decides one square. |
| Moves.SlowOver | src/board.rs:388-415 | The `filter_map` keeps the decided squares in order. |
| Moves.ValidMovesSlow | src/board.rs:388-415 | `valid_moves_slow` computes the specification `SlowMoves` over `Pos::iter`. |
| MoveAgreement.RunBits | src/board.rs:504-511 | A square is in the run after k extension steps exactly when it holds an opponent disc and, walking back from it toward the mover's discs, at most k more opponent discs are met before a disc of the mover. |
| MoveAgreement.RayCloses | src/board.rs:393-406 | Once the slow ray walk has collected a disc, it ends with discs to flip exactly when the squares ahead are opponent discs followed by a disc of the mover. |
| MoveAgreement.FirstSquare | src/board.rs:393-406 | From the first square of a ray, the slow walk flips something exactly when that square is an opponent disc that starts a closed run of at most six opponent discs. |
| MoveAgreement.MovesBit | src/board.rs:504-512 | A square is in the direction-d part of the fast mask exactly when it is empty and the slow ray from it in the opposite direction flips something. |
| MoveAgreement.MovesUpToBit | src/board.rs:499-514 | After k directions, the fast mask holds exactly the empty squares where one of the k reversed rays flips something. |
| MoveAgreement.FlipCandidateNonzero | src/board.rs:391-407 | `flip_candidate` after k directions is nonzero exactly when one of those k rays flips something. |
| MoveAgreement.FlanksTurned | src/board.rs:200-207 | Each direction in `CompassRose::iter` sits next to its reverse, so turning every direction round does not change whether some ray flips. |
| MoveAgreement.MovesMaskBit | src/board.rs:499-514 | On a board without overlaps, `valid_moves_fast` marks exactly the empty squares whose `flip_candidate` in `valid_moves_slow` is nonzero. |
| MoveAgreement.SomesMembers | src/board.rs:389 | `filter_map` yields exactly the values of the `Some` entries. |
| MoveAgreement.ActionsAt | src/board.rs:460-476 | The `valid_moves` closure places each action on the square it was given, so the actions lie exactly on the squares read off the mask. |
| MoveAgreement.FastSquares | src/board.rs:436-498 | `valid_moves` yields a move on a square exactly when the square is in the fast mask. |
| MoveAgreement.SlowEntryLegal | src/board.rs:389-414 | The `valid_moves_slow` closure yields an action for a square exactly when the square is empty and its `flip_candidate` is nonzero, which is exactly when the square is in the fast mask. |
| MoveAgreement.SlowSquares | src/board.rs:388-415 | `valid_moves_slow` yields a move on a square exactly when the square is in the fast mask. |
| MoveAgreement.SameSquares | src/board.rs:388-415 | `valid_moves` and `valid_moves_slow` offer moves on the same squares. |
| CaptureAgreement.RunSquareShape | src/board.rs:394-405 | A square of the run after i in direction d holds an opponent disc and lies further along the ray. |
| CaptureAgreement.RunEndCloses | src/board.rs:394-405 | A run of opponent discs followed by a disc of the mover is closed within as many steps as the run is long. |
| CaptureAgreement.RunLast | src/board.rs:394-405 | Conversely, a closed walk that starts on an opponent disc has a last run square, and the square after it holds a disc of the mover. |
| CaptureAgreement.SlowRayBit | src/board.rs:392-406 | The slow ray walk from i in direction d collects square s for `flip_candidate` exactly when s lies on the ray, every square from the one after i up to s holds an opponent disc, and the run is closed by a disc of the mover within six steps. |
| CaptureAgreement.SeededRun | src/board.rs:417-426 | Seeded with the played square alone, the run after the five extension steps holds a square exactly when it holds an opponent disc and the walk back from it towards i meets at most five more opponent discs before i. |
| CaptureAgreement.RunSquare | src/board.rs:417-426 | On an empty square of a board without overlaps, every square of that run is in the run of opponent discs after i, and when that run is closed within six steps each of its squares is in the mask. |
| CaptureAgreement.ClosingBit | src/board.rs:427-429 | For a mask that covers the run in this way, the test `x.shift(d) & my_disks != 0` keeps exactly the run's squares when the run is closed, and nothing otherwise. |
| CaptureAgreement.DirCaptureBit | src/board.rs:416-430 | On an empty square i of a board without overlaps, one direction pass of `place_at_unchecked` captures square s exactly when s lies on the ray from i in direction d, every square from the one after i up to s holds an opponent disc, and the run continues to a disc of the mover within six steps. |
| CaptureAgreement.DirectionAgree | src/board.rs:392-430 | So each direction pass of `place_at_unchecked` captures exactly the squares that the slow ray walk in that direction collects. |
| CaptureAgreement.CaptureUpToBit | src/board.rs:391-430 | When every direction agrees on a square, `captured_disks` and `flip_candidate` after k directions agree on it. |
| CaptureAgreement.CapturedIsFlips | src/board.rs:388-435 | On an empty square of a board without overlaps, `captured_disks` and `flip_candidate` are the same disc set. |
| CaptureAgreement.SetThenFlip | src/board.rs:409 | `set` followed by `flip_discs` builds the board whose mover holds its discs plus the played square and whose two sides are both turned over on the flipped set. |
| CaptureAgreement.PlaceIsSlow | src/board.rs:409-434 | On an empty square of a board without overlaps, the board `valid_moves_slow` builds is the board `place_at_unchecked` builds. |
| CaptureAgreement.FastMember | src/board.rs:436-498 | An action is in the `valid_moves` list exactly when its square is in the fast mask and its board is the one `place_at_unchecked` makes. |
| CaptureAgreement.SlowMember | src/board.rs:388-415 | An action is in the `valid_moves_slow` list exactly when the closure yields it for its own square. |
| CaptureAgreement.SameMoves | src/board.rs:388-498 | On a board without overlaps, `valid_moves` and `valid_moves_slow` offer exactly the same actions: the same squares, each with the same board. |
| Game.Plays | src/board.rs:436-498 | Each square becomes an action with the board it makes. |
| Game.LegalMembers | src/board.rs:436-498 | An action is listed exactly when its square is in the move mask and its board is the one the move makes. |
| Game.LegalEmpty | src/board.rs:436-498 | The list is empty exactly when the move mask is zero. |
| Game.LegalBound | src/board.rs:436-498 | A position never has more than 64 legal moves. |
| Game.LegalEngine | src/board.rs:436-498 | With the Rust operations, the list is the one that the `valid_moves` method builds. |
| Game.EngineSound | src/board.rs:416-514 | With the Rust operations, a legal move keeps the board without overlaps and fills exactly one empty square. |
| Game.LegalFills | src/board.rs:436-498 | A listed move keeps the board without overlaps and fills a square. |
| Game.Choose | src/agent.rs:16-18 | `choose` on an empty iterator gives nothing; otherwise it gives an element. |
| Game.ChooseAny | src/agent.rs:16-18 | Every element can be drawn. |
| Replays.FollowPlayed | src/board.rs:518-539 | Of the items the closure of `successors` returns, the moves are the given positions, in order. All of them are played when the closure does not panic. |
| Replays.FollowChain | src/board.rs:518-539 | Every item the closure returns is a pass or a legal move from the item it was given. |
| Replays.FollowEnd | src/board.rs:518-539 | The closure stops on the last item it is given, in one of these ways: it returns `None` because the positions ran out or both players passed; it panics with positions left after both passed (`SurplusMoves`); or it panics because the next position is not legal (`IllegalMove`). A panic records the item it was given. |
| Replays.StopsCons | src/board.rs:518-539 | A move put in front of a replay stops the same way. |
| Replays.ChainPrefix | src/board.rs:518-539 | A prefix of a chain of passes and legal moves is a chain. |
| Replays.ChainLast | src/board.rs:518-539 | The last item of a chain follows the item before it. |
| Replays.PlayedPrefix | src/board.rs:518-539 | The moves played in a prefix of the items are a prefix of the moves played. |
| Replays.BoardsFromShape | src/board.rs:518-539 | The items of `boards_from` exclude the item on which the closure panics, because `successors` computes an item's successor before yielding it. Without a panic at least one item is yielded. When any is yielded, the first has Black to move on the starting board, and the rest form a chain of passes and legal moves. The played squares are a prefix of the positions, and all of them when there is no panic. |
| Replays.YieldedEndNone | src/board.rs:518-539 | Without a panic, the closure ends on the last item yielded. |
| Replays.YieldedEndSome | src/board.rs:518-539 | With a panic, the closure panics on an item that is not yielded. That item is the first item handed to it when nothing was yielded, and otherwise the successor of the last item yielded. |
| Replays.BoardsFromEnd | src/board.rs:518-539 | How `boards_from` stops. Without a panic: the positions are used up, and a last item without moves is a second pass. With a panic: the unyielded item it panicked on is Black to move on the starting board or the successor of the last yielded item, and the panic's reason holds of it. |
| Replays.IllegalFirst | src/board.rs:518-539 | When the first position is not legal for Black on a board where Black has moves, `boards_from` yields nothing before it panics. |
| Command.WordLenWord | src/command.rs:127-129 | A line that starts with a non-space character starts with a non-empty word, which ends at the first space or at the end of the line. |
| Command.TokensAreWords | src/command.rs:127-129 | Every token from `split_whitespace` is a non-empty run of non-space characters. |
| Command.WordThen | src/command.rs:127-129 | A word followed by nothing or by white space is the first token. |
| Command.SpacedWord | src/command.rs:127-129 | A space followed by a word contributes that word as a token. |
| Command.SpacedTokens | src/command.rs:39-67 | Words joined by spaces split back into the same words. |
| Command.ParseU32 | src/command.rs:136-138 | An accepted u32 is a decimal value in 0 ..= 2^32 - 1. |
| Command.ParseI32 | src/command.rs:213-219 | An accepted i32 is a value in -2^31 ..= 2^31 - 1. |
| Command.DigitsInRange | src/command.rs:136-138 | The digit loop only produces values within the type's range. |
| Command.ShowNat | src/command.rs:39-67 | A number prints as a non-empty string of decimal digits. |
| Command.DigitsShowNat | src/command.rs:39-67 | The digit loop reads back what printing wrote, with the sign given. |
| Command.ParseShowU32 | src/command.rs:39-67 | `t.to_string().parse::<u32>()` gives back `t`. |
| Command.ParseShowI32 | src/command.rs:39-67 | `v.to_string().parse::<i32>()` gives back `v`. |
| Command.ParseBlank | src/command.rs:130 | A blank line has no command: `Missing("command", "command")`. |
| Command.ParseKeywords | src/command.rs:127-248 | A first token that is none of the five keywords gives `UnknownCommand` with that token. Only `END` can panic. |
| Command.ParseStartShape | src/command.rs:131-152 | `START` has these cases: fewer than three fields is `Missing`; a fifth token is `UnexpectedToken`. With exactly three fields and a valid time, the result is a command exactly when the colour is `WHITE` or `BLACK`; otherwise the line is quoted in `ExpectedFound`. |
| Command.ParseEndShape | src/command.rs:153-176 | `END` has these cases: fewer than four fields is `Missing`; a sixth token is `UnexpectedToken`. It panics exactly when both scores parse and the result word is unknown. |
| Command.ParseMoveShape | src/command.rs:177-183 | `MOVE` with no field is `Missing`; `MOVE PASS` is a pass; two or more fields is `UnexpectedToken`. |
| Command.ParseAckShape | src/command.rs:184-191 | `ACK` with no field is `Missing`, with one field it is the parsed time, and with more it is `UnknownCommand("ACK")`. |
| Command.ByeStatsShape | src/command.rs:192-245 | `BYE` reads one stat per group of four tokens, named by the group's first token, in order. |
| Command.ParseByeShape | src/command.rs:192-245 | `BYE` has these cases: a token count that is not a multiple of four quotes the line; a bare `BYE` has no stats; a parsed `BYE` has one stat per four tokens. |
| Command.ParseBye | src/command.rs:192-245 | The tail-splitting loop computes `ByeOf`, the stats or the first error. |
| Command.WriteBye | src/command.rs:61-66 | The keyword followed by one `write!` per stat produces the `Display` text. |
| Command.StatsTextTokens | src/command.rs:61-66 | The printed stats split back into four tokens per stat. |
| Command.ByeStatsTokens | src/command.rs:192-245 | The stats loop reads back the tokens of printed stats. |
| Command.KeywordTokens | src/command.rs:39-67 | A keyword followed by spaced fields tokenises to the keyword and the fields. |
| Command.ParseShowPass | src/command.rs:58 | `MOVE PASS` reads back as a pass. |
| Command.ParseShowMove | src/command.rs:59 | `MOVE <square>` reads back as that move. |
| Command.ParseShowAck | src/command.rs:60 | `ACK <t>` reads back as `t`. |
| Command.ParseShowBye | src/command.rs:61-66 | `BYE` with stats whose names are single tokens reads back as the same stats. |
| Command.ParseShowStart | src/command.rs:47 | A printed `START` does not read back. The colour prints as `Black` or `White`, which the parser refuses, quoting the line. |
| Command.ParseShowEnd | src/command.rs:48-57 | A printed `END` does not read back. `Win`, `Lose` or `Tie` reaches `unreachable!`. |
| Agents.RandomMove | src/agent.rs:16-18 | `RandomAgent` passes exactly when there is no legal move. Otherwise it plays a legal move with the board that move makes. |
| Agents.CornersAreCorners | src/agent.rs:23-41 | The corner mask holds exactly the four corners. |
| Agents.FirstCorner | src/agent.rs:23-41 | The index found is the first corner move, and `None` means there is no corner move. |
| Agents.SafeMoves | src/agent.rs:23-41 | The safe moves are exactly the listed moves after which the opponent cannot take a corner. |
| Agents.LookaheadLegal | src/agent.rs:23-41 | The lookahead agent passes exactly when there is no legal move, and otherwise plays a legal one. |
| Agents.LookaheadCorner | src/agent.rs:23-41 | It takes a corner whenever one is legal: the first in `valid_moves` order. |
| Agents.LookaheadSafe | src/agent.rs:23-41 | Without a corner, it takes a safe move whenever one exists. |
| Agents.SymmetriesInvolutive | src/agent.rs:52-55 | The three symmetries compared by `bfs` each undo themselves. |
| Agents.Visit | src/agent.rs:52-73 | The inner step inserts and enqueues a state exactly when neither it nor any of its images was visited, and it keeps the loop invariants. |
| Agents.Bfs | src/agent.rs:44-77 | The start is visited. Every visited state can be reached from the start within `depth` turns. No two visited states are images of each other under a symmetry. |
| Simulation.Played | src/simulate.rs:24 | The number of moves is at most the number of calls. |
| Simulation.Turn | src/simulate.rs:16-33 | One loop pass ends the game exactly at a second pass in a row. Otherwise it continues from the new board with the other player. |
| Simulation.MoveStep | src/simulate.rs:16-25 | A move continues from its board with the other player and counts as a step. |
| Simulation.PassStep | src/simulate.rs:26-31 | A first pass continues on the same board with the other player. |
| Simulation.EndStep | src/simulate.rs:27-29 | A second pass in a row ends the game. |
| Simulation.Simulate | src/simulate.rs:4-41 | The calls form a whole game: Black starts, players alternate, each choice is the agent's answer, and play stops at the first double pass. `n_steps` is the number of moves and at most the number of empty squares at the start. The winner is the player with more discs on the final board. |
| SimulationFacts.PlayerAt | src/simulate.rs:12-33 | Black makes the even-numbered calls and White the odd-numbered ones. |
| SimulationFacts.EndsFinal | src/simulate.rs:4-41 | When no agent passes while it has a move, the game ends on a board where neither player can move. |
| SimulationFacts.EngineEndsFinal | src/board.rs:315-317 | With the Rust operations that final board is `is_final`. |
| SimulationFacts.WinnerSwap | src/simulate.rs:36-40 | Swapping the colours of all discs swaps the winner. |
| SimulationFacts.RandomAgentObeys | src/agent.rs:16-18 | The random agent plays only legal moves and passes only when it must. |
| DfsSearch.BestOfIsMax | src/dfs_agent.rs:15-20 | The loop ends on the largest of the start value and the moves' scores, and that value is one of them. |
| DfsSearch.DfsIsMax | src/dfs_agent.rs:10-22 | Above depth zero, a position is worth at least -1000 and at least each move's negated value. |
| DfsSearch.DfsAttained | src/dfs_agent.rs:10-22 | The value is -1000 or the negated value of one of the moves. |
| DfsSearch.DfsNoMove | src/dfs_agent.rs:10-22 | A position without a move is worth -1000. |
| DfsSearch.DfsLeaf | src/dfs_agent.rs:11-13 | At depth zero, a position is worth the mover's disc count. |
| DfsSearch.DfsRange | src/dfs_agent.rs:10-22 | Every value is -1000, 1000 or in -64 ..= 64. |
| DfsSearch.Search | src/dfs_agent.rs:10-22 | The recursive loop computes `Dfs`. |
| Mcts.TerminalEngine | src/mcts_agent.rs:156-158 | A terminal node is one whose board is `is_final`. |
| Mcts.Untried | src/mcts_agent.rs:104-138 | A new node's untried actions are `None` exactly when the player must pass. Otherwise they are exactly the legal moves. |
| Mcts.PopsHighest | src/mcts_agent.rs:332-353 | A new node's untried actions end with its highest legal square, so the first `expand` tries the highest square. |
| Mcts.RootWellFormed | src/mcts_agent.rs:92-115 | A new tree's arena satisfies the tree invariant. |
| Mcts.AppendedWellFormed | src/mcts_agent.rs:117-141 | Adding a child node keeps the tree invariant. |
| Mcts.FirstIn | src/mcts_agent.rs:189-199 | The first corner of the list that is in the mask, or `None` exactly when the mask has no corner. |
| Mcts.CornerNames | src/mcts_agent.rs:191 | The corner list is A1, A8, H1, H8, in the order `rollout_policy` tries them. |
| Mcts.Policy | src/mcts_agent.rs:189-200 | `rollout_policy` passes exactly when there is no move. Otherwise it plays a legal move, which is the first available corner in the order A1, A8, H1, H8 when there is one. |
| Mcts.RolloutPolicy | src/mcts_agent.rs:189-200 | The method computes `Policy`. |
| Mcts.ChooseAllowed | src/mcts_agent.rs:199 | A drawn move is legal, and there is none exactly when the player must pass. |
| Mcts.PlayoutEnds | src/mcts_agent.rs:160-182 | A rollout ends on a final board: neither player has a move. |
| Mcts.Sign | src/mcts_agent.rs:185 | `signum` is 1, 0 or -1 according to the sign. |
| Mcts.Outcome | src/mcts_agent.rs:183-185 | A rollout is worth 1 if the node's player has more discs, -1 if fewer, and 0 for a draw. |
| Mcts.OutcomeSwap | src/mcts_agent.rs:183-185 | Seen by the other player, the result changes sign. |
| Mcts.Rollout | src/mcts_agent.rs:160-187 | `rollout` returns the outcome of the playout for the node's player. |
| Mcts.FindChild | src/mcts_agent.rs:202-204 | The child found was reached by the action asked for, and `None` means no child was. |
| Mcts.Position | src/mcts_agent.rs:360-386 | The index found is the first untried move to the square, and `None` means there is none. |
| Mcts.SwapRemove | src/mcts_agent.rs:360-386 | `swap_remove` removes exactly one element and keeps the rest, in the multiset sense. |
| Mcts.SwapRemoveWithin | src/mcts_agent.rs:360-386 | What is left after `swap_remove` was in the list. |
| Mcts.Backed | src/mcts_agent.rs:388-404 | Backpropagation keeps the arena's size. |
| Mcts.BackedAt | src/mcts_agent.rs:388-404 | Backpropagation changes exactly the node and its ancestors. Each gains one visit and the result, with the sign alternating at each level. |
| Mcts.BackedWellFormed | src/mcts_agent.rs:388-404 | Backpropagation keeps the tree invariant. |
| Mcts.RootAbove | src/mcts_agent.rs:92-141 | Every node lies under the root. |
| Mcts.ForcedChild | src/mcts_agent.rs:360-386 | `force_expand_on_action` returns a child of `v` that was reached by the action. It fails with `PassMismatch` exactly when the pass state of the action and the node disagree, and with `NotUntried` exactly when no child and no untried move match. A failure changes nothing. |
| Mcts.Visited | src/mcts_agent.rs:265-272 | One simulation visits each ancestor of the start exactly once. |
| Mcts.Tree.constructor | src/mcts_agent.rs:223-230 | `MCTS::new` makes a valid tree whose only node is the root for the board. |
| Mcts.Tree.ExpandImpl | src/mcts_agent.rs:321-331 | `expand_impl` adds the new node as the last child of `v`. |
| Mcts.Tree.Expand | src/mcts_agent.rs:332-353 | `expand` takes the last untried action off and expands it. A node that must pass gets its one pass child. A fully expanded node gets none. |
| Mcts.Tree.ForceExpandOnAction | src/mcts_agent.rs:360-386 | The method returns what `Forced`, the specification of `ForcedChild`, returns. |
| Mcts.Tree.Backpropagate | src/mcts_agent.rs:388-404 | The method computes `Backed`. |
| Mcts.Tree.TreePolicy | src/mcts_agent.rs:241-261 | The walk ends at a node under `start` that is either new or terminal. It adds at most one node, and none when `start` is terminal. |
| Mcts.Tree.Simulate | src/mcts_agent.rs:263-289 | One simulation keeps the tree valid and visits each ancestor of `start` once. |
| Mcts.Tree.BestAction | src/mcts_agent.rs:263-289 | After `n` simulations the ancestors of `start` gain `n` visits each. The result is a child of `start`, `None` exactly when `start` has no child, and present after `n > 0` simulations from a non-terminal node. |
| Mcts.MctsAgent.constructor | src/mcts_agent.rs:13-22 | The agent starts with the tree of the initial board, Black to move, and the cursor at the root. |
| Mcts.MctsAgent.Initialize | src/mcts_agent.rs:25-27 | `initialize` moves the cursor back to the root and keeps the tree. |
| Mcts.MctsAgent.OpponentMoveCallback | src/mcts_agent.rs:28-33 | The cursor moves to a child that the opponent's action reaches. A failure leaves everything as it was. |
| Mcts.MctsAgent.SelectMove | src/mcts_agent.rs:35-50 | The cursor gains `n_simulations` visits and moves to a child, whose move is played. It stays, and the agent passes, exactly when there is no child. |
| Mcts.ChildPlayed | src/mcts_agent.rs:35-50 | The move played is the one that leads to the chosen child. |
| BoardCpp.PrintPosName | board.hpp:28-40 | `operator<<(Pos)` prints the same name as the Rust `Display for Pos`. |
| BoardCpp.NamesShape | board.hpp:28-40 | The name table lists the squares row-major from A1. |
| BoardCpp.Board.constructor | board.hpp:55 | `Board()` is the Rust initial board. |
| BoardCpp.Board.Make | board.hpp:49-53 | `Board(black, white)` throws exactly when the sets overlap, and otherwise keeps them. |
| BoardCpp.Board.GetDisk | board.hpp:57-59 | `get_disk` is the Rust `get_disks`. |
| BoardCpp.Board.IsFinal | board.hpp:61-63 | `is_final` holds when neither player has a move. With the intended table it is the Rust `is_final`. |
| BoardCpp.Board.Count | board.hpp:65-67 | `count` is the Rust `count`, at most 64. |
| BoardCpp.Board.FlipDiscs | board.hpp:69-72 | `flip_discs` moves every square of the set to the other side. |
| BoardCpp.Board.SwapDiscs | board.hpp:73-75 | `swap_discs` exchanges the two sets. |
| BoardCpp.Board.Equals | board.hpp:77-79 | `==` holds exactly when both sets agree. |
| BoardCpp.IntendedIsRust | board.hpp:81-98 | With the intended row 6, every row of the shift table is the Rust shift in its heading. |
| BoardCpp.WrittenRows | board.hpp:81-98 | As written, row 6 is the Rust `North` shift with the A file cleared. The other rows are as intended. |
| BoardCpp.Board.ValidMoves | board.hpp:100-113 | `valid_moves` computes `MovesOf` with the table in use. With the intended table this is the Rust move mask. |
| BoardCpp.MovesAgree | board.hpp:100-113 | With the intended table, the row loop finds exactly the Rust moves. |
| BoardCpp.MovesOfAgree | board.hpp:100-113 | With the intended table, `valid_moves` equals the Rust `valid_moves_fast`. |
| BoardCpp.MovesUpToWithin | board.hpp:100-113 | Every square of `valid_moves` is empty, with either table. |
| BoardCpp.IsFinalAgree | board.hpp:61-63 | With the intended table, `is_final` equals the Rust `is_final`. |
| BoardCpp.WrittenLosesMove | board.hpp:89 | With black on A3 and white on A2, the intended table finds the move on A1. As written, the table finds no move. |
| BoardCpp.Board.PlaceAt | board.hpp:114-136 | `place_at` throws exactly when the specification `PlaceOf` does, and otherwise returns the board `PlaceOf` makes. |
| BoardCpp.Board.Build | board.hpp:127-135 | The final `Board(me, opp)` throws exactly when the sets overlap. Otherwise it flips the captures and swaps for White. |
| BoardCpp.PlaceThrows | board.hpp:114-136 | On a board without overlaps, `place_at` throws exactly when the target square holds an opponent's disc, with either table. |
| BoardCpp.CaptureAgree | board.hpp:114-136 | With the intended table, `place_at` captures exactly what the Rust `place_at_unchecked` captures. |
| BoardCpp.PlaceAgree | board.hpp:114-136 | Otherwise, with the intended table, `place_at` makes the board that the Rust code makes from the Rust captures. |
| BoardCpp.PlaceOfAgree | board.hpp:114-136 | With the intended table, `place_at` is the Rust `place_at_unchecked` wherever it does not throw. |
| AgentCpp.RandomSelectMove | agent.cpp:7-16 | From a non-empty legal mask and a draw below its size, `select_move` plays the square that the loop selects, with the board `place_at` makes. |
| AgentCpp.ClearLowest | agent.cpp:10-13 | The loop clears the `i` lowest squares of the legal mask. |
| AgentCpp.HighestOf | agent.cpp:14 | `63 - __builtin_clzll(moves)` is the highest square of the mask. |
| AgentCpp.PickFrom | agent.cpp:14 | The square played is the one the pick rule selects from what the loop leaves. |
| AgentCpp.ClzIs | agent.cpp:14 | `63 - clz(x)` is a square, and on a non-empty mask it is the highest disc: shifting the mask right by it leaves exactly 1. |
| AgentCpp.CtzBottom | agent.cpp:14 | `ctz(x)` is the lowest square of a non-empty mask. |
| AgentCpp.LowBitIs | agent.cpp:12 | `x & (~x + 1)` is the lowest square, and subtracting it clears exactly that square. |
| AgentCpp.DroppedTop | agent.cpp:10-13 | After fewer steps than squares, what is left is a subset of the mask with that many squares fewer and the same highest square. |
| AgentCpp.DroppedWithin | agent.cpp:10-13 | The loop only clears squares. |
| AgentCpp.Chosen | agent.cpp:14-15 | `place_at` does not throw on a legal square. |
| AgentCpp.PickIsTop | agent.cpp:10-14 | What is left is non-empty and has the legal mask's highest square. |
| AgentCpp.WrittenIgnoresDraw | agent.cpp:10-14 | As written, every draw plays the same square: the highest legal one. |
| AgentCpp.WrittenSameOpening | agent.cpp:10-14 | As written, on the opening mask draws 0 and 1 both play D3. |
| AgentCpp.IntendedIsLegal | agent.cpp:10-14 | `ctz` of what is left is a legal square. |
| AgentCpp.IntendedOrder | agent.cpp:10-14 | With `ctz`, later draws play strictly higher squares, so different draws play different legal squares. |
| AgentCpp.IntendedOpening | agent.cpp:10-14 | With `ctz`, on the opening mask draws 0 and 1 play E6 and F5. |

## Left out

- Terminal and socket I/O: `Session`, `read_cmd` and `launch` in `src/command.rs`, and `main.cpp`, are not part of this model.
- The `gen` and `kk` binaries, `agent.hpp` and the `tests` modules are not part of this model. The contents of the tests are reflected in round-trip and shape lemmas.
- The C++ Monte Carlo code (`mcts.hpp`, `mcts.cpp`) and `MCTSAgent::initialize` in `agent.cpp` are not part of this model. The Rust tree search is modelled instead.
- `RandomAgent::initialize` and `opponent_move_callback` in `agent.cpp` have empty bodies, so there is nothing to model.
- The `Display`/`Debug` printing of boards and trees, `eprintln!`, `println!` and the node counter `N_NODES` are output only, and are left out.
- `DfsAgent::select_move` is `unimplemented!()` and its callback is empty. Only `dfs` is modelled.
- Randomness (`thread_rng`, `choose`, `dist`, `engine`) becomes draw parameters: an index into the list, or a function from turn number to index. The distribution of the draws is not modelled.
- The UCT score and `best_child`/`best_uct_child` are floating point. They are oracle parameters (`Selector`) that return some child, and the exploration constant `c` is not modelled.
- A NaN UCT score, which makes `best_child` panic with "No best child", is not modelled. The selector oracle always returns a child.
- `Rc`/`Weak`/`RefCell` sharing between nodes is modelled as an arena (a sequence of nodes addressed by index, with parent indices). Aliasing through shared pointers is not modelled.
- Mcts.MctsAgent.SelectMove: requires that the cursor node's state is the board and player it is asked about. The source checks this with `assert_eq!` and panics otherwise.
- Mcts.MctsAgent.OpponentMoveCallback: the `map_or_else` panic (src/mcts_agent.rs:30) fires only when `force_expand_on_action` returns `None`. That never happens, because that function (src/mcts_agent.rs:361-384) either returns `Some` or panics itself, so this panic is not modelled. The panics of `force_expand_on_action` are modelled: they are the `PassMismatch` and `NotUntried` failures of `ForcedChild`, which the callback passes on unchanged.
- The u32 counters `n_visits` and `n_steps` are unbounded integers; their overflow is not modelled. Rewards are integers rather than floating point.
- Simulation.Simulate: requires both agents to play only legal moves (`Obeys`). With an arbitrary agent the game need not end, and the source gives no bound.
- CaptureAgreement.SameMoves: states that the two move lists hold the same actions, not that they are the same list. They come in different orders: the fast one in increasing square order, the slow one in `Pos::iter` order.
- Agents.Bfs: states soundness (every visited state is reachable within `depth`, no symmetric twins) but not completeness. The concrete numbers of visited states that the test in src/agent.rs:84-92 expects from the initial board (2 for depth 1, 401 for depth 5, 12832 for depth 7, 3496888 for depth 10) are not proved.
- `Bitboard.Board.Count` is stated only as a bound and through its uses. The equality with a population count is the definition.
- In `src/command.rs`, `Milliseconds`, `Score` and the constructors `Cmd::start`/`end`/`ack` are plain data and not separate members. An opponent name or stat name containing white space cannot read back, and the round trip is stated for single-token names only.

## Findings

| source | as written | input that shows it | evidently intended | confidence | as-written member | corrected member |
|---|---|---|---|---|---|---|
| board.hpp:89 | Row 6 of the shift table (left shift by 8, towards rank 1) masks with `0x7f7f7f7f7f7f7f7f`. This clears the A file, although a vertical shift cannot wrap. | Black on A3 (bit 47), white on A2 (bit 55), Black to move. The Rust code finds the move A1; `valid_moves` as written finds none. | The mask `0xffffffffffffffff` (no mask), as in the Rust `North` shift. | not executed | BoardCpp.WrittenLosesMove | BoardCpp.MovesAgree |
| agent.cpp:10-14 | After clearing the `i` lowest legal squares, the move is `63 - __builtin_clzll(moves)`, the highest remaining square. That is always the highest legal square, whatever `i` is drawn. | The opening mask `0x0000102004080000` with Black to move: draws 0 and 1 both play D3 (square 44). | `__builtin_ctzll(moves)`, the lowest remaining square, so that draw `i` plays the `i`-th legal square. | not executed | AgentCpp.WrittenIgnoresDraw | AgentCpp.IntendedOrder |
