# pgn_viewer core in Dafny

This project models the engine behind the pgn_viewer chess game viewer. The
engine has three parts:

- **Reader.** It splits a PGN file into tag blocks and movetext blocks. For each
  game it extracts the seven tag values and cleans the movetext into a list of
  SAN tokens (`pgn.py`).
- **Replay.** It replays the tokens on a board of 64 piece records: 32 pieces
  and 32 "decoys" on the empty squares (`piece.py`, `board.py`). A resolver
  works out which record each token moves (`move_checking.py`).
- **Game loader.** It replays the whole game once. For every half move it
  records a snapshot of the board, a tally of captured material, and the capture
  and check flags. It then lets a viewer step through the rounds
  (`game_loader.py`).

Modules, one concern each:

| file | module | models |
|---|---|---|
| wrappers.dfy | Wrappers | `Option` and `Result` |
| text.dfy | Text | the Python string operations the code relies on: `find`, `rfind`, slicing with clamping, `split()`, `split(sep)`, `int`/`str` for naturals |
| squares.dfy | Squares | square names, display rows and columns, the 26 listed diagonals |
| pieces.dfy | Pieces | `Piece` (piece.py) |
| board.dfy | Boards | `Board` (board.py): the starting list, `update_board`, `move_piece` |
| move_rules.dfy | MoveRules | the geometry tests and the pin test of the resolver |
| move_checking.dfy | MoveChecking | token cleaning, the search loops, castling, promotion, en passant; `load_next_move` |
| game_loader.dfy | GameLoading | the replay of a whole game, material tallies, round navigation |
| pgn.dfy | PgnFiles | `FilePGN`: file splitting, game indexes, tags, movetext cleaning, round count |

Throughout, the model follows the code as written where it differs from what
the documentation says the program does:

- The king test accepts any two squares on a common listed diagonal, at any
  distance (`MoveRules.KingDiagonalEnds`: from one end of any diagonal to the other, a1 to h8 included).
- A pawn capture does not compare the destination file with the pawn's
  (`MoveChecking.CaptureTestMeaning`).
- A rook named by its full source square never moves
  (`MoveChecking.RookFromSquareNeverMoves`).
- The move-number sweep skips the token after a removed number
  (`PgnFiles.SweepSkipsAfterRemoval`).

Python exceptions become values:

- `Raised`/`Test.Raise` for IndexError, KeyError and ValueError inside the resolver;
- `LoadError` for the exceptions the game loader raises;
- `PgnError` for `PossibleCorruptFile`;
- `None` from `NextRound`/`PreviousRound` for `PositionReached`.

## Model

| member | source | states |
|---|---|---|
| Squares.AllSquaresAreSquares | move_checking.py:82-86 | the square list holds exactly the 64 names file a-h, rank 1-8 |
| Squares.RowColDetermineSquare | board.py:51-85 | display row and column determine the square (row 0 is rank 8) |
| Squares.DiagsWellFormed | move_checking.py:88-113 | 26 listed diagonals, each of at least two squares, all on the board, no two entries sharing a file or a rank |
| Squares.DiagEntry | move_checking.py:88-113 | entry i of each listed diagonal lies i diagonal steps from its first square |
| Pieces.Piece.constructor | piece.py:35-64 | a piece holds exactly the five given fields |
| Pieces.Piece.Named | piece.py:35-64 | the default arguments: in play, row and column -1 |
| Pieces.Piece.GotCaptured | piece.py:66-71 | the piece becomes the blank-named decoy out of play, where it stands |
| Boards.IndexAt | board.py:151-156 | the first record on a square, or none exists |
| Boards.IndexAtSquare | board.py:151-156 | on a well-formed board exactly the square names are found, each on exactly one record |
| Boards.CellsDistinct | board.py:51-85 | distinct records occupy distinct display cells |
| Boards.InitialWellFormed | board.py:51-98 | the starting list covers every square exactly once with sane records |
| Boards.InitialWhiteBackRank | board.py:53-56 | the white pieces' names, squares and cells, in list order |
| Boards.InitialBlackBackRank | board.py:62-65 | the black pieces' names, squares and cells, in list order |
| Boards.InitialPawns | board.py:57-68 | pawns pw1..pw8 on rank 2 and pb1..pb8 on rank 7 |
| Boards.InitialDecoys | board.py:70-85 | the 32 decoys fill ranks 3-6, out of play |
| Boards.Occupancy | board.py:102-126 | the occupancy map has the 64 squares as keys, and each key maps to the colour letter of the record in play there or to False |
| Boards.RefreshIsOccupancy | board.py:120-126 | writing every record's tag in list order yields exactly the occupancy of the board |
| Boards.MoveSpec | board.py:128-177 | the move changes only the two records found, and changes nothing when either square holds no record |
| Boards.MovePreservesWellFormed | board.py:163-175 | positions stay a permutation of the 64 squares |
| Boards.MoveAtSquares | board.py:151-177 | the mover arrives on dest with its name, src holds a decoy, the old name on dest is returned, friendly capture iff colours match, every other square is unchanged |
| Boards.MoveOntoItself | board.py:151-177 | moving a record onto its own square captures it |
| Boards.MoveOffBoard | board.py:151-177 | a non-square source or destination moves nothing and returns None |
| Boards.Board.constructor | board.py:45-100 | the starting list, an empty display grid and occupancy map, no friendly capture |
| Boards.Board.UpdateBoard | board.py:120-126 | afterwards the occupancy map and the display grid agree with the records; the records are unchanged |
| Boards.Board.Place | board.py:124-126 | one pass writes record `i`'s tag (or vacant) over its square, on top of the map left by the records before it, and its index into its grid cell; earlier records' cells keep their indexes |
| Boards.Board.MovePiece | board.py:128-177 | the new records, the result and the flag are those of `MoveSpec` |
| Boards.Board.Rename | move_checking.py:246-249 | a promotion renames one record and nothing else |
| MoveRules.OccupancyFull | board.py:120-126 | a refreshed map has an entry for every square |
| MoveRules.DiagonalMoveMeaning | move_checking.py:498-554 | the diagonal test accepts iff the squares differ, some listed diagonal holds both, and on the first such diagonal nothing strictly between them is in play |
| MoveRules.StraightMoveMeaning | move_checking.py:556-630 | the rank/file test accepts iff the squares differ, share a file or a rank, and nothing strictly between them is in play |
| MoveRules.KnightMoveMeaning | move_checking.py:632-660 | the knight test raises iff the destination is not a square, and otherwise accepts exactly the L-shaped jumps |
| MoveRules.KingOrthogonalStep | move_checking.py:662-690 | along a file or rank the king test accepts exactly one-square steps |
| MoveRules.KingDiagonalAnyDistance | move_checking.py:691-729 | off the file and rank the king test accepts iff some listed diagonal holds both squares |
| MoveRules.KingDiagonalEnds | move_checking.py:691-729 | the king test accepts a move from one end of any listed diagonal to the other (a1 to h8 among them) |
| MoveRules.RankRow | move_checking.py:756-760 | the king's rank, file a to h, with every square of that rank at its file index |
| MoveRules.FileColumn | move_checking.py:837-841 | the king's file, rank 1 to 8, with every square of that file at its rank index |
| MoveRules.KingDiags | move_checking.py:917-921 | exactly the listed diagonals through the king with more than two squares |
| MoveRules.LineCheckMeaning | move_checking.py:756-913 | a rank/file pin is reported iff an enemy queen or rook is the nearest piece in play beyond the mover, nothing in play stands between king and mover, and the destination leaves the line |
| MoveRules.DiagCheckMeaning | move_checking.py:934-996 | a diagonal pin is reported iff the mover is listed before the king and an enemy queen or bishop pins it with the destination off the diagonal |
| MoveRules.PinOnRank | move_checking.py:756-835 | when the king's rank holds the mover, a pin is reported iff an enemy queen or rook pins it along the rank and the destination is off the rank |
| MoveRules.PinOnFile | move_checking.py:837-913 | otherwise, when the king's file holds the mover, the same along the file |
| MoveRules.PinOnDiagonal | move_checking.py:915-996 | off rank and file, only the first of the king's longer diagonals holding the mover decides, and a pin by an enemy queen or bishop is reported only when the mover is listed before the king |
| MoveChecking.StripAnnotations | move_checking.py:159-162 | at most two last characters are dropped, leaving a prefix |
| MoveChecking.Prepare | move_checking.py:153-205 | the capture flag iff the raw token holds `x`; the cleaned forms are prefixes of the raw token; a promotion iff `=` remains |
| MoveChecking.PrepareUndoesDecoration | move_checking.py:153-205 | cleaning a move decorated with a promotion, a check mark and annotation glyphs gives back the move, the piece letter in lower case, and the checked side |
| MoveChecking.PrepareDropsMarks | move_checking.py:159-168 | check marks and glyphs only set the check flag |
| MoveChecking.PrepareSplitsPromotion | move_checking.py:193-205 | "=P" is cut off and reported in lower case |
| MoveChecking.StripAnnotationsOf | move_checking.py:159-162 | one or two trailing glyphs are dropped, and nothing else |
| MoveChecking.StripMarkOf | move_checking.py:164-168 | a trailing `+` or `#` is dropped and reported |
| MoveChecking.PromotionOf | move_checking.py:199-205 | a promotion suffix is split off with the piece letter lower-cased |
| MoveChecking.PushTestMeaning | move_checking.py:216-252 | the push loop picks a pawn of the side to move on the destination's file, one or two ranks behind an out-of-play destination, the double step only from the start rank over an empty square |
| MoveChecking.CaptureTestMeaning | move_checking.py:259-296 | the capture loop picks a pawn of the side to move on the token's first file, one rank behind the destination; the destination file is not compared |
| MoveChecking.RookFromSquareNeverPasses | move_checking.py:478-487 | a rook named by its full square is sent to its own square and is never taken |
| MoveChecking.SearchFrom | move_checking.py:170-496 | the search stops at the first record whose verdict is not Skip, and every record before it is skipped |
| MoveChecking.PassantSquare | move_checking.py:270-287 | a capture onto an empty square takes the pawn one rank behind it; any other capture takes nothing |
| MoveChecking.PieceStage | move_checking.py:299-496 | a piece search moves one existing record, never renames, never castles |
| MoveChecking.PawnStage | move_checking.py:193-296 | the pawn stage yields an applicable plan and never castles |
| MoveChecking.Resolve | move_checking.py:170-496 | every plan can be carried out on the record list |
| MoveChecking.Apply | move_checking.py:170-496 | carrying out a plan keeps the board well-formed, and `move_piece` is called iff the plan moves something |
| MoveChecking.Step | move_checking.py:125-496 | a round past the end raises and leaves the board; otherwise capture is set iff the token holds `x`, check is the opponent of the side to move exactly when cleaning found a `+` or `#` (None otherwise), and the board stays well-formed |
| MoveChecking.CastleFallsThrough | move_checking.py:170-296 | a castling token no king takes passes every pawn search |
| MoveChecking.CastleChoice | move_checking.py:170-191 | castling moves the first record named as king of the side to move, else gives None |
| MoveChecking.CastleEffect | move_checking.py:175-191 | the king lands on its castling square, the rook beside it, both vacated squares out of play |
| MoveChecking.CastleSquaresDistinct | move_checking.py:175-191 | the three castling squares are distinct squares |
| MoveChecking.TwoMoves | move_checking.py:175-191 | two moves over four squares land both movers and vacate both sources |
| MoveChecking.RookFromSquareNeverMoves | move_checking.py:478-487 | a token like "Ra1a5" resolves to nothing |
| MoveChecking.MoveChecker.constructor | move_checking.py:64-123 | a fresh starting board, the moves, round -1, no check, no capture |
| MoveChecking.MoveChecker.FindFirst | move_checking.py:170-496 | the loop finds what `SearchFrom` specifies |
| MoveChecking.MoveChecker.Choose | move_checking.py:170-496 | the searches choose what `Resolve` specifies |
| MoveChecking.MoveChecker.ChoosePawn | move_checking.py:193-296 | the pawn searches choose what `PawnStage` specifies |
| MoveChecking.MoveChecker.ChoosePiece | move_checking.py:299-496 | the piece searches choose what `PieceStage` specifies |
| MoveChecking.MoveChecker.Perform | move_checking.py:175-496 | the board after the move is the one `Apply` specifies |
| MoveChecking.MoveChecker.LoadNextMove | move_checking.py:125-496 | the round counter advances and board, result, flags are those of `Step` |
| GameLoading.Snapshot | game_loader.py:107-111 | one cell per record, the name cut to two letters |
| GameLoading.SnapshotShowsBoard | game_loader.py:132-139 | a recorded board has 64 cells on distinct display positions covering all 64 squares |
| GameLoading.Worth | game_loader.py:90 | a value exists iff the key is a piece letter and a colour letter; positive iff white |
| GameLoading.BalanceAppend | game_loader.py:132-138 | the material sum adds over concatenation |
| GameLoading.BalanceMirror | game_loader.py:132-138 | colour-mirrored cells sum to the opposite balance |
| GameLoading.InitialBalance | game_loader.py:87-90 | the starting position is balanced |
| GameLoading.Tallied | game_loader.py:206-229 | the tally fails iff the name is shorter than two letters or a coloured name has no known kind; otherwise it copies the last tally with the advantage set and only the captured kind changed by +1 for white and -1 for black |
| GameLoading.Record | game_loader.py:121-148 | an exception from the checker is Uncaught; no name back raises FalseGame and a friendly capture raises FriendlyCapture, both with the message `<round//2+1>. <token>`; otherwise the round is kept iff the tally accepts the captured name (a captured king raises KeyError, Uncaught), and then each list grows by exactly the new snapshot, tally, capture and check entries while earlier entries stay |
| GameLoading.Round | game_loader.py:117-148 | one round on a well-formed board keeps it well-formed and extends the record |
| GameLoading.ReplayFrom | game_loader.py:117-148 | a completed replay has one entry per half move plus the start and keeps the earlier entries |
| GameLoading.ReplayRecordsBoards | game_loader.py:132-142 | every recorded snapshot shows a full board and its advantage is its material balance |
| GameLoading.ReplayRecordsMarks | game_loader.py:146-148 | the capture flag of half move k iff its token holds `x`; a recorded check never names the side to move |
| GameLoading.ReplayBlamesToken | game_loader.py:124-129 | a false game or friendly capture names the round number and token of a half move |
| GameLoading.Replay | game_loader.py:62-148 | NoMovesFound iff there are no moves; otherwise a full record starting from the balanced starting board, with all the above per-round facts |
| GameLoading.NextRound | game_loader.py:167-173 | PositionReached iff not forced at the second to last round or later; otherwise one round on |
| GameLoading.PreviousRound | game_loader.py:192-198 | PositionReached iff not forced at round 1 or earlier; otherwise one round back |
| GameLoading.UnforcedWalkStaysInRange | game_loader.py:150-204 | unforced navigation never leaves the recorded rounds |
| GameLoading.ForcedStepsReachEnds | game_loader.py:167-198 | only forcing reaches the last round and round 0 by stepping |
| GameLoading.GameLoader.constructor | game_loader.py:85-111 | the starting record: one snapshot, an empty tally, no capture, no check, round 0 |
| GameLoading.GameLoader.Survey | game_loader.py:107-111 | the loop builds the snapshot of the board and its balance |
| GameLoading.GameLoader.RecordRounds | game_loader.py:113-148 | the loader's lists end up as `Replay` specifies, or the error it specifies |
| GameLoading.GameLoader.ReplayRest | game_loader.py:117-148 | the loop over the rounds computes `ReplayFrom` |
| GameLoading.GameLoader.PlayRound | game_loader.py:119-148 | one round computes `Round` |
| GameLoading.GameLoader.Note | game_loader.py:124-148 | the checks and appends of one round compute `Record` |
| GameLoading.GameLoader.Extend | game_loader.py:131-148 | the snapshot, the new tally and both marks are appended exactly when the tally accepts the captured name; otherwise the uncaught error and no change |
| GameLoading.GameLoader.NextMove | game_loader.py:150-173 | the round moves as `NextRound` says, or PositionReached leaves it |
| GameLoading.GameLoader.PreviousMove | game_loader.py:175-198 | the round moves as `PreviousRound` says, or PositionReached leaves it |
| GameLoading.GameLoader.RestartGame | game_loader.py:200-204 | back to round 0 |
| GameLoading.Load | game_loader.py:62-148 | building a loader succeeds iff `Replay` does, holding exactly its record |
| PgnFiles.SplitFiles | pgn.py:124-177 | the blocks of `Blocks`, or PossibleCorruptFile naming their count when it is odd |
| PgnFiles.BlocksHoldText | pgn.py:152-169 | no block is empty or a lone blank line |
| PgnFiles.BlocksKeepText | pgn.py:152-169 | the blocks together hold every visible character of the file, in order |
| PgnFiles.FilePGN.GetIndexOfGames | pgn.py:179-196 | exactly the even indexes below the block count, in order |
| PgnFiles.FilePGN.constructor | pgn.py:45-66 | the blocks kept and the game indexes computed |
| Text.SplitOnJoin | pgn.py:92 | splitting on a character and joining on it again gives back the input |
| PgnFiles.TagValue | pgn.py:95-107 | "[no info]" when no line carries the tag |
| PgnFiles.TagValueIsFirstMatch | pgn.py:95-104 | the first tagged line decides the value |
| PgnFiles.TagPairRoundTrip | pgn.py:98-104 | a tag pair `[Tag "value"]` reads back as its value |
| PgnFiles.TagValues | pgn.py:86-107 | the dictionary has exactly the seven tags as keys |
| PgnFiles.ReadTag | pgn.py:96-107 | the inner loop finds `TagValue` |
| PgnFiles.ReadTags | pgn.py:95-107 | the outer loop builds `TagValues` |
| PgnFiles.StripComments | pgn.py:219-229 | the result holds no `{` and is no longer; a text without `{` is unchanged |
| PgnFiles.CommentRemoved | pgn.py:219-229 | cutting a closed comment leaves the text as if it had never been there |
| Text.Find | pgn.py:221-227 | the first position holding the item, or -1 exactly when it is absent |
| PgnFiles.RemoveFirst | pgn.py:241-244 | the first occurrence is dropped |
| PgnFiles.SweepIsIntended | pgn.py:235-255 | when each move number is followed by a plain token, the sweep drops the move numbers, strips numbers glued to moves, and keeps everything else |
| PgnFiles.SweepSkipsAfterRemoval | pgn.py:235-244 | the token after a removed number is not examined |
| PgnFiles.DropResult | pgn.py:257-261 | a lone token becomes " ", otherwise the last token is dropped |
| PgnFiles.CleanMoves | pgn.py:199-261 | empty movetext gives no tokens; cleaning fails exactly where comment cutting never ends |
| PgnFiles.CleanMovesOfPlainMovetext | pgn.py:199-261 | movetext with a closed comment and separated numbers cleans to the intended tokens without the result |
| PgnFiles.GetMovesAsList | pgn.py:199-261 | the loops compute `CleanMoves` |
| PgnFiles.TotalRounds | pgn.py:264-284 | `str(n)`: non-empty decimal digits without a leading zero (only "0" starts with 0) whose value n has 2n-1 <= half moves <= 2n |
| PgnFiles.InfoOf | pgn.py:68-122 | the seven tags from the game's block, the cleaned movetext of the next block (none after the last), and its round count |
| PgnFiles.FilePGN.GetInfo | pgn.py:68-122 | the method computes `InfoOf` |
| PgnFiles.Open | pgn.py:45-66 | a reader exists iff the block count is even, otherwise PossibleCorruptFile |

Several definitions carry the model without a row of their own; what they do is stated by the rows above that use them:
`PgnFiles.Sweep` (pgn.py:235-255), `PgnFiles.Gather` and `PgnFiles.Blocks` (pgn.py:150-169),
`GameLoading.Balance` (game_loader.py:132-138), `GameLoading.Message` (game_loader.py:125, 129),
`MoveChecking.PushTest` (move_checking.py:214-252), `MoveChecking.CaptureTest` (move_checking.py:257-296),
`MoveChecking.KingTest` (move_checking.py:306-312), `MoveChecking.PieceTest` (move_checking.py:319-487),
`Text.SplitWords` (pgn.py:233), `Text.SplitOn` (pgn.py:92, 251) and `Text.RFind` (pgn.py:101).
`Text.Find` also models `str.find` at pgn.py:100 and move_checking.py:300, `list.index` at pgn.py:248, and the lookup inside `list.remove` at pgn.py:242.

## Left out

- File access (`open`, reading lines) is not modelled: `Open` and `SplitFiles` take the file's lines, each with its line break.
- The GUI modules and everything they call (gui.py, captured_pieces.py, listbox_game_display.py, manual_game_selector.py, main_program.py) are not part of this model.
- Pieces are records in a sequence that `Board` reassigns, not shared objects. Python's aliasing of a `Piece` held both in `pieces` and in the display grid is therefore not modelled. The grid holds list indices instead.
- `background_tracers.append` in the `" "` token branch is left out; the attribute is not defined in the modelled files.
- Boards.Board.UpdateBoard: the model refreshes the occupancy map at the start of every `load_next_move`; the modelled files never show where `update_board` is called.
- MoveChecking.MoveChecker.LoadNextMove: en passant only computes the captured pawn's square; that pawn's removal is not modelled, because the removal lives in code outside the modelled files. move_checking.py:296 hands the square on as `passant=`, which the `move_piece` of board.py:128 does not accept; the model performs the plain move.
- MoveChecking.MoveChecker.Perform: the calls `move_piece(piece, dest)` (move_checking.py:252, 296, 312) are modelled as `move_piece(piece.pos, dest)`, since board.py's `move_piece` finds the mover by its square name; `move_piece_by_position` (move_checking.py:179-191), which the modelled files do not define, is modelled as the same swap.
- MoveRules.StraightMoveIsValid: the fall-through `None` is read as False, as every caller uses it for truth only.
- `int()`, `str.lower()` and `str.islower()` are modelled for ASCII digits and letters only.
- GameLoading.GameLoader: the loader holds its move checker as a field instead of inheriting from it. Its snapshot dictionaries are `Cell` values. Exceptions are returned as `LoadError` values by `Load`, since a constructor cannot fail.
- PgnFiles.StripComments: where Python's comment loop never ends, the model returns None instead of looping.
- PgnFiles.FilePGN.GetInfo: negative game numbers, which Python would count from the end, are excluded, as the method's documentation asks for an index from `index_of_games`.
- my_exceptions.py is not part of this model beyond the exception names and messages used above.
