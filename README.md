# Tic-tac-toe against a memoised minimax player

A Dafny model of the core of a small console tic-tac-toe game. A board is
an immutable 3x3 grid of integers: 0 is a blank cell, 1 the AI (the
maximiser) and -1 the human (the minimiser). The board lists its remaining
moves in row-major order, checks bounds, commits a move to a fresh board,
and finds a winner by scanning its eight lines: the three columns, the
three rows, the main diagonal and then the anti-diagonal. The AI player
scores a position by minimax. A won board is worth its winner. A full
board is worth 0. A board with at most one mark is also worth 0, without
any search. Every other position gets the best move score for the player
to move, and the folds stop early at the best possible value. Scores are
memoised in a dictionary keyed by grid and player. The player then picks
the first remaining move that keeps the position's score. A small parser
turns a line typed by the human into a coordinate pair.

Files:

- `wrappers.dfy`: `Option`.
- `players.dfy` (`PlayerTypes`): the cell and player encoding, `opposing_player`, `player_to_avatar`.
- `board.dfy` (`TicTacToeBoard`): the board value.
  - `commit_move` is an imperative method over a mutable 3x3 array copy.
  - `winner_on_board` is a loop that breaks at the first winning line.
  - `__str__` is a rendering function.
- `minimax.dfy` (`Minimax`): the pure game value that `score_posn` computes, without the memo. It also holds the two score folds and the move `best_next_move` picks.
- `ai_player.dfy` (`AIPlayer`): class `AIPlayer`.
  - Its field is the score dictionary, a `map`.
  - Its methods are loops proved against the `Minimax` functions.
  - Its invariant: every stored score is the true score of its key.
- `tests.dfy` (`TestBoards`): the checks of `run_tests`, proved by evaluating the minimax specification on the test boards. It ends with a method that runs them on a fresh `AIPlayer`.
- `game_engine.dfy` (`GameEngine`): `parse_to_integer_pair`. `findall` with `[0-9]+` becomes an explicit split into maximal digit runs.

Two details of the source that the model keeps:

- `winner_on_board` scans the columns before the rows (tic_tac_toe_utils.py:222-226).
- In `run_tests`, `test_board_6` is bound twice. The second board, `((1,0,0),(0,0,0),(0,0,-1))`, is the one the checks use. Its score is 1 with the AI to move and -1 with the human to move, as the source asserts.

## Model

| member | source | states |
|---|---|---|
| PlayerTypes.OpposingPlayer | tic_tac_toe_utils.py:125-128 | for `p != 0` the result is nonzero and `p + r == 0`; a player maps to the other player |
| PlayerTypes.OpposingPlayerInvolution | tic_tac_toe_utils.py:125-128 | applying `opposing_player` twice gives back `p` |
| PlayerTypes.PlayerToAvatar | tic_tac_toe_utils.py:129-138 | a glyph exists exactly for -1, 0 and 1 (otherwise the `ValueError`), and it is one of `X`, `_`, `O` |
| PlayerTypes.AvatarInjective | tic_tac_toe_utils.py:129-138 | distinct cell states get distinct glyphs |
| TicTacToeBoard.DefaultBoard | tic_tac_toe_utils.py:153-164 | every cell of the default board is blank |
| TicTacToeBoard.FailsBoundaries | tic_tac_toe_utils.py:172-176 | true exactly when the row or the column lies outside `0..board_len-1` |
| TicTacToeBoard.IdxRange | tic_tac_toe_utils.py:174 | `set(range(0, n))` holds exactly the integers `0 <= i < n` |
| TicTacToeBoard.Cells | tic_tac_toe_utils.py:170 | `itertools.product` lists nine on-board cells, cell `k` at row-major index `k` |
| TicTacToeBoard.CellsEnumerateBoard | tic_tac_toe_utils.py:170 | the product contains exactly the on-board cells, in strictly increasing row-major order |
| TicTacToeBoard.BlankAmong | tic_tac_toe_utils.py:170 | the comprehension's filter keeps exactly the blank cells of the list, in its order |
| TicTacToeBoard.RemainingMoves | tic_tac_toe_utils.py:166-170 | contains exactly the blank on-board cells, each once, in row-major order |
| TicTacToeBoard.RemainingMovesAre | tic_tac_toe_utils.py:166-170 | any row-major list of exactly the blank cells is the list of remaining moves |
| TicTacToeBoard.RemainingMovesOfDefaultBoard | tic_tac_toe_utils.py:162-170 | on the default board the remaining moves are all nine cells |
| TicTacToeBoard.IsOccupiedSquare | tic_tac_toe_utils.py:233-234 | a cell is occupied exactly when it is nonzero, which is exactly when it is not a remaining move |
| TicTacToeBoard.Place | tic_tac_toe_utils.py:185-187 | the new board holds `p` at `m` and every other cell unchanged |
| TicTacToeBoard.GridToArray | tic_tac_toe_utils.py:185 | the list-of-lists copy: a fresh 3x3 array holding the grid cell by cell |
| TicTacToeBoard.ArrayToGrid | tic_tac_toe_utils.py:187 | the frozen copy: a 3x3 grid holding the array cell by cell |
| TicTacToeBoard.CommitMove | tic_tac_toe_utils.py:178-188 | requires `m` to be a remaining move (the assertion); the array copy with the move written and frozen back is the placed board |
| TicTacToeBoard.CommitMoveRemaining | tic_tac_toe_utils.py:178-188 | after a move by a player, the remaining moves are the old ones without `m`, one fewer |
| TicTacToeBoard.GridPath | tic_tac_toe_utils.py:189-199 | every cell walked is on the board, and the walk from an on-board start begins at that start; `GridPathWalk` states the walk itself |
| TicTacToeBoard.GridPathUnfold | tic_tac_toe_utils.py:196-199 | a nonempty walk starts on the board; it yields its start, then continues from the next position |
| TicTacToeBoard.GridPathShift | tic_tac_toe_utils.py:196-199 | after the first cell, cell `i` of the walk is cell `i - 1` of the walk from the next position |
| TicTacToeBoard.GridPathCell | tic_tac_toe_utils.py:196-199 | cell `i` of the walk is the start moved by `i` steps |
| TicTacToeBoard.GridPathEnd | tic_tac_toe_utils.py:196-199 | the walk stops at the position `len(path)` steps from the start, which fails the boundaries |
| TicTacToeBoard.GridPathWalk | tic_tac_toe_utils.py:189-199 | every cell `i` of the walk is `pos + i * step`, and `pos + len(path) * step` fails the boundaries |
| TicTacToeBoard.WinPaths | tic_tac_toe_utils.py:222-224 | every cell of every path is on the board |
| TicTacToeBoard.WinPathsAreTheEightLines | tic_tac_toe_utils.py:189-224 | the paths are the three columns, the three rows, the main diagonal and the anti-diagonal from (2,0), in that order, each of `board_len` cells |
| TicTacToeBoard.WinnerOnPath | tic_tac_toe_utils.py:201-213 | the result is 1, -1 or 0; a nonzero result holds the whole path; on a nonempty path, 0 exactly when neither player holds it all |
| TicTacToeBoard.Winner | tic_tac_toe_utils.py:216-231 | the value `winner_on_board` computes is 1, -1 or 0 |
| TicTacToeBoard.WinnerOnBoard | tic_tac_toe_utils.py:216-231 | the loop that breaks at the first winning path returns the first nonzero path winner in scan order |
| TicTacToeBoard.FirstWinner | tic_tac_toe_utils.py:225-231 | the scan over the paths yields 1, -1 or 0 |
| TicTacToeBoard.FirstWinnerSpec | tic_tac_toe_utils.py:225-231 | the scan's result is 0 exactly when no path is held, and otherwise a player holding some path with every earlier path unwon |
| TicTacToeBoard.WinnerSpec | tic_tac_toe_utils.py:216-231 | the winner is 1 or -1 exactly when some line holds three of that value, the first such line in scan order, and 0 otherwise |
| TicTacToeBoard.CellsText | tic_tac_toe_utils.py:237 | each cell's glyph followed by a bar; defined exactly when every cell has a glyph |
| TicTacToeBoard.RowText | tic_tac_toe_utils.py:237 | a row line is a bar, then each cell's glyph followed by a bar, character by character; defined exactly when every cell has a glyph |
| TicTacToeBoard.RowTextInjective | tic_tac_toe_utils.py:237 | equal lines come from equal rows |
| TicTacToeBoard.BoardText | tic_tac_toe_utils.py:236-238 | a drawn board is 23 characters long: three lines of 7 and two newlines |
| TicTacToeBoard.BoardTextDefined | tic_tac_toe_utils.py:236-238 | `__str__` succeeds exactly when every cell holds -1, 0 or 1 |
| TicTacToeBoard.BoardTextLayout | tic_tac_toe_utils.py:236-238 | the text is the three row lines at offsets 0, 8 and 16, separated by newlines, 23 characters in all |
| TicTacToeBoard.BoardTextInjective | tic_tac_toe_utils.py:236-238 | two boards with the same text are the same board |
| Minimax.MaxFoldFrom | tic_tac_toe_utils.py:94-102 | from a score, folding scores stays a score |
| Minimax.MinFoldFrom | tic_tac_toe_utils.py:104-112 | from a score, folding scores stays a score |
| Minimax.MaxFold | tic_tac_toe_utils.py:94-102 | `find_maximal_score` returns -1 for no scores; over scores it returns a score, and 1 exactly when some score is 1 |
| Minimax.MinFold | tic_tac_toe_utils.py:104-112 | `find_minimal_score` returns 1 for no scores; over scores it returns a score, and -1 exactly when some score is -1 |
| Minimax.SeqMax | tic_tac_toe_utils.py:94-102 | the reference maximum: an element of the list and no smaller than any element |
| Minimax.SeqMin | tic_tac_toe_utils.py:104-112 | the reference minimum: an element of the list and no larger than any element |
| Minimax.MaxFoldFromIsMaximum | tic_tac_toe_utils.py:94-102 | over scores, the early-stopping fold from `acc` is `max(acc, max(s))` |
| Minimax.MinFoldFromIsMinimum | tic_tac_toe_utils.py:104-112 | over scores, the early-stopping fold from `acc` is `min(acc, min(s))` |
| Minimax.FoldsAreExtremes | tic_tac_toe_utils.py:94-112 | over scores, `find_maximal_score` is the maximum (-1 if empty) and `find_minimal_score` the minimum (1 if empty) |
| Minimax.MaxFoldStopsAtFirstOne | tic_tac_toe_utils.py:96-99 | whatever follows the first 1 is never consumed: the result is 1 |
| Minimax.MinFoldStopsAtFirstMinusOne | tic_tac_toe_utils.py:106-109 | whatever follows the first -1 is never consumed: the result is -1 |
| Minimax.Score | tic_tac_toe_utils.py:59-92 | the game value is always in {-1, 0, 1}; each recursive call is on a board with one blank fewer |
| Minimax.MoveScore | tic_tac_toe_utils.py:28-34 | the score of the committed board with the opponent to move is in {-1, 0, 1} |
| Minimax.ChildScores | tic_tac_toe_utils.py:88-90 | one score in {-1, 0, 1} per move, in move order |
| Minimax.ScoreIsBestMoveScore | tic_tac_toe_utils.py:82-92 | in a searched position the AI's score is at least every move score, the human's at most, and some move attains it |
| Minimax.ScoreOfWinningMove | tic_tac_toe_utils.py:82-112 | a move reaching the mover's best value (1 for the AI, -1 for the human) fixes the position's score at it |
| Minimax.ScoreOfMoveScores | tic_tac_toe_utils.py:82-92 | a searched position with move scores `s`, in move order, is worth the fold of `s` |
| Minimax.ScoreOfFinishedBoard | tic_tac_toe_utils.py:65-72 | a won or full board is worth its winner (0 if none) whichever player is to move |
| Minimax.TwoCellsNotBothMarked | tic_tac_toe_utils.py:73-75 | with at least eight blanks, two distinct cells are never both marked |
| Minimax.NoWinnerInTheOpening | tic_tac_toe_utils.py:73-75 | with at least eight blanks there is no winner |
| Minimax.ScoreOfOpening | tic_tac_toe_utils.py:73-75 | with at least eight blanks the score is 0 for either player |
| Minimax.ScoreOfDefaultBoard | tic_tac_toe_utils.py:73-75 | the empty board scores 0 for either player |
| Minimax.FirstWith | tic_tac_toe_utils.py:43-45 | a move found is one of the moves scanned |
| Minimax.FirstWithIsFirst | tic_tac_toe_utils.py:43-45 | the scan returns the move at the first position whose score is the target, and nothing exactly when no score is the target |
| Minimax.BestMove | tic_tac_toe_utils.py:36-45 | a move `best_next_move` returns is a remaining move |
| Minimax.BestMoveIsFirstOptimal | tic_tac_toe_utils.py:36-45 | a move found is a remaining move with the position's score, and every earlier remaining move has a different score |
| Minimax.BestMoveNoneIffNoOptimal | tic_tac_toe_utils.py:36-45 | nothing is found exactly when no remaining move has the position's score |
| Minimax.BestMoveIsTheFirstOptimal | tic_tac_toe_utils.py:36-45 | the first remaining move with the position's score is the move found |
| Minimax.BestMoveExists | tic_tac_toe_utils.py:36-45 | in a searched position a move is always found, and it keeps the position's score |
| AIPlayer.AIPlayer.Valid | tic_tac_toe_utils.py:21-26 | the dictionary invariant: every stored value is the score of its key, so in {-1, 0, 1} |
| AIPlayer.AIPlayer.constructor | tic_tac_toe_utils.py:26 | a new player starts with an empty dictionary, which satisfies the invariant |
| AIPlayer.AIPlayer.RecordScore | tic_tac_toe_utils.py:47-57 | an absent key is inserted with `score` and nothing else changes; a present key must already hold `score` and the dictionary stays the same; a true score keeps the invariant |
| AIPlayer.AIPlayer.ScoreMove | tic_tac_toe_utils.py:28-34 | returns the move score; the dictionary only grows and keeps the invariant |
| AIPlayer.AIPlayer.ScorePosn | tic_tac_toe_utils.py:59-92 | returns the position's score. A won board records its own key. A stored key, a full board and the opening leave the dictionary unchanged. Every searched position ends up recorded. The dictionary only grows, and every entry stays true |
| AIPlayer.AIPlayer.MaximalMoveScore | tic_tac_toe_utils.py:88-102 | scoring the moves lazily and stopping at the first 1 gives the maximal fold of the move scores |
| AIPlayer.AIPlayer.MinimalMoveScore | tic_tac_toe_utils.py:90-112 | scoring the moves lazily and stopping at the first -1 gives the minimal fold of the move scores |
| AIPlayer.AIPlayer.BestNextMove | tic_tac_toe_utils.py:36-45 | returns exactly the first remaining move that keeps the position's score, or nothing |
| AIPlayer.AIPlayer.FirstMoveScoring | tic_tac_toe_utils.py:43-45 | the loop with an early return finds the first move whose score is the target |
| AIPlayer.AIPlayer.FindMaximalScore | tic_tac_toe_utils.py:94-102 | returns the fold, which over scores is the maximum, or -1 for no scores |
| AIPlayer.AIPlayer.FindMinimalScore | tic_tac_toe_utils.py:104-112 | returns the fold, which over scores is the minimum, or 1 for no scores |
| TestBoards.WinnerIsEightLineWinner | tic_tac_toe_utils.py:216-231 | the winner of any board is the first of the eight lines, written out in scan order, that one player holds |
| TestBoards.TestBoard1Winner | tic_tac_toe_utils.py:267 | `test_board_1` is won by the AI |
| TestBoards.TestBoard6Winner | tic_tac_toe_utils.py:266 | `test_board_6` has no winner |
| TestBoards.TestBoard4MoveScoresAI | tic_tac_toe_utils.py:268 | on `test_board_4` with the AI to move, (1,1) scores 0 and (1,2) scores 1 |
| TestBoards.TestBoard4BestMoveAI | tic_tac_toe_utils.py:268 | the AI's best move on `test_board_4` is (1,2) |
| TestBoards.TestBoard4BestMoveHuman | tic_tac_toe_utils.py:269 | the human's best move on `test_board_4` is (1,1) |
| TestBoards.TestBoard6ScoreAI | tic_tac_toe_utils.py:270 | `test_board_6` scores 1 with the AI to move |
| TestBoards.TestBoard6ScoreHuman | tic_tac_toe_utils.py:271 | `test_board_6` scores -1 with the human to move |
| TestBoards.RunTests | tic_tac_toe_utils.py:240-271 | on a fresh player, the methods return the six values the source asserts |
| GameEngine.Digits | game_engine.py:9-10 | the digits of the input, in order, all digits |
| GameEngine.RunsFrom | game_engine.py:9-10 | the scan yields only nonempty all-digit matches |
| GameEngine.DigitRuns | game_engine.py:9-10 | `findall` yields only nonempty all-digit matches |
| GameEngine.DigitRunsKeepDigits | game_engine.py:9-10 | joined together, the matches are exactly the digits of the input |
| GameEngine.DigitRunsSeparator | game_engine.py:9-10 | a non-digit only separates: the matches on either side of it are found independently |
| GameEngine.DigitRunsOfRun | game_engine.py:9-10 | a string of digits is a single match, the whole string |
| GameEngine.DecimalValue | game_engine.py:13-17 | `int` of a match is non-negative |
| GameEngine.Decimal | game_engine.py:13 | the reference decimal rendering of a natural number is a nonempty string of digits |
| GameEngine.DecimalValueOfDecimal | game_engine.py:13 | reading back the decimal rendering of `n` gives `n` |
| GameEngine.TwoDigitValue | game_engine.py:17 | for a two-digit match, `/ 10` and `% 10` give its first and second digit |
| GameEngine.ParseToIntegerPair | game_engine.py:4-19 | a pair exactly when there are two matches, or one match of length two. Two matches give their values in order. One match gives its two digits. The numbers are never negative |
| GameEngine.ParseTwoNumbers | game_engine.py:11-13 | two numbers written out with a non-digit between them are read back |
| GameEngine.ParseTwoDigits | game_engine.py:14-17 | two digits typed together are read as a row and a column |
| GameEngine.ParseWithoutDigits | game_engine.py:18-19 | input without digits gives no pair |
| GameEngine.ParseExample12 | game_engine.py:14-17 | "12" gives (1,2) |
| GameEngine.ParseExample05 | game_engine.py:14-17 | "05" gives (0,5) |
| GameEngine.ParseExampleSpaced | game_engine.py:11-13 | "1 2" gives (1,2) |
| GameEngine.ParseExampleNegative | game_engine.py:9-13 | "-1,2" gives (1,2): the minus sign is only a separator |
| GameEngine.ParseExampleOneDigit | game_engine.py:18-19 | "3" gives nothing |
| GameEngine.ParseExampleThreeDigits | game_engine.py:18-19 | "123" gives nothing |
| GameEngine.ParseExampleThreeNumbers | game_engine.py:18-19 | "1 2 3" gives nothing |

## Left out

- `run_game` and `prompt_valid_move` (game_engine.py:21-71) are not modelled. They are console I/O: `raw_input`, `print`, the reprompt loop, and the random choice of who moves first.
- The call to `PlayerTypes.other_player` at game_engine.py:66 is not modelled. That method does not exist, and it sits in the game loop, which is left out.
- The laziness of `grid_path_generator` is not modelled: the paths are finite lists computed up front, in the same scan order.
- GridPath: modelled only for the forward steps the source uses (tic_tac_toe_utils.py:222-224). A backward step would need another `decreases`, and a zero step never ends in the source.
- `score_dict` is a class-level dictionary shared by every `AIPlayer` in the process. Here it is a field of each object.
- The cell values of a board are any integers, as in the source. Scores, moves and winners treat every nonzero value other than 1 and -1 as a mark of nobody.
- The model's `player` arguments only exclude 0, which the source asserts in `opposing_player`. It does not require 1 or -1.
- Python 2 integer `/` is floor division. It is used only on non-negative values, where it agrees with Dafny's `/`.
- Python's negative indexing is not modelled. Every cell access is either required to be on the board or guarded by `FailsBoundaries`.
- Constructing a board from an arbitrary tuple (`TicTacToeBoard(board)`) is the datatype constructor `Board(grid)`, so the grid must be 3x3.
- Whole-game-tree claims, such as "the AI never loses", are not stated. Only the test boards are evaluated.
- The unused `test_board_0`, `test_board_2`, `test_board_3` and `test_board_5`, and the first binding of `test_board_6`, are not modelled.
- The unused imports (`re`, `random`) in tic_tac_toe_utils.py are not modelled.
