/**
 * The game value that `AIPlayer.score_posn` computes, as a pure function
 * of the position and the player to move, without the memo table. The
 * class `AIPlayer.AIPlayer` is proved to compute exactly this value.
 */
module Minimax {
  import opened Wrappers
  import opened PlayerTypes
  import opened TicTacToeBoard

  /** A score: 1 the AI wins, 0 a draw, -1 the human wins. */
  predicate IsScore(v: int) {
    -1 <= v <= 1
  }

  predicate AllScores(s: seq<int>) {
    forall i :: 0 <= i < |s| ==> IsScore(s[i])
  }

  function Max(a: int, b: int): int {
    if a < b then b else a
  }

  function Min(a: int, b: int): int {
    if a < b then a else b
  }

  // ---------------------------------------------------------------------
  // The two folds of `find_maximal_score` and `find_minimal_score`
  // ---------------------------------------------------------------------

  /** The loop of `find_maximal_score` from the running value `acc`: stop at the first 1. */
  function MaxFoldFrom(acc: int, s: seq<int>): (r: int)
    ensures IsScore(acc) && AllScores(s) ==> IsScore(r)
    decreases |s|
  {
    if s == [] then acc
    else if s[0] == 1 then 1
    else MaxFoldFrom(Max(acc, s[0]), s[1..])
  }

  /** The loop of `find_minimal_score` from the running value `acc`: stop at the first -1. */
  function MinFoldFrom(acc: int, s: seq<int>): (r: int)
    ensures IsScore(acc) && AllScores(s) ==> IsScore(r)
    decreases |s|
  {
    if s == [] then acc
    else if s[0] == -1 then -1
    else MinFoldFrom(Min(acc, s[0]), s[1..])
  }

  /**
   * `find_maximal_score`, starting from -1: over scores it reaches 1
   * exactly when some score is 1, and gives -1 for no scores.
   */
  function MaxFold(s: seq<int>): (r: int)
    ensures s == [] ==> r == -1
    ensures AllScores(s) ==> IsScore(r) && (r == 1 <==> 1 in s)
  {
    assert AllScores(s) && s != [] ==> MaxFoldFrom(-1, s) == Max(-1, SeqMax(s)) by {
      if AllScores(s) { MaxFoldFromIsMaximum(-1, s); }
    }
    MaxFoldFrom(-1, s)
  }

  /**
   * `find_minimal_score`, starting from 1: over scores it reaches -1
   * exactly when some score is -1, and gives 1 for no scores.
   */
  function MinFold(s: seq<int>): (r: int)
    ensures s == [] ==> r == 1
    ensures AllScores(s) ==> IsScore(r) && (r == -1 <==> -1 in s)
  {
    assert AllScores(s) && s != [] ==> MinFoldFrom(1, s) == Min(1, SeqMin(s)) by {
      if AllScores(s) { MinFoldFromIsMinimum(1, s); }
    }
    MinFoldFrom(1, s)
  }

  /** The largest element: an independent reference for the fold. */
  function SeqMax(s: seq<int>): (r: int)
    requires s != []
    ensures r in s && forall i :: 0 <= i < |s| ==> s[i] <= r
  {
    if |s| == 1 then s[0] else Max(s[0], SeqMax(s[1..]))
  }

  /** The smallest element. */
  function SeqMin(s: seq<int>): (r: int)
    requires s != []
    ensures r in s && forall i :: 0 <= i < |s| ==> r <= s[i]
  {
    if |s| == 1 then s[0] else Min(s[0], SeqMin(s[1..]))
  }

  lemma {:induction false} MaxFoldFromIsMaximum(acc: int, s: seq<int>)
    requires IsScore(acc) && AllScores(s)
    ensures MaxFoldFrom(acc, s) == if s == [] then acc else Max(acc, SeqMax(s))
    decreases |s|
  {
    if s != [] && s[0] != 1 {
      MaxFoldFromIsMaximum(Max(acc, s[0]), s[1..]);
    }
  }

  lemma {:induction false} MinFoldFromIsMinimum(acc: int, s: seq<int>)
    requires IsScore(acc) && AllScores(s)
    ensures MinFoldFrom(acc, s) == if s == [] then acc else Min(acc, SeqMin(s))
    decreases |s|
  {
    if s != [] && s[0] != -1 {
      MinFoldFromIsMinimum(Min(acc, s[0]), s[1..]);
    }
  }

  /**
   * Over scores, `find_maximal_score` is the maximum, or -1 for no
   * scores; `find_minimal_score` is the minimum, or 1 for no scores.
   */
  lemma FoldsAreExtremes(s: seq<int>)
    requires AllScores(s)
    ensures MaxFold(s) == if s == [] then -1 else SeqMax(s)
    ensures MinFold(s) == if s == [] then 1 else SeqMin(s)
  {
    MaxFoldFromIsMaximum(-1, s);
    MinFoldFromIsMinimum(1, s);
  }

  /**
   * The maximal fold stops consuming at the first 1: whatever follows it,
   * however ill-formed, does not change the result.
   */
  lemma {:induction false} MaxFoldStopsAtFirstOne(acc: int, s: seq<int>, rest: seq<int>)
    requires 1 in s
    ensures MaxFoldFrom(acc, s + rest) == 1
    decreases |s|
  {
    if s[0] != 1 {
      assert (s + rest)[1..] == s[1..] + rest;
      MaxFoldStopsAtFirstOne(Max(acc, s[0]), s[1..], rest);
    }
  }

  /** The minimal fold stops consuming at the first -1. */
  lemma {:induction false} MinFoldStopsAtFirstMinusOne(acc: int, s: seq<int>, rest: seq<int>)
    requires -1 in s
    ensures MinFoldFrom(acc, s + rest) == -1
    decreases |s|
  {
    if s[0] != -1 {
      assert (s + rest)[1..] == s[1..] + rest;
      MinFoldStopsAtFirstMinusOne(Min(acc, s[0]), s[1..], rest);
    }
  }

  // ---------------------------------------------------------------------
  // The value of a position
  // ---------------------------------------------------------------------

  /**
   * `score_posn` without its memo table: the winner of a won board, 0 on
   * a full board, 0 when at most one move has been played (the source's
   * hard-wired opening shortcut), otherwise the best child score for the
   * player to move. Every recursive call has one blank fewer.
   */
  function Score(b: Board, p: int): (r: int)
    requires p != BLANK
    ensures IsScore(r)
    decreases |RemainingMoves(b)|, 2
  {
    var moves := RemainingMoves(b);
    if Winner(b) != BLANK then Winner(b)
    else if |moves| == 0 then 0
    else if |moves| >= N * N - 1 then 0
    else if p == AI then MaxFold(ChildScores(b, p, moves))
    else MinFold(ChildScores(b, p, moves))
  }

  /** `score_move`: the score of the position after `p` plays `m`, with the opponent to move. */
  function MoveScore(b: Board, m: Coord, p: int): (r: int)
    requires p != BLANK && m in RemainingMoves(b)
    ensures IsScore(r)
    decreases |RemainingMoves(b)|, 0
  {
    CommitMoveRemaining(b, m, p);
    Score(Place(b, m, p), OpposingPlayer(p))
  }

  /** The scores of the moves `moves`, in order: the generator that `score_posn` folds. */
  function ChildScores(b: Board, p: int, moves: seq<Coord>): (s: seq<int>)
    requires p != BLANK
    requires forall i :: 0 <= i < |moves| ==> moves[i] in RemainingMoves(b)
    ensures |s| == |moves| && AllScores(s)
    decreases |RemainingMoves(b)|, 1
  {
    seq(|moves|, i requires 0 <= i < |moves| => MoveScore(b, moves[i], p))
  }

  /** The position is still open and past the shortcut, so `score_posn` searches it. */
  predicate Searched(b: Board) {
    Winner(b) == BLANK && 1 <= |RemainingMoves(b)| < N * N - 1
  }

  /**
   * A searched position is worth the best of its moves for the player to
   * move: the AI gets the largest move score, the human the smallest, and
   * some move attains it.
   */
  lemma ScoreIsBestMoveScore(b: Board, p: int)
    requires p != BLANK && Searched(b)
    ensures p == AI ==> forall m :: m in RemainingMoves(b) ==> MoveScore(b, m, p) <= Score(b, p)
    ensures p != AI ==> forall m :: m in RemainingMoves(b) ==> Score(b, p) <= MoveScore(b, m, p)
    ensures exists m :: m in RemainingMoves(b) && MoveScore(b, m, p) == Score(b, p)
  {
    var moves := RemainingMoves(b);
    var s := ChildScores(b, p, moves);
    assert Score(b, p) == if p == AI then MaxFold(s) else MinFold(s);
    FoldsAreExtremes(s);
    var best := if p == AI then SeqMax(s) else SeqMin(s);
    assert Score(b, p) == best;
    forall m | m in moves
      ensures p == AI ==> MoveScore(b, m, p) <= best
      ensures p != AI ==> best <= MoveScore(b, m, p)
    {
      var i :| 0 <= i < |moves| && moves[i] == m;
      assert s[i] == MoveScore(b, m, p);
    }
    var k :| 0 <= k < |s| && s[k] == best;
    assert s[k] == MoveScore(b, moves[k], p);
  }

  /**
   * A move that reaches the best value the player to move can hope for
   * (1 for the AI, -1 for the human) fixes the position's score at that
   * value, whatever the other moves score.
   */
  lemma ScoreOfWinningMove(b: Board, p: int, m: Coord)
    requires p != BLANK && Searched(b) && m in RemainingMoves(b)
    requires MoveScore(b, m, p) == if p == AI then 1 else -1
    ensures Score(b, p) == MoveScore(b, m, p)
  {
    ScoreIsBestMoveScore(b, p);
  }

  /** A searched position whose move scores are `s`, in move order, is worth their fold. */
  lemma ScoreOfMoveScores(b: Board, p: int, s: seq<int>)
    requires p != BLANK && Searched(b)
    requires |s| == |RemainingMoves(b)|
    requires forall i :: 0 <= i < |s| ==> MoveScore(b, RemainingMoves(b)[i], p) == s[i]
    ensures Score(b, p) == if p == AI then MaxFold(s) else MinFold(s)
  {
    assert ChildScores(b, p, RemainingMoves(b)) == s;
  }

  /**
   * A won or full board is worth its winner (0 for a draw), whoever is
   * said to be on move.
   */
  lemma ScoreOfFinishedBoard(b: Board, p: int, q: int)
    requires p != BLANK && q != BLANK
    requires Winner(b) != BLANK || RemainingMoves(b) == []
    ensures Score(b, p) == Score(b, q) == Winner(b)
  {
  }

  lemma {:induction false} BlankAmongMissesOne(b: Board, cs: seq<Coord>, c: Coord)
    requires forall i :: 0 <= i < |cs| ==> InBounds(cs[i])
    requires c in cs && InBounds(c) && b.At(c) != BLANK
    ensures |BlankAmong(b, cs)| <= |cs| - 1
  {
    if cs[0] != c {
      BlankAmongMissesOne(b, cs[1..], c);
    }
  }

  lemma {:induction false} BlankAmongMissesTwo(b: Board, cs: seq<Coord>, c: Coord, d: Coord)
    requires forall i :: 0 <= i < |cs| ==> InBounds(cs[i])
    requires c != d && c in cs && d in cs && InBounds(c) && InBounds(d)
    requires b.At(c) != BLANK && b.At(d) != BLANK
    ensures |BlankAmong(b, cs)| <= |cs| - 2
  {
    if cs[0] == c {
      BlankAmongMissesOne(b, cs[1..], d);
    } else if cs[0] == d {
      BlankAmongMissesOne(b, cs[1..], c);
    } else {
      BlankAmongMissesTwo(b, cs[1..], c, d);
    }
  }

  /** Every line starts with two distinct cells. */
  lemma WinPathsStartWithTwoCells()
    ensures forall k :: 0 <= k < |WinPaths()| ==> |WinPaths()[k]| == N && WinPaths()[k][0] != WinPaths()[k][1]
  {
    WinPathsAreTheEightLines();
  }

  /** With at most one mark on the board, two distinct cells are never both marked. */
  lemma TwoCellsNotBothMarked(b: Board, c: Coord, d: Coord)
    requires |RemainingMoves(b)| >= N * N - 1
    requires InBounds(c) && InBounds(d) && c != d
    ensures b.At(c) == BLANK || b.At(d) == BLANK
  {
    if b.At(c) != BLANK && b.At(d) != BLANK {
      CellsEnumerateBoard();
      BlankAmongMissesTwo(b, Cells(), c, d);
      assert false;
    }
  }

  /** A board with at most one mark has no winner: a line needs three. */
  lemma NoWinnerInTheOpening(b: Board)
    requires |RemainingMoves(b)| >= N * N - 1
    ensures Winner(b) == BLANK
  {
    WinnerSpec(b);
    WinPathsStartWithTwoCells();
    var paths := WinPaths();
    forall k | 0 <= k < |paths|
      ensures !Holds(b, paths[k], AI) && !Holds(b, paths[k], HUMAN)
    {
      TwoCellsNotBothMarked(b, paths[k][0], paths[k][1]);
    }
  }

  /**
   * The opening shortcut: with at most one move played the score is 0
   * for either player, without any search.
   */
  lemma ScoreOfOpening(b: Board, p: int)
    requires p != BLANK && |RemainingMoves(b)| >= N * N - 1
    ensures Score(b, p) == 0
  {
    NoWinnerInTheOpening(b);
  }

  /** The empty board is a draw for either player to move. */
  lemma ScoreOfDefaultBoard(p: int)
    requires p != BLANK
    ensures Score(DefaultBoard(), p) == 0
  {
    RemainingMovesOfDefaultBoard();
    ScoreOfOpening(DefaultBoard(), p);
  }

  // ---------------------------------------------------------------------
  // The move `best_next_move` picks
  // ---------------------------------------------------------------------

  /**
   * The first of `moves` whose score in `scores` is `target`, scanning
   * the two in step, or `None` when no score is `target`.
   */
  function FirstWith(scores: seq<int>, moves: seq<Coord>, target: int): (r: Option<Coord>)
    requires |scores| == |moves|
    ensures r.Some? ==> r.value in moves
    decreases |moves|
  {
    if moves == [] then None
    else if scores[0] == target then Some(moves[0])
    else FirstWith(scores[1..], moves[1..], target)
  }

  /**
   * `FirstWith` finds the move at the first position whose score is the
   * target, and finds nothing exactly when no score is the target.
   */
  lemma {:induction false} FirstWithIsFirst(scores: seq<int>, moves: seq<Coord>, target: int)
    requires |scores| == |moves|
    decreases |moves|
    ensures FirstWith(scores, moves, target).Some? ==>
      exists k ::
        && 0 <= k < |moves|
        && moves[k] == FirstWith(scores, moves, target).value
        && scores[k] == target
        && forall j :: 0 <= j < k ==> scores[j] != target
    ensures FirstWith(scores, moves, target).None? <==> forall j :: 0 <= j < |scores| ==> scores[j] != target
  {
    if moves != [] && scores[0] != target {
      FirstWithIsFirst(scores[1..], moves[1..], target);
      var r := FirstWith(scores, moves, target);
      if r.Some? {
        var k :| 0 <= k < |moves| - 1 && moves[1..][k] == r.value && scores[1..][k] == target
          && forall j :: 0 <= j < k ==> scores[1..][j] != target;
        assert moves[k + 1] == r.value && scores[k + 1] == target;
        assert forall j :: 0 <= j < k + 1 ==> scores[j] != target by {
          forall j | 0 <= j < k + 1 ensures scores[j] != target {
            if j > 0 {
              assert scores[j] == scores[1..][j - 1];
            }
          }
        }
      } else {
        forall j | 0 <= j < |scores| ensures scores[j] != target {
          if j > 0 {
            assert scores[j] == scores[1..][j - 1];
          }
        }
      }
    }
  }

  /** `best_next_move`: the first remaining move, in row-major order, whose move score is the position's score. */
  function BestMove(b: Board, p: int): (r: Option<Coord>)
    requires p != BLANK
    ensures r.Some? ==> r.value in RemainingMoves(b)
  {
    FirstWith(ChildScores(b, p, RemainingMoves(b)), RemainingMoves(b), Score(b, p))
  }

  /**
   * The move found is a remaining move that keeps the position's score,
   * and every remaining move before it in row-major order changes it.
   */
  lemma BestMoveIsFirstOptimal(b: Board, p: int)
    requires p != BLANK
    ensures BestMove(b, p).Some? ==>
      exists k ::
        && 0 <= k < |RemainingMoves(b)|
        && RemainingMoves(b)[k] == BestMove(b, p).value
        && MoveScore(b, RemainingMoves(b)[k], p) == Score(b, p)
        && forall j :: 0 <= j < k ==> MoveScore(b, RemainingMoves(b)[j], p) != Score(b, p)
  {
    var moves := RemainingMoves(b);
    var s := ChildScores(b, p, moves);
    var t := Score(b, p);
    FirstWithIsFirst(s, moves, t);
    if BestMove(b, p).Some? {
      var k :| 0 <= k < |moves| && moves[k] == BestMove(b, p).value && s[k] == t
        && forall j :: 0 <= j < k ==> s[j] != t;
      assert s[k] == MoveScore(b, moves[k], p);
      forall j | 0 <= j < k ensures MoveScore(b, moves[j], p) != t {
        assert s[j] == MoveScore(b, moves[j], p);
      }
    }
  }

  /** No move is found exactly when every remaining move changes the position's score. */
  lemma BestMoveNoneIffNoOptimal(b: Board, p: int)
    requires p != BLANK
    ensures BestMove(b, p).None? <==> forall m :: m in RemainingMoves(b) ==> MoveScore(b, m, p) != Score(b, p)
  {
    var moves := RemainingMoves(b);
    var s := ChildScores(b, p, moves);
    var t := Score(b, p);
    FirstWithIsFirst(s, moves, t);
    if BestMove(b, p).None? {
      forall m | m in moves ensures MoveScore(b, m, p) != t {
        var i :| 0 <= i < |moves| && moves[i] == m;
        assert s[i] == MoveScore(b, m, p);
      }
    } else {
      var j :| 0 <= j < |s| && s[j] == t;
      assert s[j] == MoveScore(b, moves[j], p);
    }
  }

  /**
   * The converse of `BestMoveIsFirstOptimal`: the first remaining move
   * that keeps the position's score is the move found.
   */
  lemma BestMoveIsTheFirstOptimal(b: Board, p: int, i: int)
    requires p != BLANK && 0 <= i < |RemainingMoves(b)|
    requires MoveScore(b, RemainingMoves(b)[i], p) == Score(b, p)
    requires forall j :: 0 <= j < i ==> MoveScore(b, RemainingMoves(b)[j], p) != Score(b, p)
    ensures BestMove(b, p) == Some(RemainingMoves(b)[i])
  {
    BestMoveNoneIffNoOptimal(b, p);
    BestMoveIsFirstOptimal(b, p);
    var moves := RemainingMoves(b);
    var k :| 0 <= k < |moves| && moves[k] == BestMove(b, p).value && MoveScore(b, moves[k], p) == Score(b, p)
      && forall j :: 0 <= j < k ==> MoveScore(b, moves[j], p) != Score(b, p);
    assert k == i;
  }

  /** In a searched position `best_next_move` always finds a move. */
  lemma BestMoveExists(b: Board, p: int)
    requires p != BLANK && Searched(b)
    ensures BestMove(b, p).Some?
    ensures BestMove(b, p).value in RemainingMoves(b)
    ensures MoveScore(b, BestMove(b, p).value, p) == Score(b, p)
  {
    ScoreIsBestMoveScore(b, p);
    BestMoveIsFirstOptimal(b, p);
    BestMoveNoneIffNoOptimal(b, p);
  }
}
