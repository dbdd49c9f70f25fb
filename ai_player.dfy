/**
 * The memoised minimax player (class `AIPlayer`). Its one piece of state
 * is the score dictionary, keyed by a grid and the player to move; the
 * object invariant is that every entry holds the true score of its key,
 * which is what keeps the dictionary's consistency assertion from firing.
 */
module AIPlayer {
  import opened Wrappers
  import opened PlayerTypes
  import opened TicTacToeBoard
  import opened Minimax

  /** A key of the score dictionary: `(board.board, player)`. */
  type Key = (Grid, int)

  /** `newer` keeps every entry of `older`, with the same value. */
  ghost predicate Extends(older: map<Key, int>, newer: map<Key, int>) {
    forall k :: k in older ==> k in newer && newer[k] == older[k]
  }

  class AIPlayer {
    /** `score_dict`: the scores of positions seen so far. */
    var scoreDict: map<Key, int>

    /** Every stored score is the score of its position. */
    ghost predicate Valid()
      reads this
      ensures Valid() ==> forall k :: k in scoreDict ==> IsScore(scoreDict[k])
    {
      forall k {:trigger scoreDict[k]} :: k in scoreDict ==> k.1 != BLANK && scoreDict[k] == Score(Board(k.0), k.1)
    }

    constructor ()
      ensures Valid() && scoreDict == map[]
    {
      scoreDict := map[];
    }

    /**
     * `record_score`: insert the score of a new key, or check that a stored
     * one agrees; a stored entry is never overwritten. The source asserts
     * the agreement, so it is required here.
     */
    method RecordScore(b: Board, player: int, score: int)
      requires (b.grid, player) in scoreDict ==> scoreDict[(b.grid, player)] == score
      modifies this
      ensures (b.grid, player) in old(scoreDict) ==> scoreDict == old(scoreDict)
      ensures (b.grid, player) !in old(scoreDict) ==> scoreDict == old(scoreDict)[(b.grid, player) := score]
      ensures old(Valid()) && player != BLANK && score == Score(b, player) ==> Valid()
    {
      var boardTuple := b.grid;
      if (boardTuple, player) in scoreDict {
        assert scoreDict[(boardTuple, player)] == score;
      } else {
        scoreDict := scoreDict[(boardTuple, player) := score];
      }
    }

    /** `score_move`: commit `move` for `player`, then score the result with the opponent to move. */
    method ScoreMove(b: Board, move: Coord, player: int) returns (score: int)
      requires Valid() && player != BLANK && move in RemainingMoves(b)
      modifies this
      ensures Valid() && Extends(old(scoreDict), scoreDict)
      ensures score == MoveScore(b, move, player)
      decreases |RemainingMoves(b)|, 0
    {
      var resultBoard := CommitMove(b, move, player);
      CommitMoveRemaining(b, move, player);
      score := ScorePosn(resultBoard, OpposingPlayer(player));
    }

    /**
     * `score_posn`: the game value of `b` with `player` to move. A won
     * board is recorded; a full board and the opening are not; a stored
     * score is reused; otherwise the moves are scored one by one, folding
     * as `find_maximal_score` (the AI) or `find_minimal_score` (the human)
     * do, and stopping as soon as the best possible score turns up, so
     * the later moves are never scored.
     */
    method ScorePosn(b: Board, player: int) returns (score: int)
      requires Valid() && player != BLANK
      modifies this
      ensures Valid() && Extends(old(scoreDict), scoreDict)
      ensures score == Score(b, player)
      ensures Winner(b) != BLANK ==> scoreDict == old(scoreDict)[(b.grid, player) := score]
      ensures Winner(b) == BLANK && (|RemainingMoves(b)| == 0 || |RemainingMoves(b)| >= N * N - 1) ==> scoreDict == old(scoreDict)
      ensures (b.grid, player) in old(scoreDict) ==> scoreDict == old(scoreDict)
      ensures Searched(b) ==> (b.grid, player) in scoreDict
      decreases |RemainingMoves(b)|, 2
    {
      var curWinner := WinnerOnBoard(b);
      if curWinner != 0 {
        RecordScore(b, player, curWinner);
        return curWinner;
      }
      var moves := RemainingMoves(b);
      if |moves| == 0 {
        return 0;
      } else if |moves| >= N * N - 1 {
        return 0;
      } else if (b.grid, player) in scoreDict {
        assert Board(b.grid) == b;
        return scoreDict[(b.grid, player)];
      }
      assert Searched(b);
      if player == AI {
        score := MaximalMoveScore(b, player, moves);
      } else {
        score := MinimalMoveScore(b, player, moves);
      }
      RecordScore(b, player, score);
    }

    /**
     * `find_maximal_score` applied to the generator `(score_move(b, m,
     * player) for m in moves)`: the moves are scored one at a time, and
     * none after the first that scores 1.
     */
    method MaximalMoveScore(b: Board, player: int, moves: seq<Coord>) returns (score: int)
      requires Valid() && player != BLANK
      requires forall i :: 0 <= i < |moves| ==> moves[i] in RemainingMoves(b)
      modifies this
      ensures Valid() && Extends(old(scoreDict), scoreDict)
      ensures score == MaxFold(ChildScores(b, player, moves))
      decreases |RemainingMoves(b)|, 1
    {
      ghost var scores := ChildScores(b, player, moves);
      score := -1;
      var i := 0;
      while i < |moves|
        invariant 0 <= i <= |moves|
        invariant Valid() && Extends(old(scoreDict), scoreDict)
        invariant MaxFoldFrom(score, scores[i..]) == MaxFold(scores)
      {
        var s := ScoreMove(b, moves[i], player);
        if s == 1 {
          score := 1;
          break;
        }
        assert scores[i..][1..] == scores[i + 1..];
        score := Max(score, s);
        i := i + 1;
      }
    }

    /**
     * `find_minimal_score` applied to the generator `(score_move(b, m,
     * player) for m in moves)`: the moves are scored one at a time, and
     * none after the first that scores -1.
     */
    method MinimalMoveScore(b: Board, player: int, moves: seq<Coord>) returns (score: int)
      requires Valid() && player != BLANK
      requires forall i :: 0 <= i < |moves| ==> moves[i] in RemainingMoves(b)
      modifies this
      ensures Valid() && Extends(old(scoreDict), scoreDict)
      ensures score == MinFold(ChildScores(b, player, moves))
      decreases |RemainingMoves(b)|, 1
    {
      ghost var scores := ChildScores(b, player, moves);
      score := 1;
      var i := 0;
      while i < |moves|
        invariant 0 <= i <= |moves|
        invariant Valid() && Extends(old(scoreDict), scoreDict)
        invariant MinFoldFrom(score, scores[i..]) == MinFold(scores)
      {
        var s := ScoreMove(b, moves[i], player);
        if s == -1 {
          score := -1;
          break;
        }
        assert scores[i..][1..] == scores[i + 1..];
        score := Min(score, s);
        i := i + 1;
      }
    }

    /**
     * `best_next_move`: score the position (which records it), then
     * return the first remaining move whose move score equals the
     * position's score, or `None` when the loop falls through.
     */
    method BestNextMove(b: Board, player: int) returns (move: Option<Coord>)
      requires Valid() && player != BLANK
      modifies this
      ensures Valid() && Extends(old(scoreDict), scoreDict)
      ensures move == BestMove(b, player)
    {
      var curPosnScore := ScorePosn(b, player);
      move := FirstMoveScoring(b, player, RemainingMoves(b), curPosnScore);
    }

    /**
     * The loop of `best_next_move`: score `moves` one at a time and stop
     * at the first whose score is `target`.
     */
    method FirstMoveScoring(b: Board, player: int, moves: seq<Coord>, target: int) returns (move: Option<Coord>)
      requires Valid() && player != BLANK
      requires forall i :: 0 <= i < |moves| ==> moves[i] in RemainingMoves(b)
      modifies this
      ensures Valid() && Extends(old(scoreDict), scoreDict)
      ensures move == FirstWith(ChildScores(b, player, moves), moves, target)
    {
      ghost var scores := ChildScores(b, player, moves);
      var i := 0;
      while i < |moves|
        invariant 0 <= i <= |moves|
        invariant Valid() && Extends(old(scoreDict), scoreDict)
        invariant FirstWith(scores[i..], moves[i..], target) == FirstWith(scores, moves, target)
      {
        var s := ScoreMove(b, moves[i], player);
        if s == target {
          return Some(moves[i]);
        }
        assert scores[i..][1..] == scores[i + 1..] && moves[i..][1..] == moves[i + 1..];
        i := i + 1;
      }
      return None;
    }

    /**
     * `find_maximal_score` on a list of scores: start at -1, keep the
     * larger, stop at the first 1.
     */
    method FindMaximalScore(scores: seq<int>) returns (rtnval: int)
      ensures rtnval == MaxFold(scores)
      ensures AllScores(scores) ==> rtnval == if scores == [] then -1 else SeqMax(scores)
    {
      rtnval := -1;
      var i := 0;
      while i < |scores|
        invariant 0 <= i <= |scores|
        invariant MaxFoldFrom(rtnval, scores[i..]) == MaxFold(scores)
      {
        if scores[i] == 1 {
          rtnval := 1;
          break;
        }
        assert scores[i..][1..] == scores[i + 1..];
        rtnval := Max(rtnval, scores[i]);
        i := i + 1;
      }
      if AllScores(scores) {
        FoldsAreExtremes(scores);
      }
    }

    /**
     * `find_minimal_score` on a list of scores: start at 1, keep the
     * smaller, stop at the first -1.
     */
    method FindMinimalScore(scores: seq<int>) returns (rtnval: int)
      ensures rtnval == MinFold(scores)
      ensures AllScores(scores) ==> rtnval == if scores == [] then 1 else SeqMin(scores)
    {
      rtnval := 1;
      var i := 0;
      while i < |scores|
        invariant 0 <= i <= |scores|
        invariant MinFoldFrom(rtnval, scores[i..]) == MinFold(scores)
      {
        if scores[i] == -1 {
          rtnval := -1;
          break;
        }
        assert scores[i..][1..] == scores[i + 1..];
        rtnval := Min(rtnval, scores[i]);
        i := i + 1;
      }
      if AllScores(scores) {
        FoldsAreExtremes(scores);
      }
    }
  }
}
