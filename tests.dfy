/**
 * `run_tests`: the checks made on the test boards, proved by evaluating
 * the minimax specification on them. The helper lemmas below walk the part
 * of the game tree each check needs, one position per lemma; a lemma's name
 * spells its grid row by row (`X` the human, `O` the AI, `e` a blank) and,
 * for a score, the player to move.
 */
module TestBoards {
  import opened Wrappers
  import opened PlayerTypes
  import opened TicTacToeBoard
  import opened Minimax
  import opened AIPlayer

  /** The winner of one line of three cells, written out. */
  function LineWinner(b: Board, c0: Coord, c1: Coord, c2: Coord): (w: int)
    requires InBounds(c0) && InBounds(c1) && InBounds(c2)
  {
    if b.At(c0) == AI && b.At(c1) == AI && b.At(c2) == AI then AI
    else if b.At(c0) == HUMAN && b.At(c1) == HUMAN && b.At(c2) == HUMAN then HUMAN
    else BLANK
  }

  lemma WinnerOnLine(b: Board, line: seq<Coord>)
    requires |line| == 3 && InBounds(line[0]) && InBounds(line[1]) && InBounds(line[2])
    ensures WinnerOnPath(b, line) == LineWinner(b, line[0], line[1], line[2])
  {
  }

  /** The winner read off the eight lines written out, in scan order. */
  function EightLineWinner(b: Board): int {
    var v0 := LineWinner(b, (0, 0), (1, 0), (2, 0));
    var v1 := LineWinner(b, (0, 1), (1, 1), (2, 1));
    var v2 := LineWinner(b, (0, 2), (1, 2), (2, 2));
    var v3 := LineWinner(b, (0, 0), (0, 1), (0, 2));
    var v4 := LineWinner(b, (1, 0), (1, 1), (1, 2));
    var v5 := LineWinner(b, (2, 0), (2, 1), (2, 2));
    var v6 := LineWinner(b, (0, 0), (1, 1), (2, 2));
    var v7 := LineWinner(b, (2, 0), (1, 1), (0, 2));
    if v0 != BLANK then v0 else if v1 != BLANK then v1 else if v2 != BLANK then v2
    else if v3 != BLANK then v3 else if v4 != BLANK then v4 else if v5 != BLANK then v5
    else if v6 != BLANK then v6 else v7
  }

  lemma OnBoardDrop(ps: seq<seq<Coord>>, k: nat)
    requires OnBoard(ps) && k <= |ps|
    ensures OnBoard(ps[k..])
  {
    forall j, i | 0 <= j < |ps[k..]| && 0 <= i < |ps[k..][j]| ensures InBounds(ps[k..][j][i]) {
      assert ps[k..][j] == ps[k + j];
    }
  }

  /** One step of the scan over the lines, with the line's winner written out. */
  lemma FirstWinnerStep(b: Board, ps: seq<seq<Coord>>, k: nat)
    requires OnBoard(ps) && k < |ps| && |ps[k]| == 3
    ensures OnBoard(ps[k + 1..])
    ensures FirstWinner(b, ps[k..]) ==
      var w := LineWinner(b, ps[k][0], ps[k][1], ps[k][2]);
      if w != BLANK then w else FirstWinner(b, ps[k + 1..])
  {
    OnBoardDrop(ps, k);
    OnBoardDrop(ps, k + 1);
    assert ps[k..][1..] == ps[k + 1..];
    WinnerOnLine(b, ps[k]);
  }

  lemma FirstWinnerOfLastFour(b: Board)
    ensures OnBoard(WinPaths()[4..])
    ensures FirstWinner(b, WinPaths()[4..]) ==
      var v4 := LineWinner(b, (1, 0), (1, 1), (1, 2));
      var v5 := LineWinner(b, (2, 0), (2, 1), (2, 2));
      var v6 := LineWinner(b, (0, 0), (1, 1), (2, 2));
      var v7 := LineWinner(b, (2, 0), (1, 1), (0, 2));
      if v4 != BLANK then v4 else if v5 != BLANK then v5 else if v6 != BLANK then v6 else v7
  {
    WinPathsAreTheEightLines();
    var ps := WinPaths();
    FirstWinnerStep(b, ps, 4);
    FirstWinnerStep(b, ps, 5);
    FirstWinnerStep(b, ps, 6);
    FirstWinnerStep(b, ps, 7);
    assert ps[8..] == [];
  }

  lemma FirstWinnerOfLastSix(b: Board)
    ensures OnBoard(WinPaths()[2..])
    ensures FirstWinner(b, WinPaths()[2..]) ==
      var v2 := LineWinner(b, (0, 2), (1, 2), (2, 2));
      var v3 := LineWinner(b, (0, 0), (0, 1), (0, 2));
      var v4 := LineWinner(b, (1, 0), (1, 1), (1, 2));
      var v5 := LineWinner(b, (2, 0), (2, 1), (2, 2));
      var v6 := LineWinner(b, (0, 0), (1, 1), (2, 2));
      var v7 := LineWinner(b, (2, 0), (1, 1), (0, 2));
      if v2 != BLANK then v2 else if v3 != BLANK then v3
      else if v4 != BLANK then v4 else if v5 != BLANK then v5 else if v6 != BLANK then v6 else v7
  {
    WinPathsAreTheEightLines();
    var ps := WinPaths();
    FirstWinnerStep(b, ps, 2);
    FirstWinnerStep(b, ps, 3);
    FirstWinnerOfLastFour(b);
  }

  /** The winner of any board is the first of the eight lines, in scan order, that one player holds. */
  lemma WinnerIsEightLineWinner(b: Board)
    ensures Winner(b) == EightLineWinner(b)
  {
    WinPathsAreTheEightLines();
    var ps := WinPaths();
    assert ps[0..] == ps;
    FirstWinnerStep(b, ps, 0);
    FirstWinnerStep(b, ps, 1);
    FirstWinnerOfLastSix(b);
  }

  /** The board after a move, given cell by cell. */
  lemma PlaceYields(b: Board, m: Coord, p: int, g: seq<seq<int>>)
    requires InBounds(m) && IsGrid(g)
    requires forall i, j :: 0 <= i < N && 0 <= j < N ==> g[i][j] == if (i, j) == m then p else b.grid[i][j]
    ensures Place(b, m, p).grid == g
  {
    var r := Place(b, m, p).grid;
    forall i | 0 <= i < N ensures r[i] == g[i] {
      assert forall j :: 0 <= j < N ==> r[i][j] == g[i][j];
    }
  }

  lemma Moves_XXO_Oee_XOe(b: Board)
    requires b.grid == [[-1, -1, 1], [1, 0, 0], [-1, 1, 0]]
    ensures RemainingMoves(b) == [(1, 1), (1, 2), (2, 2)]
  {
    RemainingMovesAre(b, [(1, 1), (1, 2), (2, 2)]);
  }

  lemma Moves_XXO_OeO_XOe(b: Board)
    requires b.grid == [[-1, -1, 1], [1, 0, 1], [-1, 1, 0]]
    ensures RemainingMoves(b) == [(1, 1), (2, 2)]
  {
    RemainingMovesAre(b, [(1, 1), (2, 2)]);
  }

  lemma Moves_XXO_OXO_XOe(b: Board)
    requires b.grid == [[-1, -1, 1], [1, -1, 1], [-1, 1, 0]]
    ensures RemainingMoves(b) == [(2, 2)]
  {
    RemainingMovesAre(b, [(2, 2)]);
  }

  lemma Winner_XXO_OXO_XOO(b: Board)
    requires b.grid == [[-1, -1, 1], [1, -1, 1], [-1, 1, 1]]
    ensures Winner(b) == AI
  {
    WinnerIsEightLineWinner(b);
  }

  lemma Score_XXO_OXO_XOO_Human(b: Board)
    requires b.grid == [[-1, -1, 1], [1, -1, 1], [-1, 1, 1]]
    ensures Score(b, HUMAN) == 1
  {
    Winner_XXO_OXO_XOO(b);
  }

  lemma Winner_XXO_OXO_XOe(b: Board)
    requires b.grid == [[-1, -1, 1], [1, -1, 1], [-1, 1, 0]]
    ensures Winner(b) == BLANK
  {
    WinnerIsEightLineWinner(b);
  }

  lemma Score_XXO_OXO_XOe_AI(b: Board)
    requires b.grid == [[-1, -1, 1], [1, -1, 1], [-1, 1, 0]]
    ensures Score(b, AI) == 1
  {
    Moves_XXO_OXO_XOe(b);
    assert MoveScore(b, (2, 2), AI) == 1 by {
      PlaceYields(b, (2, 2), AI, [[-1, -1, 1], [1, -1, 1], [-1, 1, 1]]); Score_XXO_OXO_XOO_Human(Place(b, (2, 2), AI));
    }
    Winner_XXO_OXO_XOe(b);
    ScoreOfWinningMove(b, AI, (2, 2));
  }

  lemma Moves_XXO_OeO_XOX(b: Board)
    requires b.grid == [[-1, -1, 1], [1, 0, 1], [-1, 1, -1]]
    ensures RemainingMoves(b) == [(1, 1)]
  {
    RemainingMovesAre(b, [(1, 1)]);
  }

  lemma Winner_XXO_OOO_XOX(b: Board)
    requires b.grid == [[-1, -1, 1], [1, 1, 1], [-1, 1, -1]]
    ensures Winner(b) == AI
  {
    WinnerIsEightLineWinner(b);
  }

  lemma Score_XXO_OOO_XOX_Human(b: Board)
    requires b.grid == [[-1, -1, 1], [1, 1, 1], [-1, 1, -1]]
    ensures Score(b, HUMAN) == 1
  {
    Winner_XXO_OOO_XOX(b);
  }

  lemma Winner_XXO_OeO_XOX(b: Board)
    requires b.grid == [[-1, -1, 1], [1, 0, 1], [-1, 1, -1]]
    ensures Winner(b) == BLANK
  {
    WinnerIsEightLineWinner(b);
  }

  lemma Score_XXO_OeO_XOX_AI(b: Board)
    requires b.grid == [[-1, -1, 1], [1, 0, 1], [-1, 1, -1]]
    ensures Score(b, AI) == 1
  {
    Moves_XXO_OeO_XOX(b);
    assert MoveScore(b, (1, 1), AI) == 1 by {
      PlaceYields(b, (1, 1), AI, [[-1, -1, 1], [1, 1, 1], [-1, 1, -1]]); Score_XXO_OOO_XOX_Human(Place(b, (1, 1), AI));
    }
    Winner_XXO_OeO_XOX(b);
    ScoreOfWinningMove(b, AI, (1, 1));
  }

  lemma Winner_XXO_OeO_XOe(b: Board)
    requires b.grid == [[-1, -1, 1], [1, 0, 1], [-1, 1, 0]]
    ensures Winner(b) == BLANK
  {
    WinnerIsEightLineWinner(b);
  }

  lemma Score_XXO_OeO_XOe_Human(b: Board)
    requires b.grid == [[-1, -1, 1], [1, 0, 1], [-1, 1, 0]]
    ensures Score(b, HUMAN) == 1
  {
    Moves_XXO_OeO_XOe(b);
    var s := [1, 1];
    forall i | 0 <= i < 2
      ensures MoveScore(b, RemainingMoves(b)[i], HUMAN) == s[i]
    {
      if i == 0 { PlaceYields(b, (1, 1), HUMAN, [[-1, -1, 1], [1, -1, 1], [-1, 1, 0]]); Score_XXO_OXO_XOe_AI(Place(b, (1, 1), HUMAN)); }
      else { PlaceYields(b, (2, 2), HUMAN, [[-1, -1, 1], [1, 0, 1], [-1, 1, -1]]); Score_XXO_OeO_XOX_AI(Place(b, (2, 2), HUMAN)); }
    }
    Winner_XXO_OeO_XOe(b);
    ScoreOfMoveScores(b, HUMAN, s);
  }

  lemma Winner_XXO_Oee_XOe(b: Board)
    requires b.grid == [[-1, -1, 1], [1, 0, 0], [-1, 1, 0]]
    ensures Winner(b) == BLANK
  {
    WinnerIsEightLineWinner(b);
  }

  lemma Score_XXO_Oee_XOe_AI(b: Board)
    requires b.grid == [[-1, -1, 1], [1, 0, 0], [-1, 1, 0]]
    ensures Score(b, AI) == 1
  {
    Moves_XXO_Oee_XOe(b);
    assert MoveScore(b, (1, 2), AI) == 1 by {
      PlaceYields(b, (1, 2), AI, [[-1, -1, 1], [1, 0, 1], [-1, 1, 0]]); Score_XXO_OeO_XOe_Human(Place(b, (1, 2), AI));
    }
    Winner_XXO_Oee_XOe(b);
    ScoreOfWinningMove(b, AI, (1, 2));
  }

  lemma Moves_XXO_OXe_XOe(b: Board)
    requires b.grid == [[-1, -1, 1], [1, -1, 0], [-1, 1, 0]]
    ensures RemainingMoves(b) == [(1, 2), (2, 2)]
  {
    RemainingMovesAre(b, [(1, 2), (2, 2)]);
  }

  lemma Winner_XXO_OXO_XOX(b: Board)
    requires b.grid == [[-1, -1, 1], [1, -1, 1], [-1, 1, -1]]
    ensures Winner(b) == HUMAN
  {
    WinnerIsEightLineWinner(b);
  }

  lemma Score_XXO_OXO_XOX_AI(b: Board)
    requires b.grid == [[-1, -1, 1], [1, -1, 1], [-1, 1, -1]]
    ensures Score(b, AI) == -1
  {
    Winner_XXO_OXO_XOX(b);
  }

  lemma Score_XXO_OXO_XOe_Human(b: Board)
    requires b.grid == [[-1, -1, 1], [1, -1, 1], [-1, 1, 0]]
    ensures Score(b, HUMAN) == -1
  {
    Moves_XXO_OXO_XOe(b);
    assert MoveScore(b, (2, 2), HUMAN) == -1 by {
      PlaceYields(b, (2, 2), HUMAN, [[-1, -1, 1], [1, -1, 1], [-1, 1, -1]]); Score_XXO_OXO_XOX_AI(Place(b, (2, 2), HUMAN));
    }
    Winner_XXO_OXO_XOe(b);
    ScoreOfWinningMove(b, HUMAN, (2, 2));
  }

  lemma Moves_XXO_OXe_XOO(b: Board)
    requires b.grid == [[-1, -1, 1], [1, -1, 0], [-1, 1, 1]]
    ensures RemainingMoves(b) == [(1, 2)]
  {
    RemainingMovesAre(b, [(1, 2)]);
  }

  lemma Moves_XXO_OXX_XOO(b: Board)
    requires b.grid == [[-1, -1, 1], [1, -1, -1], [-1, 1, 1]]
    ensures RemainingMoves(b) == []
  {
    RemainingMovesAre(b, []);
  }

  lemma Winner_XXO_OXX_XOO(b: Board)
    requires b.grid == [[-1, -1, 1], [1, -1, -1], [-1, 1, 1]]
    ensures Winner(b) == BLANK
  {
    WinnerIsEightLineWinner(b);
  }

  lemma Score_XXO_OXX_XOO_AI(b: Board)
    requires b.grid == [[-1, -1, 1], [1, -1, -1], [-1, 1, 1]]
    ensures Score(b, AI) == 0
  {
    Moves_XXO_OXX_XOO(b);
    Winner_XXO_OXX_XOO(b);
  }

  lemma Winner_XXO_OXe_XOO(b: Board)
    requires b.grid == [[-1, -1, 1], [1, -1, 0], [-1, 1, 1]]
    ensures Winner(b) == BLANK
  {
    WinnerIsEightLineWinner(b);
  }

  lemma Score_XXO_OXe_XOO_Human(b: Board)
    requires b.grid == [[-1, -1, 1], [1, -1, 0], [-1, 1, 1]]
    ensures Score(b, HUMAN) == 0
  {
    Moves_XXO_OXe_XOO(b);
    var s := [0];
    forall i | 0 <= i < 1
      ensures MoveScore(b, RemainingMoves(b)[i], HUMAN) == s[i]
    {
      PlaceYields(b, (1, 2), HUMAN, [[-1, -1, 1], [1, -1, -1], [-1, 1, 1]]); Score_XXO_OXX_XOO_AI(Place(b, (1, 2), HUMAN));
    }
    Winner_XXO_OXe_XOO(b);
    ScoreOfMoveScores(b, HUMAN, s);
  }

  lemma Winner_XXO_OXe_XOe(b: Board)
    requires b.grid == [[-1, -1, 1], [1, -1, 0], [-1, 1, 0]]
    ensures Winner(b) == BLANK
  {
    WinnerIsEightLineWinner(b);
  }

  lemma Score_XXO_OXe_XOe_AI(b: Board)
    requires b.grid == [[-1, -1, 1], [1, -1, 0], [-1, 1, 0]]
    ensures Score(b, AI) == 0
  {
    Moves_XXO_OXe_XOe(b);
    var s := [-1, 0];
    forall i | 0 <= i < 2
      ensures MoveScore(b, RemainingMoves(b)[i], AI) == s[i]
    {
      if i == 0 { PlaceYields(b, (1, 2), AI, [[-1, -1, 1], [1, -1, 1], [-1, 1, 0]]); Score_XXO_OXO_XOe_Human(Place(b, (1, 2), AI)); }
      else { PlaceYields(b, (2, 2), AI, [[-1, -1, 1], [1, -1, 0], [-1, 1, 1]]); Score_XXO_OXe_XOO_Human(Place(b, (2, 2), AI)); }
    }
    Winner_XXO_OXe_XOe(b);
    ScoreOfMoveScores(b, AI, s);
  }

  lemma Moves_XXO_OeX_XOe(b: Board)
    requires b.grid == [[-1, -1, 1], [1, 0, -1], [-1, 1, 0]]
    ensures RemainingMoves(b) == [(1, 1), (2, 2)]
  {
    RemainingMovesAre(b, [(1, 1), (2, 2)]);
  }

  lemma Moves_XXO_OOX_XOe(b: Board)
    requires b.grid == [[-1, -1, 1], [1, 1, -1], [-1, 1, 0]]
    ensures RemainingMoves(b) == [(2, 2)]
  {
    RemainingMovesAre(b, [(2, 2)]);
  }

  lemma Moves_XXO_OOX_XOX(b: Board)
    requires b.grid == [[-1, -1, 1], [1, 1, -1], [-1, 1, -1]]
    ensures RemainingMoves(b) == []
  {
    RemainingMovesAre(b, []);
  }

  lemma Winner_XXO_OOX_XOX(b: Board)
    requires b.grid == [[-1, -1, 1], [1, 1, -1], [-1, 1, -1]]
    ensures Winner(b) == BLANK
  {
    WinnerIsEightLineWinner(b);
  }

  lemma Score_XXO_OOX_XOX_AI(b: Board)
    requires b.grid == [[-1, -1, 1], [1, 1, -1], [-1, 1, -1]]
    ensures Score(b, AI) == 0
  {
    Moves_XXO_OOX_XOX(b);
    Winner_XXO_OOX_XOX(b);
  }

  lemma Winner_XXO_OOX_XOe(b: Board)
    requires b.grid == [[-1, -1, 1], [1, 1, -1], [-1, 1, 0]]
    ensures Winner(b) == BLANK
  {
    WinnerIsEightLineWinner(b);
  }

  lemma Score_XXO_OOX_XOe_Human(b: Board)
    requires b.grid == [[-1, -1, 1], [1, 1, -1], [-1, 1, 0]]
    ensures Score(b, HUMAN) == 0
  {
    Moves_XXO_OOX_XOe(b);
    var s := [0];
    forall i | 0 <= i < 1
      ensures MoveScore(b, RemainingMoves(b)[i], HUMAN) == s[i]
    {
      PlaceYields(b, (2, 2), HUMAN, [[-1, -1, 1], [1, 1, -1], [-1, 1, -1]]); Score_XXO_OOX_XOX_AI(Place(b, (2, 2), HUMAN));
    }
    Winner_XXO_OOX_XOe(b);
    ScoreOfMoveScores(b, HUMAN, s);
  }

  lemma Moves_XXO_OeX_XOO(b: Board)
    requires b.grid == [[-1, -1, 1], [1, 0, -1], [-1, 1, 1]]
    ensures RemainingMoves(b) == [(1, 1)]
  {
    RemainingMovesAre(b, [(1, 1)]);
  }

  lemma Winner_XXO_OeX_XOO(b: Board)
    requires b.grid == [[-1, -1, 1], [1, 0, -1], [-1, 1, 1]]
    ensures Winner(b) == BLANK
  {
    WinnerIsEightLineWinner(b);
  }

  lemma Score_XXO_OeX_XOO_Human(b: Board)
    requires b.grid == [[-1, -1, 1], [1, 0, -1], [-1, 1, 1]]
    ensures Score(b, HUMAN) == 0
  {
    Moves_XXO_OeX_XOO(b);
    var s := [0];
    forall i | 0 <= i < 1
      ensures MoveScore(b, RemainingMoves(b)[i], HUMAN) == s[i]
    {
      PlaceYields(b, (1, 1), HUMAN, [[-1, -1, 1], [1, -1, -1], [-1, 1, 1]]); Score_XXO_OXX_XOO_AI(Place(b, (1, 1), HUMAN));
    }
    Winner_XXO_OeX_XOO(b);
    ScoreOfMoveScores(b, HUMAN, s);
  }

  lemma Winner_XXO_OeX_XOe(b: Board)
    requires b.grid == [[-1, -1, 1], [1, 0, -1], [-1, 1, 0]]
    ensures Winner(b) == BLANK
  {
    WinnerIsEightLineWinner(b);
  }

  lemma Score_XXO_OeX_XOe_AI(b: Board)
    requires b.grid == [[-1, -1, 1], [1, 0, -1], [-1, 1, 0]]
    ensures Score(b, AI) == 0
  {
    Moves_XXO_OeX_XOe(b);
    var s := [0, 0];
    forall i | 0 <= i < 2
      ensures MoveScore(b, RemainingMoves(b)[i], AI) == s[i]
    {
      if i == 0 { PlaceYields(b, (1, 1), AI, [[-1, -1, 1], [1, 1, -1], [-1, 1, 0]]); Score_XXO_OOX_XOe_Human(Place(b, (1, 1), AI)); }
      else { PlaceYields(b, (2, 2), AI, [[-1, -1, 1], [1, 0, -1], [-1, 1, 1]]); Score_XXO_OeX_XOO_Human(Place(b, (2, 2), AI)); }
    }
    Winner_XXO_OeX_XOe(b);
    ScoreOfMoveScores(b, AI, s);
  }

  lemma Moves_XXO_Oee_XOX(b: Board)
    requires b.grid == [[-1, -1, 1], [1, 0, 0], [-1, 1, -1]]
    ensures RemainingMoves(b) == [(1, 1), (1, 2)]
  {
    RemainingMovesAre(b, [(1, 1), (1, 2)]);
  }

  lemma Moves_XXO_OOe_XOX(b: Board)
    requires b.grid == [[-1, -1, 1], [1, 1, 0], [-1, 1, -1]]
    ensures RemainingMoves(b) == [(1, 2)]
  {
    RemainingMovesAre(b, [(1, 2)]);
  }

  lemma Winner_XXO_OOe_XOX(b: Board)
    requires b.grid == [[-1, -1, 1], [1, 1, 0], [-1, 1, -1]]
    ensures Winner(b) == BLANK
  {
    WinnerIsEightLineWinner(b);
  }

  lemma Score_XXO_OOe_XOX_Human(b: Board)
    requires b.grid == [[-1, -1, 1], [1, 1, 0], [-1, 1, -1]]
    ensures Score(b, HUMAN) == 0
  {
    Moves_XXO_OOe_XOX(b);
    var s := [0];
    forall i | 0 <= i < 1
      ensures MoveScore(b, RemainingMoves(b)[i], HUMAN) == s[i]
    {
      PlaceYields(b, (1, 2), HUMAN, [[-1, -1, 1], [1, 1, -1], [-1, 1, -1]]); Score_XXO_OOX_XOX_AI(Place(b, (1, 2), HUMAN));
    }
    Winner_XXO_OOe_XOX(b);
    ScoreOfMoveScores(b, HUMAN, s);
  }

  lemma Score_XXO_OeO_XOX_Human(b: Board)
    requires b.grid == [[-1, -1, 1], [1, 0, 1], [-1, 1, -1]]
    ensures Score(b, HUMAN) == -1
  {
    Moves_XXO_OeO_XOX(b);
    assert MoveScore(b, (1, 1), HUMAN) == -1 by {
      PlaceYields(b, (1, 1), HUMAN, [[-1, -1, 1], [1, -1, 1], [-1, 1, -1]]); Score_XXO_OXO_XOX_AI(Place(b, (1, 1), HUMAN));
    }
    Winner_XXO_OeO_XOX(b);
    ScoreOfWinningMove(b, HUMAN, (1, 1));
  }

  lemma Winner_XXO_Oee_XOX(b: Board)
    requires b.grid == [[-1, -1, 1], [1, 0, 0], [-1, 1, -1]]
    ensures Winner(b) == BLANK
  {
    WinnerIsEightLineWinner(b);
  }

  lemma Score_XXO_Oee_XOX_AI(b: Board)
    requires b.grid == [[-1, -1, 1], [1, 0, 0], [-1, 1, -1]]
    ensures Score(b, AI) == 0
  {
    Moves_XXO_Oee_XOX(b);
    var s := [0, -1];
    forall i | 0 <= i < 2
      ensures MoveScore(b, RemainingMoves(b)[i], AI) == s[i]
    {
      if i == 0 { PlaceYields(b, (1, 1), AI, [[-1, -1, 1], [1, 1, 0], [-1, 1, -1]]); Score_XXO_OOe_XOX_Human(Place(b, (1, 1), AI)); }
      else { PlaceYields(b, (1, 2), AI, [[-1, -1, 1], [1, 0, 1], [-1, 1, -1]]); Score_XXO_OeO_XOX_Human(Place(b, (1, 2), AI)); }
    }
    Winner_XXO_Oee_XOX(b);
    ScoreOfMoveScores(b, AI, s);
  }

  lemma Score_XXO_Oee_XOe_Human(b: Board)
    requires b.grid == [[-1, -1, 1], [1, 0, 0], [-1, 1, 0]]
    ensures Score(b, HUMAN) == 0
  {
    Moves_XXO_Oee_XOe(b);
    var s := [0, 0, 0];
    forall i | 0 <= i < 3
      ensures MoveScore(b, RemainingMoves(b)[i], HUMAN) == s[i]
    {
      if i == 0 { PlaceYields(b, (1, 1), HUMAN, [[-1, -1, 1], [1, -1, 0], [-1, 1, 0]]); Score_XXO_OXe_XOe_AI(Place(b, (1, 1), HUMAN)); }
      else if i == 1 { PlaceYields(b, (1, 2), HUMAN, [[-1, -1, 1], [1, 0, -1], [-1, 1, 0]]); Score_XXO_OeX_XOe_AI(Place(b, (1, 2), HUMAN)); }
      else { PlaceYields(b, (2, 2), HUMAN, [[-1, -1, 1], [1, 0, 0], [-1, 1, -1]]); Score_XXO_Oee_XOX_AI(Place(b, (2, 2), HUMAN)); }
    }
    Winner_XXO_Oee_XOe(b);
    ScoreOfMoveScores(b, HUMAN, s);
  }

  lemma Winner_OOO_eXe_Xee(b: Board)
    requires b.grid == [[1, 1, 1], [0, -1, 0], [-1, 0, 0]]
    ensures Winner(b) == AI
  {
    WinnerIsEightLineWinner(b);
  }

  lemma Moves_XXO_OOe_XOe(b: Board)
    requires b.grid == [[-1, -1, 1], [1, 1, 0], [-1, 1, 0]]
    ensures RemainingMoves(b) == [(1, 2), (2, 2)]
  {
    RemainingMovesAre(b, [(1, 2), (2, 2)]);
  }

  lemma Moves_XXO_OOX_XOO(b: Board)
    requires b.grid == [[-1, -1, 1], [1, 1, -1], [-1, 1, 1]]
    ensures RemainingMoves(b) == []
  {
    RemainingMovesAre(b, []);
  }

  lemma Winner_XXO_OOX_XOO(b: Board)
    requires b.grid == [[-1, -1, 1], [1, 1, -1], [-1, 1, 1]]
    ensures Winner(b) == BLANK
  {
    WinnerIsEightLineWinner(b);
  }

  lemma Score_XXO_OOX_XOO_Human(b: Board)
    requires b.grid == [[-1, -1, 1], [1, 1, -1], [-1, 1, 1]]
    ensures Score(b, HUMAN) == 0
  {
    Moves_XXO_OOX_XOO(b);
    Winner_XXO_OOX_XOO(b);
  }

  lemma Score_XXO_OOX_XOe_AI(b: Board)
    requires b.grid == [[-1, -1, 1], [1, 1, -1], [-1, 1, 0]]
    ensures Score(b, AI) == 0
  {
    Moves_XXO_OOX_XOe(b);
    var s := [0];
    forall i | 0 <= i < 1
      ensures MoveScore(b, RemainingMoves(b)[i], AI) == s[i]
    {
      PlaceYields(b, (2, 2), AI, [[-1, -1, 1], [1, 1, -1], [-1, 1, 1]]); Score_XXO_OOX_XOO_Human(Place(b, (2, 2), AI));
    }
    Winner_XXO_OOX_XOe(b);
    ScoreOfMoveScores(b, AI, s);
  }

  lemma Score_XXO_OOe_XOX_AI(b: Board)
    requires b.grid == [[-1, -1, 1], [1, 1, 0], [-1, 1, -1]]
    ensures Score(b, AI) == 1
  {
    Moves_XXO_OOe_XOX(b);
    assert MoveScore(b, (1, 2), AI) == 1 by {
      PlaceYields(b, (1, 2), AI, [[-1, -1, 1], [1, 1, 1], [-1, 1, -1]]); Score_XXO_OOO_XOX_Human(Place(b, (1, 2), AI));
    }
    Winner_XXO_OOe_XOX(b);
    ScoreOfWinningMove(b, AI, (1, 2));
  }

  lemma Winner_XXO_OOe_XOe(b: Board)
    requires b.grid == [[-1, -1, 1], [1, 1, 0], [-1, 1, 0]]
    ensures Winner(b) == BLANK
  {
    WinnerIsEightLineWinner(b);
  }

  lemma Score_XXO_OOe_XOe_Human(b: Board)
    requires b.grid == [[-1, -1, 1], [1, 1, 0], [-1, 1, 0]]
    ensures Score(b, HUMAN) == 0
  {
    Moves_XXO_OOe_XOe(b);
    var s := [0, 1];
    forall i | 0 <= i < 2
      ensures MoveScore(b, RemainingMoves(b)[i], HUMAN) == s[i]
    {
      if i == 0 { PlaceYields(b, (1, 2), HUMAN, [[-1, -1, 1], [1, 1, -1], [-1, 1, 0]]); Score_XXO_OOX_XOe_AI(Place(b, (1, 2), HUMAN)); }
      else { PlaceYields(b, (2, 2), HUMAN, [[-1, -1, 1], [1, 1, 0], [-1, 1, -1]]); Score_XXO_OOe_XOX_AI(Place(b, (2, 2), HUMAN)); }
    }
    Winner_XXO_OOe_XOe(b);
    ScoreOfMoveScores(b, HUMAN, s);
  }

  lemma Moves_XXO_Oee_XOO(b: Board)
    requires b.grid == [[-1, -1, 1], [1, 0, 0], [-1, 1, 1]]
    ensures RemainingMoves(b) == [(1, 1), (1, 2)]
  {
    RemainingMovesAre(b, [(1, 1), (1, 2)]);
  }

  lemma Score_XXO_OXe_XOO_AI(b: Board)
    requires b.grid == [[-1, -1, 1], [1, -1, 0], [-1, 1, 1]]
    ensures Score(b, AI) == 1
  {
    Moves_XXO_OXe_XOO(b);
    assert MoveScore(b, (1, 2), AI) == 1 by {
      PlaceYields(b, (1, 2), AI, [[-1, -1, 1], [1, -1, 1], [-1, 1, 1]]); Score_XXO_OXO_XOO_Human(Place(b, (1, 2), AI));
    }
    Winner_XXO_OXe_XOO(b);
    ScoreOfWinningMove(b, AI, (1, 2));
  }

  lemma Score_XXO_OeX_XOO_AI(b: Board)
    requires b.grid == [[-1, -1, 1], [1, 0, -1], [-1, 1, 1]]
    ensures Score(b, AI) == 0
  {
    Moves_XXO_OeX_XOO(b);
    var s := [0];
    forall i | 0 <= i < 1
      ensures MoveScore(b, RemainingMoves(b)[i], AI) == s[i]
    {
      PlaceYields(b, (1, 1), AI, [[-1, -1, 1], [1, 1, -1], [-1, 1, 1]]); Score_XXO_OOX_XOO_Human(Place(b, (1, 1), AI));
    }
    Winner_XXO_OeX_XOO(b);
    ScoreOfMoveScores(b, AI, s);
  }

  lemma Winner_XXO_Oee_XOO(b: Board)
    requires b.grid == [[-1, -1, 1], [1, 0, 0], [-1, 1, 1]]
    ensures Winner(b) == BLANK
  {
    WinnerIsEightLineWinner(b);
  }

  lemma Score_XXO_Oee_XOO_Human(b: Board)
    requires b.grid == [[-1, -1, 1], [1, 0, 0], [-1, 1, 1]]
    ensures Score(b, HUMAN) == 0
  {
    Moves_XXO_Oee_XOO(b);
    var s := [1, 0];
    forall i | 0 <= i < 2
      ensures MoveScore(b, RemainingMoves(b)[i], HUMAN) == s[i]
    {
      if i == 0 { PlaceYields(b, (1, 1), HUMAN, [[-1, -1, 1], [1, -1, 0], [-1, 1, 1]]); Score_XXO_OXe_XOO_AI(Place(b, (1, 1), HUMAN)); }
      else { PlaceYields(b, (1, 2), HUMAN, [[-1, -1, 1], [1, 0, -1], [-1, 1, 1]]); Score_XXO_OeX_XOO_AI(Place(b, (1, 2), HUMAN)); }
    }
    Winner_XXO_Oee_XOO(b);
    ScoreOfMoveScores(b, HUMAN, s);
  }

  lemma Moves_Oee_eee_eeX(b: Board)
    requires b.grid == [[1, 0, 0], [0, 0, 0], [0, 0, -1]]
    ensures RemainingMoves(b) == [(0, 1), (0, 2), (1, 0), (1, 1), (1, 2), (2, 0), (2, 1)]
  {
    RemainingMovesAre(b, [(0, 1), (0, 2), (1, 0), (1, 1), (1, 2), (2, 0), (2, 1)]);
  }

  lemma Moves_OeO_eee_eeX(b: Board)
    requires b.grid == [[1, 0, 1], [0, 0, 0], [0, 0, -1]]
    ensures RemainingMoves(b) == [(0, 1), (1, 0), (1, 1), (1, 2), (2, 0), (2, 1)]
  {
    RemainingMovesAre(b, [(0, 1), (1, 0), (1, 1), (1, 2), (2, 0), (2, 1)]);
  }

  lemma Moves_OXO_eee_eeX(b: Board)
    requires b.grid == [[1, -1, 1], [0, 0, 0], [0, 0, -1]]
    ensures RemainingMoves(b) == [(1, 0), (1, 1), (1, 2), (2, 0), (2, 1)]
  {
    RemainingMovesAre(b, [(1, 0), (1, 1), (1, 2), (2, 0), (2, 1)]);
  }

  lemma Moves_OXO_eee_OeX(b: Board)
    requires b.grid == [[1, -1, 1], [0, 0, 0], [1, 0, -1]]
    ensures RemainingMoves(b) == [(1, 0), (1, 1), (1, 2), (2, 1)]
  {
    RemainingMovesAre(b, [(1, 0), (1, 1), (1, 2), (2, 1)]);
  }

  lemma Moves_OXO_Xee_OeX(b: Board)
    requires b.grid == [[1, -1, 1], [-1, 0, 0], [1, 0, -1]]
    ensures RemainingMoves(b) == [(1, 1), (1, 2), (2, 1)]
  {
    RemainingMovesAre(b, [(1, 1), (1, 2), (2, 1)]);
  }

  lemma Winner_OXO_XOe_OeX(b: Board)
    requires b.grid == [[1, -1, 1], [-1, 1, 0], [1, 0, -1]]
    ensures Winner(b) == AI
  {
    WinnerIsEightLineWinner(b);
  }

  lemma Score_OXO_XOe_OeX_Human(b: Board)
    requires b.grid == [[1, -1, 1], [-1, 1, 0], [1, 0, -1]]
    ensures Score(b, HUMAN) == 1
  {
    Winner_OXO_XOe_OeX(b);
  }

  lemma Winner_OXO_Xee_OeX(b: Board)
    requires b.grid == [[1, -1, 1], [-1, 0, 0], [1, 0, -1]]
    ensures Winner(b) == BLANK
  {
    WinnerIsEightLineWinner(b);
  }

  lemma Score_OXO_Xee_OeX_AI(b: Board)
    requires b.grid == [[1, -1, 1], [-1, 0, 0], [1, 0, -1]]
    ensures Score(b, AI) == 1
  {
    Moves_OXO_Xee_OeX(b);
    assert MoveScore(b, (1, 1), AI) == 1 by {
      PlaceYields(b, (1, 1), AI, [[1, -1, 1], [-1, 1, 0], [1, 0, -1]]); Score_OXO_XOe_OeX_Human(Place(b, (1, 1), AI));
    }
    Winner_OXO_Xee_OeX(b);
    ScoreOfWinningMove(b, AI, (1, 1));
  }

  lemma Moves_OXO_eXe_OeX(b: Board)
    requires b.grid == [[1, -1, 1], [0, -1, 0], [1, 0, -1]]
    ensures RemainingMoves(b) == [(1, 0), (1, 2), (2, 1)]
  {
    RemainingMovesAre(b, [(1, 0), (1, 2), (2, 1)]);
  }

  lemma Winner_OXO_OXe_OeX(b: Board)
    requires b.grid == [[1, -1, 1], [1, -1, 0], [1, 0, -1]]
    ensures Winner(b) == AI
  {
    WinnerIsEightLineWinner(b);
  }

  lemma Score_OXO_OXe_OeX_Human(b: Board)
    requires b.grid == [[1, -1, 1], [1, -1, 0], [1, 0, -1]]
    ensures Score(b, HUMAN) == 1
  {
    Winner_OXO_OXe_OeX(b);
  }

  lemma Winner_OXO_eXe_OeX(b: Board)
    requires b.grid == [[1, -1, 1], [0, -1, 0], [1, 0, -1]]
    ensures Winner(b) == BLANK
  {
    WinnerIsEightLineWinner(b);
  }

  lemma Score_OXO_eXe_OeX_AI(b: Board)
    requires b.grid == [[1, -1, 1], [0, -1, 0], [1, 0, -1]]
    ensures Score(b, AI) == 1
  {
    Moves_OXO_eXe_OeX(b);
    assert MoveScore(b, (1, 0), AI) == 1 by {
      PlaceYields(b, (1, 0), AI, [[1, -1, 1], [1, -1, 0], [1, 0, -1]]); Score_OXO_OXe_OeX_Human(Place(b, (1, 0), AI));
    }
    Winner_OXO_eXe_OeX(b);
    ScoreOfWinningMove(b, AI, (1, 0));
  }

  lemma Moves_OXO_eeX_OeX(b: Board)
    requires b.grid == [[1, -1, 1], [0, 0, -1], [1, 0, -1]]
    ensures RemainingMoves(b) == [(1, 0), (1, 1), (2, 1)]
  {
    RemainingMovesAre(b, [(1, 0), (1, 1), (2, 1)]);
  }

  lemma Winner_OXO_OeX_OeX(b: Board)
    requires b.grid == [[1, -1, 1], [1, 0, -1], [1, 0, -1]]
    ensures Winner(b) == AI
  {
    WinnerIsEightLineWinner(b);
  }

  lemma Score_OXO_OeX_OeX_Human(b: Board)
    requires b.grid == [[1, -1, 1], [1, 0, -1], [1, 0, -1]]
    ensures Score(b, HUMAN) == 1
  {
    Winner_OXO_OeX_OeX(b);
  }

  lemma Winner_OXO_eeX_OeX(b: Board)
    requires b.grid == [[1, -1, 1], [0, 0, -1], [1, 0, -1]]
    ensures Winner(b) == BLANK
  {
    WinnerIsEightLineWinner(b);
  }

  lemma Score_OXO_eeX_OeX_AI(b: Board)
    requires b.grid == [[1, -1, 1], [0, 0, -1], [1, 0, -1]]
    ensures Score(b, AI) == 1
  {
    Moves_OXO_eeX_OeX(b);
    assert MoveScore(b, (1, 0), AI) == 1 by {
      PlaceYields(b, (1, 0), AI, [[1, -1, 1], [1, 0, -1], [1, 0, -1]]); Score_OXO_OeX_OeX_Human(Place(b, (1, 0), AI));
    }
    Winner_OXO_eeX_OeX(b);
    ScoreOfWinningMove(b, AI, (1, 0));
  }

  lemma Moves_OXO_eee_OXX(b: Board)
    requires b.grid == [[1, -1, 1], [0, 0, 0], [1, -1, -1]]
    ensures RemainingMoves(b) == [(1, 0), (1, 1), (1, 2)]
  {
    RemainingMovesAre(b, [(1, 0), (1, 1), (1, 2)]);
  }

  lemma Winner_OXO_Oee_OXX(b: Board)
    requires b.grid == [[1, -1, 1], [1, 0, 0], [1, -1, -1]]
    ensures Winner(b) == AI
  {
    WinnerIsEightLineWinner(b);
  }

  lemma Score_OXO_Oee_OXX_Human(b: Board)
    requires b.grid == [[1, -1, 1], [1, 0, 0], [1, -1, -1]]
    ensures Score(b, HUMAN) == 1
  {
    Winner_OXO_Oee_OXX(b);
  }

  lemma Winner_OXO_eee_OXX(b: Board)
    requires b.grid == [[1, -1, 1], [0, 0, 0], [1, -1, -1]]
    ensures Winner(b) == BLANK
  {
    WinnerIsEightLineWinner(b);
  }

  lemma Score_OXO_eee_OXX_AI(b: Board)
    requires b.grid == [[1, -1, 1], [0, 0, 0], [1, -1, -1]]
    ensures Score(b, AI) == 1
  {
    Moves_OXO_eee_OXX(b);
    assert MoveScore(b, (1, 0), AI) == 1 by {
      PlaceYields(b, (1, 0), AI, [[1, -1, 1], [1, 0, 0], [1, -1, -1]]); Score_OXO_Oee_OXX_Human(Place(b, (1, 0), AI));
    }
    Winner_OXO_eee_OXX(b);
    ScoreOfWinningMove(b, AI, (1, 0));
  }

  lemma Winner_OXO_eee_OeX(b: Board)
    requires b.grid == [[1, -1, 1], [0, 0, 0], [1, 0, -1]]
    ensures Winner(b) == BLANK
  {
    WinnerIsEightLineWinner(b);
  }

  lemma Score_OXO_eee_OeX_Human(b: Board)
    requires b.grid == [[1, -1, 1], [0, 0, 0], [1, 0, -1]]
    ensures Score(b, HUMAN) == 1
  {
    Moves_OXO_eee_OeX(b);
    var s := [1, 1, 1, 1];
    forall i | 0 <= i < 4
      ensures MoveScore(b, RemainingMoves(b)[i], HUMAN) == s[i]
    {
      if i == 0 { PlaceYields(b, (1, 0), HUMAN, [[1, -1, 1], [-1, 0, 0], [1, 0, -1]]); Score_OXO_Xee_OeX_AI(Place(b, (1, 0), HUMAN)); }
      else if i == 1 { PlaceYields(b, (1, 1), HUMAN, [[1, -1, 1], [0, -1, 0], [1, 0, -1]]); Score_OXO_eXe_OeX_AI(Place(b, (1, 1), HUMAN)); }
      else if i == 2 { PlaceYields(b, (1, 2), HUMAN, [[1, -1, 1], [0, 0, -1], [1, 0, -1]]); Score_OXO_eeX_OeX_AI(Place(b, (1, 2), HUMAN)); }
      else { PlaceYields(b, (2, 1), HUMAN, [[1, -1, 1], [0, 0, 0], [1, -1, -1]]); Score_OXO_eee_OXX_AI(Place(b, (2, 1), HUMAN)); }
    }
    Winner_OXO_eee_OeX(b);
    ScoreOfMoveScores(b, HUMAN, s);
  }

  lemma Winner_OXO_eee_eeX(b: Board)
    requires b.grid == [[1, -1, 1], [0, 0, 0], [0, 0, -1]]
    ensures Winner(b) == BLANK
  {
    WinnerIsEightLineWinner(b);
  }

  lemma Score_OXO_eee_eeX_AI(b: Board)
    requires b.grid == [[1, -1, 1], [0, 0, 0], [0, 0, -1]]
    ensures Score(b, AI) == 1
  {
    Moves_OXO_eee_eeX(b);
    assert MoveScore(b, (2, 0), AI) == 1 by {
      PlaceYields(b, (2, 0), AI, [[1, -1, 1], [0, 0, 0], [1, 0, -1]]); Score_OXO_eee_OeX_Human(Place(b, (2, 0), AI));
    }
    Winner_OXO_eee_eeX(b);
    ScoreOfWinningMove(b, AI, (2, 0));
  }

  lemma Moves_OeO_Xee_eeX(b: Board)
    requires b.grid == [[1, 0, 1], [-1, 0, 0], [0, 0, -1]]
    ensures RemainingMoves(b) == [(0, 1), (1, 1), (1, 2), (2, 0), (2, 1)]
  {
    RemainingMovesAre(b, [(0, 1), (1, 1), (1, 2), (2, 0), (2, 1)]);
  }

  lemma Winner_OOO_Xee_eeX(b: Board)
    requires b.grid == [[1, 1, 1], [-1, 0, 0], [0, 0, -1]]
    ensures Winner(b) == AI
  {
    WinnerIsEightLineWinner(b);
  }

  lemma Score_OOO_Xee_eeX_Human(b: Board)
    requires b.grid == [[1, 1, 1], [-1, 0, 0], [0, 0, -1]]
    ensures Score(b, HUMAN) == 1
  {
    Winner_OOO_Xee_eeX(b);
  }

  lemma Winner_OeO_Xee_eeX(b: Board)
    requires b.grid == [[1, 0, 1], [-1, 0, 0], [0, 0, -1]]
    ensures Winner(b) == BLANK
  {
    WinnerIsEightLineWinner(b);
  }

  lemma Score_OeO_Xee_eeX_AI(b: Board)
    requires b.grid == [[1, 0, 1], [-1, 0, 0], [0, 0, -1]]
    ensures Score(b, AI) == 1
  {
    Moves_OeO_Xee_eeX(b);
    assert MoveScore(b, (0, 1), AI) == 1 by {
      PlaceYields(b, (0, 1), AI, [[1, 1, 1], [-1, 0, 0], [0, 0, -1]]); Score_OOO_Xee_eeX_Human(Place(b, (0, 1), AI));
    }
    Winner_OeO_Xee_eeX(b);
    ScoreOfWinningMove(b, AI, (0, 1));
  }

  lemma Moves_OeO_eXe_eeX(b: Board)
    requires b.grid == [[1, 0, 1], [0, -1, 0], [0, 0, -1]]
    ensures RemainingMoves(b) == [(0, 1), (1, 0), (1, 2), (2, 0), (2, 1)]
  {
    RemainingMovesAre(b, [(0, 1), (1, 0), (1, 2), (2, 0), (2, 1)]);
  }

  lemma Winner_OOO_eXe_eeX(b: Board)
    requires b.grid == [[1, 1, 1], [0, -1, 0], [0, 0, -1]]
    ensures Winner(b) == AI
  {
    WinnerIsEightLineWinner(b);
  }

  lemma Score_OOO_eXe_eeX_Human(b: Board)
    requires b.grid == [[1, 1, 1], [0, -1, 0], [0, 0, -1]]
    ensures Score(b, HUMAN) == 1
  {
    Winner_OOO_eXe_eeX(b);
  }

  lemma Winner_OeO_eXe_eeX(b: Board)
    requires b.grid == [[1, 0, 1], [0, -1, 0], [0, 0, -1]]
    ensures Winner(b) == BLANK
  {
    WinnerIsEightLineWinner(b);
  }

  lemma Score_OeO_eXe_eeX_AI(b: Board)
    requires b.grid == [[1, 0, 1], [0, -1, 0], [0, 0, -1]]
    ensures Score(b, AI) == 1
  {
    Moves_OeO_eXe_eeX(b);
    assert MoveScore(b, (0, 1), AI) == 1 by {
      PlaceYields(b, (0, 1), AI, [[1, 1, 1], [0, -1, 0], [0, 0, -1]]); Score_OOO_eXe_eeX_Human(Place(b, (0, 1), AI));
    }
    Winner_OeO_eXe_eeX(b);
    ScoreOfWinningMove(b, AI, (0, 1));
  }

  lemma Moves_OeO_eeX_eeX(b: Board)
    requires b.grid == [[1, 0, 1], [0, 0, -1], [0, 0, -1]]
    ensures RemainingMoves(b) == [(0, 1), (1, 0), (1, 1), (2, 0), (2, 1)]
  {
    RemainingMovesAre(b, [(0, 1), (1, 0), (1, 1), (2, 0), (2, 1)]);
  }

  lemma Winner_OOO_eeX_eeX(b: Board)
    requires b.grid == [[1, 1, 1], [0, 0, -1], [0, 0, -1]]
    ensures Winner(b) == AI
  {
    WinnerIsEightLineWinner(b);
  }

  lemma Score_OOO_eeX_eeX_Human(b: Board)
    requires b.grid == [[1, 1, 1], [0, 0, -1], [0, 0, -1]]
    ensures Score(b, HUMAN) == 1
  {
    Winner_OOO_eeX_eeX(b);
  }

  lemma Winner_OeO_eeX_eeX(b: Board)
    requires b.grid == [[1, 0, 1], [0, 0, -1], [0, 0, -1]]
    ensures Winner(b) == BLANK
  {
    WinnerIsEightLineWinner(b);
  }

  lemma Score_OeO_eeX_eeX_AI(b: Board)
    requires b.grid == [[1, 0, 1], [0, 0, -1], [0, 0, -1]]
    ensures Score(b, AI) == 1
  {
    Moves_OeO_eeX_eeX(b);
    assert MoveScore(b, (0, 1), AI) == 1 by {
      PlaceYields(b, (0, 1), AI, [[1, 1, 1], [0, 0, -1], [0, 0, -1]]); Score_OOO_eeX_eeX_Human(Place(b, (0, 1), AI));
    }
    Winner_OeO_eeX_eeX(b);
    ScoreOfWinningMove(b, AI, (0, 1));
  }

  lemma Moves_OeO_eee_XeX(b: Board)
    requires b.grid == [[1, 0, 1], [0, 0, 0], [-1, 0, -1]]
    ensures RemainingMoves(b) == [(0, 1), (1, 0), (1, 1), (1, 2), (2, 1)]
  {
    RemainingMovesAre(b, [(0, 1), (1, 0), (1, 1), (1, 2), (2, 1)]);
  }

  lemma Winner_OOO_eee_XeX(b: Board)
    requires b.grid == [[1, 1, 1], [0, 0, 0], [-1, 0, -1]]
    ensures Winner(b) == AI
  {
    WinnerIsEightLineWinner(b);
  }

  lemma Score_OOO_eee_XeX_Human(b: Board)
    requires b.grid == [[1, 1, 1], [0, 0, 0], [-1, 0, -1]]
    ensures Score(b, HUMAN) == 1
  {
    Winner_OOO_eee_XeX(b);
  }

  lemma Winner_OeO_eee_XeX(b: Board)
    requires b.grid == [[1, 0, 1], [0, 0, 0], [-1, 0, -1]]
    ensures Winner(b) == BLANK
  {
    WinnerIsEightLineWinner(b);
  }

  lemma Score_OeO_eee_XeX_AI(b: Board)
    requires b.grid == [[1, 0, 1], [0, 0, 0], [-1, 0, -1]]
    ensures Score(b, AI) == 1
  {
    Moves_OeO_eee_XeX(b);
    assert MoveScore(b, (0, 1), AI) == 1 by {
      PlaceYields(b, (0, 1), AI, [[1, 1, 1], [0, 0, 0], [-1, 0, -1]]); Score_OOO_eee_XeX_Human(Place(b, (0, 1), AI));
    }
    Winner_OeO_eee_XeX(b);
    ScoreOfWinningMove(b, AI, (0, 1));
  }

  lemma Moves_OeO_eee_eXX(b: Board)
    requires b.grid == [[1, 0, 1], [0, 0, 0], [0, -1, -1]]
    ensures RemainingMoves(b) == [(0, 1), (1, 0), (1, 1), (1, 2), (2, 0)]
  {
    RemainingMovesAre(b, [(0, 1), (1, 0), (1, 1), (1, 2), (2, 0)]);
  }

  lemma Winner_OOO_eee_eXX(b: Board)
    requires b.grid == [[1, 1, 1], [0, 0, 0], [0, -1, -1]]
    ensures Winner(b) == AI
  {
    WinnerIsEightLineWinner(b);
  }

  lemma Score_OOO_eee_eXX_Human(b: Board)
    requires b.grid == [[1, 1, 1], [0, 0, 0], [0, -1, -1]]
    ensures Score(b, HUMAN) == 1
  {
    Winner_OOO_eee_eXX(b);
  }

  lemma Winner_OeO_eee_eXX(b: Board)
    requires b.grid == [[1, 0, 1], [0, 0, 0], [0, -1, -1]]
    ensures Winner(b) == BLANK
  {
    WinnerIsEightLineWinner(b);
  }

  lemma Score_OeO_eee_eXX_AI(b: Board)
    requires b.grid == [[1, 0, 1], [0, 0, 0], [0, -1, -1]]
    ensures Score(b, AI) == 1
  {
    Moves_OeO_eee_eXX(b);
    assert MoveScore(b, (0, 1), AI) == 1 by {
      PlaceYields(b, (0, 1), AI, [[1, 1, 1], [0, 0, 0], [0, -1, -1]]); Score_OOO_eee_eXX_Human(Place(b, (0, 1), AI));
    }
    Winner_OeO_eee_eXX(b);
    ScoreOfWinningMove(b, AI, (0, 1));
  }

  lemma Winner_OeO_eee_eeX(b: Board)
    requires b.grid == [[1, 0, 1], [0, 0, 0], [0, 0, -1]]
    ensures Winner(b) == BLANK
  {
    WinnerIsEightLineWinner(b);
  }

  lemma Score_OeO_eee_eeX_Human(b: Board)
    requires b.grid == [[1, 0, 1], [0, 0, 0], [0, 0, -1]]
    ensures Score(b, HUMAN) == 1
  {
    Moves_OeO_eee_eeX(b);
    var s := [1, 1, 1, 1, 1, 1];
    forall i | 0 <= i < 6
      ensures MoveScore(b, RemainingMoves(b)[i], HUMAN) == s[i]
    {
      if i == 0 { PlaceYields(b, (0, 1), HUMAN, [[1, -1, 1], [0, 0, 0], [0, 0, -1]]); Score_OXO_eee_eeX_AI(Place(b, (0, 1), HUMAN)); }
      else if i == 1 { PlaceYields(b, (1, 0), HUMAN, [[1, 0, 1], [-1, 0, 0], [0, 0, -1]]); Score_OeO_Xee_eeX_AI(Place(b, (1, 0), HUMAN)); }
      else if i == 2 { PlaceYields(b, (1, 1), HUMAN, [[1, 0, 1], [0, -1, 0], [0, 0, -1]]); Score_OeO_eXe_eeX_AI(Place(b, (1, 1), HUMAN)); }
      else if i == 3 { PlaceYields(b, (1, 2), HUMAN, [[1, 0, 1], [0, 0, -1], [0, 0, -1]]); Score_OeO_eeX_eeX_AI(Place(b, (1, 2), HUMAN)); }
      else if i == 4 { PlaceYields(b, (2, 0), HUMAN, [[1, 0, 1], [0, 0, 0], [-1, 0, -1]]); Score_OeO_eee_XeX_AI(Place(b, (2, 0), HUMAN)); }
      else { PlaceYields(b, (2, 1), HUMAN, [[1, 0, 1], [0, 0, 0], [0, -1, -1]]); Score_OeO_eee_eXX_AI(Place(b, (2, 1), HUMAN)); }
    }
    Winner_OeO_eee_eeX(b);
    ScoreOfMoveScores(b, HUMAN, s);
  }

  lemma Winner_Oee_eee_eeX(b: Board)
    requires b.grid == [[1, 0, 0], [0, 0, 0], [0, 0, -1]]
    ensures Winner(b) == BLANK
  {
    WinnerIsEightLineWinner(b);
  }

  lemma Score_Oee_eee_eeX_AI(b: Board)
    requires b.grid == [[1, 0, 0], [0, 0, 0], [0, 0, -1]]
    ensures Score(b, AI) == 1
  {
    Moves_Oee_eee_eeX(b);
    assert MoveScore(b, (0, 2), AI) == 1 by {
      PlaceYields(b, (0, 2), AI, [[1, 0, 1], [0, 0, 0], [0, 0, -1]]); Score_OeO_eee_eeX_Human(Place(b, (0, 2), AI));
    }
    Winner_Oee_eee_eeX(b);
    ScoreOfWinningMove(b, AI, (0, 2));
  }

  lemma Moves_OeX_eee_eeX(b: Board)
    requires b.grid == [[1, 0, -1], [0, 0, 0], [0, 0, -1]]
    ensures RemainingMoves(b) == [(0, 1), (1, 0), (1, 1), (1, 2), (2, 0), (2, 1)]
  {
    RemainingMovesAre(b, [(0, 1), (1, 0), (1, 1), (1, 2), (2, 0), (2, 1)]);
  }

  lemma Moves_OOX_eee_eeX(b: Board)
    requires b.grid == [[1, 1, -1], [0, 0, 0], [0, 0, -1]]
    ensures RemainingMoves(b) == [(1, 0), (1, 1), (1, 2), (2, 0), (2, 1)]
  {
    RemainingMovesAre(b, [(1, 0), (1, 1), (1, 2), (2, 0), (2, 1)]);
  }

  lemma Winner_OOX_eeX_eeX(b: Board)
    requires b.grid == [[1, 1, -1], [0, 0, -1], [0, 0, -1]]
    ensures Winner(b) == HUMAN
  {
    WinnerIsEightLineWinner(b);
  }

  lemma Score_OOX_eeX_eeX_AI(b: Board)
    requires b.grid == [[1, 1, -1], [0, 0, -1], [0, 0, -1]]
    ensures Score(b, AI) == -1
  {
    Winner_OOX_eeX_eeX(b);
  }

  lemma Winner_OOX_eee_eeX(b: Board)
    requires b.grid == [[1, 1, -1], [0, 0, 0], [0, 0, -1]]
    ensures Winner(b) == BLANK
  {
    WinnerIsEightLineWinner(b);
  }

  lemma Score_OOX_eee_eeX_Human(b: Board)
    requires b.grid == [[1, 1, -1], [0, 0, 0], [0, 0, -1]]
    ensures Score(b, HUMAN) == -1
  {
    Moves_OOX_eee_eeX(b);
    assert MoveScore(b, (1, 2), HUMAN) == -1 by {
      PlaceYields(b, (1, 2), HUMAN, [[1, 1, -1], [0, 0, -1], [0, 0, -1]]); Score_OOX_eeX_eeX_AI(Place(b, (1, 2), HUMAN));
    }
    Winner_OOX_eee_eeX(b);
    ScoreOfWinningMove(b, HUMAN, (1, 2));
  }

  lemma Moves_OeX_Oee_eeX(b: Board)
    requires b.grid == [[1, 0, -1], [1, 0, 0], [0, 0, -1]]
    ensures RemainingMoves(b) == [(0, 1), (1, 1), (1, 2), (2, 0), (2, 1)]
  {
    RemainingMovesAre(b, [(0, 1), (1, 1), (1, 2), (2, 0), (2, 1)]);
  }

  lemma Winner_OeX_OeX_eeX(b: Board)
    requires b.grid == [[1, 0, -1], [1, 0, -1], [0, 0, -1]]
    ensures Winner(b) == HUMAN
  {
    WinnerIsEightLineWinner(b);
  }

  lemma Score_OeX_OeX_eeX_AI(b: Board)
    requires b.grid == [[1, 0, -1], [1, 0, -1], [0, 0, -1]]
    ensures Score(b, AI) == -1
  {
    Winner_OeX_OeX_eeX(b);
  }

  lemma Winner_OeX_Oee_eeX(b: Board)
    requires b.grid == [[1, 0, -1], [1, 0, 0], [0, 0, -1]]
    ensures Winner(b) == BLANK
  {
    WinnerIsEightLineWinner(b);
  }

  lemma Score_OeX_Oee_eeX_Human(b: Board)
    requires b.grid == [[1, 0, -1], [1, 0, 0], [0, 0, -1]]
    ensures Score(b, HUMAN) == -1
  {
    Moves_OeX_Oee_eeX(b);
    assert MoveScore(b, (1, 2), HUMAN) == -1 by {
      PlaceYields(b, (1, 2), HUMAN, [[1, 0, -1], [1, 0, -1], [0, 0, -1]]); Score_OeX_OeX_eeX_AI(Place(b, (1, 2), HUMAN));
    }
    Winner_OeX_Oee_eeX(b);
    ScoreOfWinningMove(b, HUMAN, (1, 2));
  }

  lemma Moves_OeX_eOe_eeX(b: Board)
    requires b.grid == [[1, 0, -1], [0, 1, 0], [0, 0, -1]]
    ensures RemainingMoves(b) == [(0, 1), (1, 0), (1, 2), (2, 0), (2, 1)]
  {
    RemainingMovesAre(b, [(0, 1), (1, 0), (1, 2), (2, 0), (2, 1)]);
  }

  lemma Winner_OeX_eOX_eeX(b: Board)
    requires b.grid == [[1, 0, -1], [0, 1, -1], [0, 0, -1]]
    ensures Winner(b) == HUMAN
  {
    WinnerIsEightLineWinner(b);
  }

  lemma Score_OeX_eOX_eeX_AI(b: Board)
    requires b.grid == [[1, 0, -1], [0, 1, -1], [0, 0, -1]]
    ensures Score(b, AI) == -1
  {
    Winner_OeX_eOX_eeX(b);
  }

  lemma Winner_OeX_eOe_eeX(b: Board)
    requires b.grid == [[1, 0, -1], [0, 1, 0], [0, 0, -1]]
    ensures Winner(b) == BLANK
  {
    WinnerIsEightLineWinner(b);
  }

  lemma Score_OeX_eOe_eeX_Human(b: Board)
    requires b.grid == [[1, 0, -1], [0, 1, 0], [0, 0, -1]]
    ensures Score(b, HUMAN) == -1
  {
    Moves_OeX_eOe_eeX(b);
    assert MoveScore(b, (1, 2), HUMAN) == -1 by {
      PlaceYields(b, (1, 2), HUMAN, [[1, 0, -1], [0, 1, -1], [0, 0, -1]]); Score_OeX_eOX_eeX_AI(Place(b, (1, 2), HUMAN));
    }
    Winner_OeX_eOe_eeX(b);
    ScoreOfWinningMove(b, HUMAN, (1, 2));
  }

  lemma Moves_OeX_eeO_eeX(b: Board)
    requires b.grid == [[1, 0, -1], [0, 0, 1], [0, 0, -1]]
    ensures RemainingMoves(b) == [(0, 1), (1, 0), (1, 1), (2, 0), (2, 1)]
  {
    RemainingMovesAre(b, [(0, 1), (1, 0), (1, 1), (2, 0), (2, 1)]);
  }

  lemma Moves_OeX_eeO_XeX(b: Board)
    requires b.grid == [[1, 0, -1], [0, 0, 1], [-1, 0, -1]]
    ensures RemainingMoves(b) == [(0, 1), (1, 0), (1, 1), (2, 1)]
  {
    RemainingMovesAre(b, [(0, 1), (1, 0), (1, 1), (2, 1)]);
  }

  lemma Moves_OOX_eeO_XeX(b: Board)
    requires b.grid == [[1, 1, -1], [0, 0, 1], [-1, 0, -1]]
    ensures RemainingMoves(b) == [(1, 0), (1, 1), (2, 1)]
  {
    RemainingMovesAre(b, [(1, 0), (1, 1), (2, 1)]);
  }

  lemma Winner_OOX_eXO_XeX(b: Board)
    requires b.grid == [[1, 1, -1], [0, -1, 1], [-1, 0, -1]]
    ensures Winner(b) == HUMAN
  {
    WinnerIsEightLineWinner(b);
  }

  lemma Score_OOX_eXO_XeX_AI(b: Board)
    requires b.grid == [[1, 1, -1], [0, -1, 1], [-1, 0, -1]]
    ensures Score(b, AI) == -1
  {
    Winner_OOX_eXO_XeX(b);
  }

  lemma Winner_OOX_eeO_XeX(b: Board)
    requires b.grid == [[1, 1, -1], [0, 0, 1], [-1, 0, -1]]
    ensures Winner(b) == BLANK
  {
    WinnerIsEightLineWinner(b);
  }

  lemma Score_OOX_eeO_XeX_Human(b: Board)
    requires b.grid == [[1, 1, -1], [0, 0, 1], [-1, 0, -1]]
    ensures Score(b, HUMAN) == -1
  {
    Moves_OOX_eeO_XeX(b);
    assert MoveScore(b, (1, 1), HUMAN) == -1 by {
      PlaceYields(b, (1, 1), HUMAN, [[1, 1, -1], [0, -1, 1], [-1, 0, -1]]); Score_OOX_eXO_XeX_AI(Place(b, (1, 1), HUMAN));
    }
    Winner_OOX_eeO_XeX(b);
    ScoreOfWinningMove(b, HUMAN, (1, 1));
  }

  lemma Moves_OeX_OeO_XeX(b: Board)
    requires b.grid == [[1, 0, -1], [1, 0, 1], [-1, 0, -1]]
    ensures RemainingMoves(b) == [(0, 1), (1, 1), (2, 1)]
  {
    RemainingMovesAre(b, [(0, 1), (1, 1), (2, 1)]);
  }

  lemma Winner_OeX_OXO_XeX(b: Board)
    requires b.grid == [[1, 0, -1], [1, -1, 1], [-1, 0, -1]]
    ensures Winner(b) == HUMAN
  {
    WinnerIsEightLineWinner(b);
  }

  lemma Score_OeX_OXO_XeX_AI(b: Board)
    requires b.grid == [[1, 0, -1], [1, -1, 1], [-1, 0, -1]]
    ensures Score(b, AI) == -1
  {
    Winner_OeX_OXO_XeX(b);
  }

  lemma Winner_OeX_OeO_XeX(b: Board)
    requires b.grid == [[1, 0, -1], [1, 0, 1], [-1, 0, -1]]
    ensures Winner(b) == BLANK
  {
    WinnerIsEightLineWinner(b);
  }

  lemma Score_OeX_OeO_XeX_Human(b: Board)
    requires b.grid == [[1, 0, -1], [1, 0, 1], [-1, 0, -1]]
    ensures Score(b, HUMAN) == -1
  {
    Moves_OeX_OeO_XeX(b);
    assert MoveScore(b, (1, 1), HUMAN) == -1 by {
      PlaceYields(b, (1, 1), HUMAN, [[1, 0, -1], [1, -1, 1], [-1, 0, -1]]); Score_OeX_OXO_XeX_AI(Place(b, (1, 1), HUMAN));
    }
    Winner_OeX_OeO_XeX(b);
    ScoreOfWinningMove(b, HUMAN, (1, 1));
  }

  lemma Moves_OeX_eOO_XeX(b: Board)
    requires b.grid == [[1, 0, -1], [0, 1, 1], [-1, 0, -1]]
    ensures RemainingMoves(b) == [(0, 1), (1, 0), (2, 1)]
  {
    RemainingMovesAre(b, [(0, 1), (1, 0), (2, 1)]);
  }

  lemma Winner_OeX_eOO_XXX(b: Board)
    requires b.grid == [[1, 0, -1], [0, 1, 1], [-1, -1, -1]]
    ensures Winner(b) == HUMAN
  {
    WinnerIsEightLineWinner(b);
  }

  lemma Score_OeX_eOO_XXX_AI(b: Board)
    requires b.grid == [[1, 0, -1], [0, 1, 1], [-1, -1, -1]]
    ensures Score(b, AI) == -1
  {
    Winner_OeX_eOO_XXX(b);
  }

  lemma Winner_OeX_eOO_XeX(b: Board)
    requires b.grid == [[1, 0, -1], [0, 1, 1], [-1, 0, -1]]
    ensures Winner(b) == BLANK
  {
    WinnerIsEightLineWinner(b);
  }

  lemma Score_OeX_eOO_XeX_Human(b: Board)
    requires b.grid == [[1, 0, -1], [0, 1, 1], [-1, 0, -1]]
    ensures Score(b, HUMAN) == -1
  {
    Moves_OeX_eOO_XeX(b);
    assert MoveScore(b, (2, 1), HUMAN) == -1 by {
      PlaceYields(b, (2, 1), HUMAN, [[1, 0, -1], [0, 1, 1], [-1, -1, -1]]); Score_OeX_eOO_XXX_AI(Place(b, (2, 1), HUMAN));
    }
    Winner_OeX_eOO_XeX(b);
    ScoreOfWinningMove(b, HUMAN, (2, 1));
  }

  lemma Moves_OeX_eeO_XOX(b: Board)
    requires b.grid == [[1, 0, -1], [0, 0, 1], [-1, 1, -1]]
    ensures RemainingMoves(b) == [(0, 1), (1, 0), (1, 1)]
  {
    RemainingMovesAre(b, [(0, 1), (1, 0), (1, 1)]);
  }

  lemma Winner_OeX_eXO_XOX(b: Board)
    requires b.grid == [[1, 0, -1], [0, -1, 1], [-1, 1, -1]]
    ensures Winner(b) == HUMAN
  {
    WinnerIsEightLineWinner(b);
  }

  lemma Score_OeX_eXO_XOX_AI(b: Board)
    requires b.grid == [[1, 0, -1], [0, -1, 1], [-1, 1, -1]]
    ensures Score(b, AI) == -1
  {
    Winner_OeX_eXO_XOX(b);
  }

  lemma Winner_OeX_eeO_XOX(b: Board)
    requires b.grid == [[1, 0, -1], [0, 0, 1], [-1, 1, -1]]
    ensures Winner(b) == BLANK
  {
    WinnerIsEightLineWinner(b);
  }

  lemma Score_OeX_eeO_XOX_Human(b: Board)
    requires b.grid == [[1, 0, -1], [0, 0, 1], [-1, 1, -1]]
    ensures Score(b, HUMAN) == -1
  {
    Moves_OeX_eeO_XOX(b);
    assert MoveScore(b, (1, 1), HUMAN) == -1 by {
      PlaceYields(b, (1, 1), HUMAN, [[1, 0, -1], [0, -1, 1], [-1, 1, -1]]); Score_OeX_eXO_XOX_AI(Place(b, (1, 1), HUMAN));
    }
    Winner_OeX_eeO_XOX(b);
    ScoreOfWinningMove(b, HUMAN, (1, 1));
  }

  lemma Winner_OeX_eeO_XeX(b: Board)
    requires b.grid == [[1, 0, -1], [0, 0, 1], [-1, 0, -1]]
    ensures Winner(b) == BLANK
  {
    WinnerIsEightLineWinner(b);
  }

  lemma Score_OeX_eeO_XeX_AI(b: Board)
    requires b.grid == [[1, 0, -1], [0, 0, 1], [-1, 0, -1]]
    ensures Score(b, AI) == -1
  {
    Moves_OeX_eeO_XeX(b);
    var s := [-1, -1, -1, -1];
    forall i | 0 <= i < 4
      ensures MoveScore(b, RemainingMoves(b)[i], AI) == s[i]
    {
      if i == 0 { PlaceYields(b, (0, 1), AI, [[1, 1, -1], [0, 0, 1], [-1, 0, -1]]); Score_OOX_eeO_XeX_Human(Place(b, (0, 1), AI)); }
      else if i == 1 { PlaceYields(b, (1, 0), AI, [[1, 0, -1], [1, 0, 1], [-1, 0, -1]]); Score_OeX_OeO_XeX_Human(Place(b, (1, 0), AI)); }
      else if i == 2 { PlaceYields(b, (1, 1), AI, [[1, 0, -1], [0, 1, 1], [-1, 0, -1]]); Score_OeX_eOO_XeX_Human(Place(b, (1, 1), AI)); }
      else { PlaceYields(b, (2, 1), AI, [[1, 0, -1], [0, 0, 1], [-1, 1, -1]]); Score_OeX_eeO_XOX_Human(Place(b, (2, 1), AI)); }
    }
    Winner_OeX_eeO_XeX(b);
    ScoreOfMoveScores(b, AI, s);
  }

  lemma Winner_OeX_eeO_eeX(b: Board)
    requires b.grid == [[1, 0, -1], [0, 0, 1], [0, 0, -1]]
    ensures Winner(b) == BLANK
  {
    WinnerIsEightLineWinner(b);
  }

  lemma Score_OeX_eeO_eeX_Human(b: Board)
    requires b.grid == [[1, 0, -1], [0, 0, 1], [0, 0, -1]]
    ensures Score(b, HUMAN) == -1
  {
    Moves_OeX_eeO_eeX(b);
    assert MoveScore(b, (2, 0), HUMAN) == -1 by {
      PlaceYields(b, (2, 0), HUMAN, [[1, 0, -1], [0, 0, 1], [-1, 0, -1]]); Score_OeX_eeO_XeX_AI(Place(b, (2, 0), HUMAN));
    }
    Winner_OeX_eeO_eeX(b);
    ScoreOfWinningMove(b, HUMAN, (2, 0));
  }

  lemma Moves_OeX_eee_OeX(b: Board)
    requires b.grid == [[1, 0, -1], [0, 0, 0], [1, 0, -1]]
    ensures RemainingMoves(b) == [(0, 1), (1, 0), (1, 1), (1, 2), (2, 1)]
  {
    RemainingMovesAre(b, [(0, 1), (1, 0), (1, 1), (1, 2), (2, 1)]);
  }

  lemma Winner_OeX_eeX_OeX(b: Board)
    requires b.grid == [[1, 0, -1], [0, 0, -1], [1, 0, -1]]
    ensures Winner(b) == HUMAN
  {
    WinnerIsEightLineWinner(b);
  }

  lemma Score_OeX_eeX_OeX_AI(b: Board)
    requires b.grid == [[1, 0, -1], [0, 0, -1], [1, 0, -1]]
    ensures Score(b, AI) == -1
  {
    Winner_OeX_eeX_OeX(b);
  }

  lemma Winner_OeX_eee_OeX(b: Board)
    requires b.grid == [[1, 0, -1], [0, 0, 0], [1, 0, -1]]
    ensures Winner(b) == BLANK
  {
    WinnerIsEightLineWinner(b);
  }

  lemma Score_OeX_eee_OeX_Human(b: Board)
    requires b.grid == [[1, 0, -1], [0, 0, 0], [1, 0, -1]]
    ensures Score(b, HUMAN) == -1
  {
    Moves_OeX_eee_OeX(b);
    assert MoveScore(b, (1, 2), HUMAN) == -1 by {
      PlaceYields(b, (1, 2), HUMAN, [[1, 0, -1], [0, 0, -1], [1, 0, -1]]); Score_OeX_eeX_OeX_AI(Place(b, (1, 2), HUMAN));
    }
    Winner_OeX_eee_OeX(b);
    ScoreOfWinningMove(b, HUMAN, (1, 2));
  }

  lemma Moves_OeX_eee_eOX(b: Board)
    requires b.grid == [[1, 0, -1], [0, 0, 0], [0, 1, -1]]
    ensures RemainingMoves(b) == [(0, 1), (1, 0), (1, 1), (1, 2), (2, 0)]
  {
    RemainingMovesAre(b, [(0, 1), (1, 0), (1, 1), (1, 2), (2, 0)]);
  }

  lemma Winner_OeX_eeX_eOX(b: Board)
    requires b.grid == [[1, 0, -1], [0, 0, -1], [0, 1, -1]]
    ensures Winner(b) == HUMAN
  {
    WinnerIsEightLineWinner(b);
  }

  lemma Score_OeX_eeX_eOX_AI(b: Board)
    requires b.grid == [[1, 0, -1], [0, 0, -1], [0, 1, -1]]
    ensures Score(b, AI) == -1
  {
    Winner_OeX_eeX_eOX(b);
  }

  lemma Winner_OeX_eee_eOX(b: Board)
    requires b.grid == [[1, 0, -1], [0, 0, 0], [0, 1, -1]]
    ensures Winner(b) == BLANK
  {
    WinnerIsEightLineWinner(b);
  }

  lemma Score_OeX_eee_eOX_Human(b: Board)
    requires b.grid == [[1, 0, -1], [0, 0, 0], [0, 1, -1]]
    ensures Score(b, HUMAN) == -1
  {
    Moves_OeX_eee_eOX(b);
    assert MoveScore(b, (1, 2), HUMAN) == -1 by {
      PlaceYields(b, (1, 2), HUMAN, [[1, 0, -1], [0, 0, -1], [0, 1, -1]]); Score_OeX_eeX_eOX_AI(Place(b, (1, 2), HUMAN));
    }
    Winner_OeX_eee_eOX(b);
    ScoreOfWinningMove(b, HUMAN, (1, 2));
  }

  lemma Winner_OeX_eee_eeX(b: Board)
    requires b.grid == [[1, 0, -1], [0, 0, 0], [0, 0, -1]]
    ensures Winner(b) == BLANK
  {
    WinnerIsEightLineWinner(b);
  }

  lemma Score_OeX_eee_eeX_AI(b: Board)
    requires b.grid == [[1, 0, -1], [0, 0, 0], [0, 0, -1]]
    ensures Score(b, AI) == -1
  {
    Moves_OeX_eee_eeX(b);
    var s := [-1, -1, -1, -1, -1, -1];
    forall i | 0 <= i < 6
      ensures MoveScore(b, RemainingMoves(b)[i], AI) == s[i]
    {
      if i == 0 { PlaceYields(b, (0, 1), AI, [[1, 1, -1], [0, 0, 0], [0, 0, -1]]); Score_OOX_eee_eeX_Human(Place(b, (0, 1), AI)); }
      else if i == 1 { PlaceYields(b, (1, 0), AI, [[1, 0, -1], [1, 0, 0], [0, 0, -1]]); Score_OeX_Oee_eeX_Human(Place(b, (1, 0), AI)); }
      else if i == 2 { PlaceYields(b, (1, 1), AI, [[1, 0, -1], [0, 1, 0], [0, 0, -1]]); Score_OeX_eOe_eeX_Human(Place(b, (1, 1), AI)); }
      else if i == 3 { PlaceYields(b, (1, 2), AI, [[1, 0, -1], [0, 0, 1], [0, 0, -1]]); Score_OeX_eeO_eeX_Human(Place(b, (1, 2), AI)); }
      else if i == 4 { PlaceYields(b, (2, 0), AI, [[1, 0, -1], [0, 0, 0], [1, 0, -1]]); Score_OeX_eee_OeX_Human(Place(b, (2, 0), AI)); }
      else { PlaceYields(b, (2, 1), AI, [[1, 0, -1], [0, 0, 0], [0, 1, -1]]); Score_OeX_eee_eOX_Human(Place(b, (2, 1), AI)); }
    }
    Winner_OeX_eee_eeX(b);
    ScoreOfMoveScores(b, AI, s);
  }

  lemma Score_Oee_eee_eeX_Human(b: Board)
    requires b.grid == [[1, 0, 0], [0, 0, 0], [0, 0, -1]]
    ensures Score(b, HUMAN) == -1
  {
    Moves_Oee_eee_eeX(b);
    assert MoveScore(b, (0, 2), HUMAN) == -1 by {
      PlaceYields(b, (0, 2), HUMAN, [[1, 0, -1], [0, 0, 0], [0, 0, -1]]); Score_OeX_eee_eeX_AI(Place(b, (0, 2), HUMAN));
    }
    Winner_Oee_eee_eeX(b);
    ScoreOfWinningMove(b, HUMAN, (0, 2));
  }

  /** `test_board_1`: the AI holds the top row. */
  lemma TestBoard1Winner(b: Board)
    requires b.grid == [[1, 1, 1], [0, -1, 0], [-1, 0, 0]]
    ensures Winner(b) == AI
  {
    Winner_OOO_eXe_Xee(b);
  }

  /** `test_board_6` (the second of the two boards bound to that name): no line is complete. */
  lemma TestBoard6Winner(b: Board)
    requires b.grid == [[1, 0, 0], [0, 0, 0], [0, 0, -1]]
    ensures Winner(b) == BLANK
  {
    Winner_Oee_eee_eeX(b);
  }

  /** `test_board_4`, AI to move: (1, 1) only draws, (1, 2) wins. */
  lemma TestBoard4MoveScoresAI(b: Board)
    requires b.grid == [[-1, -1, 1], [1, 0, 0], [-1, 1, 0]]
    ensures (1, 1) in RemainingMoves(b) && (1, 2) in RemainingMoves(b)
    ensures MoveScore(b, (1, 1), AI) == 0 && MoveScore(b, (1, 2), AI) == 1
  {
    Moves_XXO_Oee_XOe(b);
    assert MoveScore(b, (1, 1), AI) == 0 by {
      PlaceYields(b, (1, 1), AI, [[-1, -1, 1], [1, 1, 0], [-1, 1, 0]]);
      Score_XXO_OOe_XOe_Human(Place(b, (1, 1), AI));
    }
    PlaceYields(b, (1, 2), AI, [[-1, -1, 1], [1, 0, 1], [-1, 1, 0]]);
    Score_XXO_OeO_XOe_Human(Place(b, (1, 2), AI));
  }

  /**
   * `test_board_4`, AI to move: the second remaining move is the first one
   * that keeps the position's score.
   */
  lemma TestBoard4BestMoveAI(b: Board)
    requires b.grid == [[-1, -1, 1], [1, 0, 0], [-1, 1, 0]]
    ensures BestMove(b, AI) == Some((1, 2))
  {
    Moves_XXO_Oee_XOe(b);
    TestBoard4MoveScoresAI(b);
    assert Score(b, AI) == 1 by {
      Score_XXO_Oee_XOe_AI(b);
    }
    assert MoveScore(b, RemainingMoves(b)[1], AI) == Score(b, AI);
    assert forall j :: 0 <= j < 1 ==> MoveScore(b, RemainingMoves(b)[j], AI) != Score(b, AI);
    BestMoveIsTheFirstOptimal(b, AI, 1);
  }

  /** `test_board_4`, human to move: the position is a draw and (1, 1), the first move, keeps it one. */
  lemma TestBoard4BestMoveHuman(b: Board)
    requires b.grid == [[-1, -1, 1], [1, 0, 0], [-1, 1, 0]]
    ensures BestMove(b, HUMAN) == Some((1, 1))
  {
    Moves_XXO_Oee_XOe(b);
    assert MoveScore(b, (1, 1), HUMAN) == 0 by {
      PlaceYields(b, (1, 1), HUMAN, [[-1, -1, 1], [1, -1, 0], [-1, 1, 0]]);
      Score_XXO_OXe_XOe_AI(Place(b, (1, 1), HUMAN));
    }
    assert Score(b, HUMAN) == 0 by {
      Score_XXO_Oee_XOe_Human(b);
    }
    assert MoveScore(b, RemainingMoves(b)[0], HUMAN) == Score(b, HUMAN);
    BestMoveIsTheFirstOptimal(b, HUMAN, 0);
  }

  /** `test_board_6`, AI to move: the AI forces a win. */
  lemma TestBoard6ScoreAI(b: Board)
    requires b.grid == [[1, 0, 0], [0, 0, 0], [0, 0, -1]]
    ensures Score(b, AI) == 1
  {
    Score_Oee_eee_eeX_AI(b);
  }

  /** `test_board_6`, human to move: the human forces a win. */
  lemma TestBoard6ScoreHuman(b: Board)
    requires b.grid == [[1, 0, 0], [0, 0, 0], [0, 0, -1]]
    ensures Score(b, HUMAN) == -1
  {
    Score_Oee_eee_eeX_Human(b);
  }

  /**
   * `run_tests`: a fresh player and the six checks made on the test
   * boards, each result returned and pinned down.
   */
  method RunTests() returns (winner6: int, winner1: int, move4AI: Option<Coord>, move4Human: Option<Coord>, score6AI: int, score6Human: int)
    ensures winner6 == BLANK && winner1 == AI
    ensures move4AI == Some((1, 2)) && move4Human == Some((1, 1))
    ensures score6AI == 1 && score6Human == -1
  {
    var testBoard1 := Board([[1, 1, 1], [0, -1, 0], [-1, 0, 0]]);
    var testBoard4 := Board([[-1, -1, 1], [1, 0, 0], [-1, 1, 0]]);
    var testBoard6 := Board([[1, 0, 0], [0, 0, 0], [0, 0, -1]]);
    var aiPlayer := new AIPlayer();
    winner6 := WinnerOnBoard(testBoard6);
    TestBoard6Winner(testBoard6);
    winner1 := WinnerOnBoard(testBoard1);
    TestBoard1Winner(testBoard1);
    move4AI := aiPlayer.BestNextMove(testBoard4, AI);
    TestBoard4BestMoveAI(testBoard4);
    move4Human := aiPlayer.BestNextMove(testBoard4, HUMAN);
    TestBoard4BestMoveHuman(testBoard4);
    score6AI := aiPlayer.ScorePosn(testBoard6, AI);
    TestBoard6ScoreAI(testBoard6);
    score6Human := aiPlayer.ScorePosn(testBoard6, HUMAN);
    TestBoard6ScoreHuman(testBoard6);
  }
}
