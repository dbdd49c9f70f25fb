/**
 * The immutable 3x3 board (class `TicTacToeBoard`): a grid of integers,
 * its blank cells in row-major order, bounds checks, committing a move to
 * a fresh board, and win detection along the eight lines.
 */
module TicTacToeBoard {
  import opened Wrappers
  import opened PlayerTypes

  /** `board_len`: the side of the square board. */
  const N: int := 3

  /** A `(row, column)` coordinate; any integers, checked by `FailsBoundaries`. */
  type Coord = (int, int)

  predicate IsGrid(g: seq<seq<int>>) {
    |g| == N && forall i | 0 <= i < N :: |g[i]| == N
  }

  /** The tuple of row tuples that the source keeps in `self.board`. */
  type Grid = g: seq<seq<int>> | IsGrid(g) witness [[0, 0, 0], [0, 0, 0], [0, 0, 0]]

  predicate InBounds(c: Coord) {
    0 <= c.0 < N && 0 <= c.1 < N
  }

  /** A board is a value: two boards are equal exactly when their grids are. */
  datatype Board = Board(grid: Grid) {
    function At(c: Coord): int
      requires InBounds(c)
    {
      grid[c.0][c.1]
    }
  }

  /** The all-blank board that `TicTacToeBoard()` starts from. */
  function DefaultBoard(): (b: Board)
    ensures forall c :: InBounds(c) ==> b.At(c) == BLANK
  {
    var defaultRow := seq(N, _ => BLANK);
    Board(seq(N, _ => defaultRow))
  }

  // ---------------------------------------------------------------------
  // Coordinates and their row-major enumeration
  // ---------------------------------------------------------------------

  /** `fails_boundaries`: a coordinate fails when either part lies outside `range(0, board_len)`. */
  function FailsBoundaries(c: Coord): (r: bool)
    ensures r <==> !InBounds(c)
  {
    var legalIdxRange := IdxRange(N);
    !(c.0 in legalIdxRange && c.1 in legalIdxRange)
  }

  /** `set(range(0, n))`. */
  function IdxRange(n: nat): (r: set<int>)
    ensures forall i :: i in r <==> 0 <= i < n
  {
    if n == 0 then {} else IdxRange(n - 1) + {n - 1}
  }

  /** The position of a cell in row-major order. */
  function Index(c: Coord): int {
    c.0 * N + c.1
  }

  /** Strictly increasing in row-major order, hence also free of repetitions. */
  predicate RowMajor(s: seq<Coord>) {
    forall i, j :: 0 <= i < j < |s| ==> Index(s[i]) < Index(s[j])
  }

  /** `itertools.product(range(board_len), range(board_len))`. */
  function Cells(): (cs: seq<Coord>)
    ensures |cs| == N * N
    ensures forall k :: 0 <= k < |cs| ==> InBounds(cs[k]) && Index(cs[k]) == k
  {
    seq(N * N, k => (k / N, k % N))
  }

  /** The enumeration lists every cell on the board, each once, in row-major order. */
  lemma CellsEnumerateBoard()
    ensures forall c :: c in Cells() <==> InBounds(c)
    ensures RowMajor(Cells())
  {
    var cs := Cells();
    forall c | InBounds(c)
      ensures c in cs
    {
      var k := Index(c);
      assert cs[k] == c;
    }
  }

  /** The cells of `cs` that are blank on `b`, in the order of `cs`. */
  function BlankAmong(b: Board, cs: seq<Coord>): (r: seq<Coord>)
    requires forall i :: 0 <= i < |cs| ==> InBounds(cs[i])
    ensures |r| <= |cs|
    ensures forall i :: 0 <= i < |r| ==> InBounds(r[i]) && b.At(r[i]) == BLANK
    ensures forall c :: c in r <==> c in cs && InBounds(c) && b.At(c) == BLANK
    ensures RowMajor(cs) ==> RowMajor(r)
  {
    if cs == [] then []
    else
      var rest := BlankAmong(b, cs[1..]);
      if b.At(cs[0]) == BLANK then
        assert RowMajor(cs) ==> RowMajor([cs[0]] + rest) by {
          if RowMajor(cs) {
            assert RowMajor(cs[1..]);
            RowMajorCons(cs, rest);
          }
        }
        [cs[0]] + rest
      else rest
  }

  /** A row-major list stays row-major when its first cell is put before cells taken from its tail. */
  lemma RowMajorCons(cs: seq<Coord>, rest: seq<Coord>)
    requires cs != [] && RowMajor(cs) && RowMajor(rest)
    requires forall c :: c in rest ==> c in cs[1..]
    ensures RowMajor([cs[0]] + rest)
  {
    var t := [cs[0]] + rest;
    forall i, j | 0 <= i < j < |t|
      ensures Index(t[i]) < Index(t[j])
    {
      assert t[j] == rest[j - 1];
      if i == 0 {
        assert t[j] in cs[1..];
        var k :| 0 <= k < |cs[1..]| && cs[1..][k] == t[j];
        assert cs[k + 1] == t[j];
      } else {
        assert t[i] == rest[i - 1];
      }
    }
  }

  /**
   * `remaining_moves`: exactly the blank cells, each once, in row-major
   * order.
   */
  function RemainingMoves(b: Board): (moves: seq<Coord>)
    ensures forall c :: c in moves <==> InBounds(c) && b.At(c) == BLANK
    ensures RowMajor(moves)
    ensures |moves| <= N * N
  {
    CellsEnumerateBoard();
    BlankAmong(b, Cells())
  }

  lemma {:induction false} BlankAmongAllBlank(b: Board, cs: seq<Coord>)
    requires forall i :: 0 <= i < |cs| ==> InBounds(cs[i]) && b.At(cs[i]) == BLANK
    ensures BlankAmong(b, cs) == cs
  {
    if cs != [] {
      BlankAmongAllBlank(b, cs[1..]);
    }
  }

  /** On the default board every one of the nine cells is a remaining move. */
  lemma RemainingMovesOfDefaultBoard()
    ensures RemainingMoves(DefaultBoard()) == Cells()
    ensures |RemainingMoves(DefaultBoard())| == N * N
  {
    BlankAmongAllBlank(DefaultBoard(), Cells());
  }

  /** Two row-major lists with the same cells start with the same cell. */
  lemma RowMajorHeads(xs: seq<Coord>, ys: seq<Coord>)
    requires RowMajor(xs) && RowMajor(ys)
    requires forall c :: c in xs <==> c in ys
    requires xs != []
    ensures ys != [] && xs[0] == ys[0]
  {
    assert xs[0] in ys;
    assert ys[0] in xs;
    var i :| 0 <= i < |ys| && ys[i] == xs[0];
    var j :| 0 <= j < |xs| && xs[j] == ys[0];
    assert Index(xs[0]) <= Index(xs[j]);
    assert Index(ys[0]) <= Index(ys[i]);
    assert i == 0;
  }

  /** Two row-major lists with the same cells and the same first cell agree on the rest. */
  lemma RowMajorTails(xs: seq<Coord>, ys: seq<Coord>)
    requires RowMajor(xs) && RowMajor(ys)
    requires forall c :: c in xs <==> c in ys
    requires xs != [] && ys != [] && xs[0] == ys[0]
    ensures forall c :: c in xs[1..] <==> c in ys[1..]
  {
    forall c ensures c in xs[1..] <==> c in ys[1..] {
      if c in xs[1..] {
        var k :| 1 <= k < |xs| && xs[k] == c;
        assert Index(xs[0]) < Index(xs[k]);
        assert c in ys;
      }
      if c in ys[1..] {
        var k :| 1 <= k < |ys| && ys[k] == c;
        assert Index(ys[0]) < Index(ys[k]);
        assert c in xs;
      }
    }
  }

  lemma {:induction false} RowMajorUnique(xs: seq<Coord>, ys: seq<Coord>)
    requires RowMajor(xs) && RowMajor(ys)
    requires forall c :: c in xs <==> c in ys
    ensures xs == ys
    decreases |xs|
  {
    assert ys != [] ==> ys[0] in xs;
    if xs != [] {
      RowMajorHeads(xs, ys);
      RowMajorTails(xs, ys);
      RowMajorUnique(xs[1..], ys[1..]);
      assert xs == [xs[0]] + xs[1..];
      assert ys == [ys[0]] + ys[1..];
    }
  }

  /**
   * The remaining moves are pinned down by what they contain and their
   * order: any row-major list of exactly the blank cells is that list.
   */
  lemma RemainingMovesAre(b: Board, ms: seq<Coord>)
    requires RowMajor(ms)
    requires forall c :: c in ms <==> InBounds(c) && b.At(c) == BLANK
    ensures RemainingMoves(b) == ms
  {
    RowMajorUnique(RemainingMoves(b), ms);
  }

  /** `is_occupied_square`: a cell on the board is occupied iff it is not a remaining move. */
  function IsOccupiedSquare(b: Board, c: Coord): (r: bool)
    requires InBounds(c)
    ensures r <==> c !in RemainingMoves(b)
    ensures r <==> b.At(c) != BLANK
  {
    b.grid[c.0][c.1] != 0
  }

  // ---------------------------------------------------------------------
  // Committing a move
  // ---------------------------------------------------------------------

  /** The board that results from writing `p` into cell `m`. */
  function Place(b: Board, m: Coord, p: int): (r: Board)
    requires InBounds(m)
    ensures r.At(m) == p
    ensures forall c :: InBounds(c) && c != m ==> r.At(c) == b.At(c)
  {
    Board(b.grid[m.0 := b.grid[m.0][m.1 := p]])
  }

  /** `map(lambda row: list(row), board)`: a mutable copy of the grid. */
  method GridToArray(g: Grid) returns (a: array2<int>)
    ensures fresh(a) && a.Length0 == N && a.Length1 == N
    ensures forall i, j :: 0 <= i < N && 0 <= j < N ==> a[i, j] == g[i][j]
  {
    a := new int[N, N];
    for y := 0 to N
      invariant forall i, j :: 0 <= i < y && 0 <= j < N ==> a[i, j] == g[i][j]
    {
      for x := 0 to N
        invariant forall i, j :: 0 <= i < y && 0 <= j < N ==> a[i, j] == g[i][j]
        invariant forall j :: 0 <= j < x ==> a[y, j] == g[y][j]
      {
        a[y, x] := g[y][x];
      }
    }
  }

  /** `tuple(map(lambda row: tuple(row), board_as_list))`: the copy frozen back into a grid. */
  method ArrayToGrid(a: array2<int>) returns (g: Grid)
    requires a.Length0 == N && a.Length1 == N
    ensures forall i, j :: 0 <= i < N && 0 <= j < N ==> g[i][j] == a[i, j]
  {
    var rows: seq<seq<int>> := [];
    for y := 0 to N
      invariant |rows| == y
      invariant forall i :: 0 <= i < y ==> |rows[i]| == N
      invariant forall i, j :: 0 <= i < y && 0 <= j < N ==> rows[i][j] == a[i, j]
    {
      var row: seq<int> := [];
      for x := 0 to N
        invariant |row| == x
        invariant forall j :: 0 <= j < x ==> row[j] == a[y, j]
      {
        row := row + [a[y, x]];
      }
      rows := rows + [row];
    }
    g := rows;
  }

  /**
   * `commit_move`: copy the grid into a mutable list of lists, write the
   * move, and freeze the copy into a fresh board. The source asserts that
   * `m` is a remaining move; `b` itself is a value and cannot change.
   */
  method CommitMove(b: Board, m: Coord, p: int) returns (r: Board)
    requires m in RemainingMoves(b)
    ensures r == Place(b, m, p)
  {
    assert InBounds(m);
    var boardAsList := GridToArray(b.grid);
    boardAsList[m.0, m.1] := p;
    var newBoard := ArrayToGrid(boardAsList);
    r := Board(newBoard);
    var placed := Place(b, m, p);
    assert r.grid == placed.grid by {
      forall i | 0 <= i < N
        ensures r.grid[i] == placed.grid[i]
      {
        assert forall j :: 0 <= j < N ==> r.grid[i][j] == placed.At((i, j));
      }
    }
  }

  /** `Without(s, x)`: the list `s` with every occurrence of `x` taken out. */
  function Without(s: seq<Coord>, x: Coord): (r: seq<Coord>)
    ensures forall c :: c in r <==> c in s && c != x
  {
    if s == [] then []
    else if s[0] == x then Without(s[1..], x)
    else [s[0]] + Without(s[1..], x)
  }

  lemma {:induction false} WithoutAbsent(s: seq<Coord>, x: Coord)
    requires x !in s
    ensures Without(s, x) == s
  {
    if s != [] {
      WithoutAbsent(s[1..], x);
    }
  }

  lemma {:induction false} WithoutOnce(s: seq<Coord>, x: Coord)
    requires x in s && RowMajor(s)
    ensures |Without(s, x)| == |s| - 1
  {
    if s[0] == x {
      assert x !in s[1..] by {
        forall k | 1 <= k < |s|
          ensures s[k] != x
        {
          assert Index(s[0]) < Index(s[k]);
        }
      }
      WithoutAbsent(s[1..], x);
    } else {
      WithoutOnce(s[1..], x);
    }
  }

  lemma {:induction false} BlankAmongPlace(b: Board, m: Coord, p: int, cs: seq<Coord>)
    requires InBounds(m) && b.At(m) == BLANK && p != BLANK
    requires forall i :: 0 <= i < |cs| ==> InBounds(cs[i])
    ensures BlankAmong(Place(b, m, p), cs) == Without(BlankAmong(b, cs), m)
  {
    if cs != [] {
      BlankAmongPlace(b, m, p, cs[1..]);
    }
  }

  /**
   * Committing a remaining move as a player removes exactly that move from
   * the remaining moves, and nothing else.
   */
  lemma CommitMoveRemaining(b: Board, m: Coord, p: int)
    requires m in RemainingMoves(b) && p != BLANK
    ensures RemainingMoves(Place(b, m, p)) == Without(RemainingMoves(b), m)
    ensures |RemainingMoves(Place(b, m, p))| == |RemainingMoves(b)| - 1
  {
    CellsEnumerateBoard();
    BlankAmongPlace(b, m, p, Cells());
    WithoutOnce(RemainingMoves(b), m);
  }

  // ---------------------------------------------------------------------
  // Win detection
  // ---------------------------------------------------------------------

  /** The step directions the source walks: every one moves strictly forward. */
  predicate StepAdvances(yStep: int, xStep: int) {
    (xStep == 1 && -1 <= yStep <= 1) || (xStep == 0 && yStep == 1)
  }

  /**
   * `grid_path_generator`: the cells from `pos` onwards, one step at a
   * time, up to the first coordinate that fails the boundaries.
   */
  function GridPath(yStep: int, xStep: int, pos: Coord): (path: seq<Coord>)
    requires StepAdvances(yStep, xStep)
    ensures forall i :: 0 <= i < |path| ==> InBounds(path[i])
    ensures InBounds(pos) ==> |path| > 0 && path[0] == pos
    decreases if xStep == 1 then N - pos.1 else N - pos.0
  {
    if FailsBoundaries(pos) then []
    else [pos] + GridPath(yStep, xStep, (pos.0 + yStep, pos.1 + xStep))
  }

  /** `k` steps of size `step`, for the step sizes a walk takes, written without a product. */
  function Steps(k: int, step: int): int
    requires -1 <= step <= 1
  {
    if step == 1 then k else if step == 0 then 0 else -k
  }

  /** One step more adds one `step`. */
  lemma StepsSucc(k: int, step: int)
    requires -1 <= step <= 1
    ensures Steps(k, step) == step + Steps(k - 1, step)
  {
  }

  /** `Steps` is the product it stands for. */
  lemma StepsIsProduct(k: int, step: int)
    requires -1 <= step <= 1
    ensures Steps(k, step) == k * step
  {
  }

  /** A walk from an on-board position is that position followed by the walk from the next one. */
  lemma GridPathUnfold(yStep: int, xStep: int, pos: Coord)
    requires StepAdvances(yStep, xStep)
    requires |GridPath(yStep, xStep, pos)| > 0
    ensures InBounds(pos)
    ensures GridPath(yStep, xStep, pos) == [pos] + GridPath(yStep, xStep, (pos.0 + yStep, pos.1 + xStep))
  {
  }

  /** Cell `i` of a walk from an on-board position is cell `i - 1` of the walk from the next one. */
  lemma GridPathShift(yStep: int, xStep: int, pos: Coord, i: int)
    requires StepAdvances(yStep, xStep)
    requires 1 <= i < |GridPath(yStep, xStep, pos)|
    ensures var next := (pos.0 + yStep, pos.1 + xStep);
      && i - 1 < |GridPath(yStep, xStep, next)|
      && GridPath(yStep, xStep, pos)[i].0 == GridPath(yStep, xStep, next)[i - 1].0
      && GridPath(yStep, xStep, pos)[i].1 == GridPath(yStep, xStep, next)[i - 1].1
  {
    GridPathUnfold(yStep, xStep, pos);
  }

  /** Cell `i` of a walk is the start moved `i` steps. */
  lemma {:induction false} GridPathCell(yStep: int, xStep: int, pos: Coord, i: int)
    requires StepAdvances(yStep, xStep)
    requires 0 <= i < |GridPath(yStep, xStep, pos)|
    ensures GridPath(yStep, xStep, pos)[i].0 == pos.0 + Steps(i, yStep)
    ensures GridPath(yStep, xStep, pos)[i].1 == pos.1 + Steps(i, xStep)
    decreases i
  {
    if i > 0 {
      var next := (pos.0 + yStep, pos.1 + xStep);
      GridPathShift(yStep, xStep, pos, i);
      GridPathCell(yStep, xStep, next, i - 1);
      StepsSucc(i, yStep);
      StepsSucc(i, xStep);
    } else {
      GridPathUnfold(yStep, xStep, pos);
    }
  }

  /** A walk stops at the first position, `|path|` steps from the start, that fails the boundaries. */
  lemma {:induction false} GridPathEnd(yStep: int, xStep: int, pos: Coord)
    requires StepAdvances(yStep, xStep)
    ensures var path := GridPath(yStep, xStep, pos);
      FailsBoundaries((pos.0 + |path| * yStep, pos.1 + |path| * xStep))
    decreases if xStep == 1 then N - pos.1 else N - pos.0
  {
    if InBounds(pos) {
      var next := (pos.0 + yStep, pos.1 + xStep);
      var k := |GridPath(yStep, xStep, next)|;
      assert |GridPath(yStep, xStep, pos)| == k + 1 by {
        GridPathUnfold(yStep, xStep, pos);
      }
      GridPathEnd(yStep, xStep, next);
      StepsIsProduct(k, yStep);
      StepsIsProduct(k, xStep);
      StepsIsProduct(k + 1, yStep);
      StepsIsProduct(k + 1, xStep);
    }
  }

  /**
   * The walk itself: cell `i` is `pos` moved `i` steps, and the walk ends
   * at the first position that fails the boundaries.
   */
  lemma GridPathWalk(yStep: int, xStep: int, pos: Coord)
    requires StepAdvances(yStep, xStep)
    ensures var path := GridPath(yStep, xStep, pos);
      forall i :: 0 <= i < |path| ==> path[i].0 == pos.0 + i * yStep && path[i].1 == pos.1 + i * xStep
    ensures var path := GridPath(yStep, xStep, pos);
      FailsBoundaries((pos.0 + |path| * yStep, pos.1 + |path| * xStep))
  {
    var path := GridPath(yStep, xStep, pos);
    forall i | 0 <= i < |path|
      ensures path[i].0 == pos.0 + i * yStep && path[i].1 == pos.1 + i * xStep
    {
      GridPathCell(yStep, xStep, pos, i);
      StepsIsProduct(i, yStep);
      StepsIsProduct(i, xStep);
    }
    GridPathEnd(yStep, xStep, pos);
  }

  /** The paths of `winner_on_board`: the columns, the rows, then the two diagonals. */
  function WinPaths(): (paths: seq<seq<Coord>>)
    ensures OnBoard(paths)
  {
    var colPaths := seq(N, x => GridPath(1, 0, (0, x)));
    var rowPaths := seq(N, y => GridPath(0, 1, (y, 0)));
    var diagonalPaths := [GridPath(1, 1, (0, 0)), GridPath(-1, 1, (N - 1, 0))];
    colPaths + rowPaths + diagonalPaths
  }

  lemma ColumnPath(x: int)
    requires 0 <= x < N
    ensures GridPath(1, 0, (0, x)) == [(0, x), (1, x), (2, x)]
  {
    assert GridPath(1, 0, (3, x)) == [];
    assert GridPath(1, 0, (2, x)) == [(2, x)];
    assert GridPath(1, 0, (1, x)) == [(1, x), (2, x)];
  }

  lemma RowPath(y: int)
    requires 0 <= y < N
    ensures GridPath(0, 1, (y, 0)) == [(y, 0), (y, 1), (y, 2)]
  {
    assert GridPath(0, 1, (y, 3)) == [];
    assert GridPath(0, 1, (y, 2)) == [(y, 2)];
    assert GridPath(0, 1, (y, 1)) == [(y, 1), (y, 2)];
  }

  lemma DiagonalPaths()
    ensures GridPath(1, 1, (0, 0)) == [(0, 0), (1, 1), (2, 2)]
    ensures GridPath(-1, 1, (N - 1, 0)) == [(2, 0), (1, 1), (0, 2)]
  {
    assert GridPath(1, 1, (3, 3)) == [];
    assert GridPath(1, 1, (2, 2)) == [(2, 2)];
    assert GridPath(1, 1, (1, 1)) == [(1, 1), (2, 2)];
    assert GridPath(-1, 1, (-1, 3)) == [];
    assert GridPath(-1, 1, (0, 2)) == [(0, 2)];
    assert GridPath(-1, 1, (1, 1)) == [(1, 1), (0, 2)];
  }

  /** The eight lines written out; each has exactly `board_len` cells on the board. */
  lemma WinPathsAreTheEightLines()
    ensures WinPaths() == [
      [(0, 0), (1, 0), (2, 0)], [(0, 1), (1, 1), (2, 1)], [(0, 2), (1, 2), (2, 2)],
      [(0, 0), (0, 1), (0, 2)], [(1, 0), (1, 1), (1, 2)], [(2, 0), (2, 1), (2, 2)],
      [(0, 0), (1, 1), (2, 2)], [(2, 0), (1, 1), (0, 2)]]
    ensures forall k :: 0 <= k < |WinPaths()| ==> |WinPaths()[k]| == N
  {
    ColumnPath(0); ColumnPath(1); ColumnPath(2);
    RowPath(0); RowPath(1); RowPath(2);
    DiagonalPaths();
  }

  /** `path` is a line all of whose cells hold `v`. */
  predicate Holds(b: Board, path: seq<Coord>, v: int)
    requires forall i :: 0 <= i < |path| ==> InBounds(path[i])
  {
    forall i :: 0 <= i < |path| ==> b.At(path[i]) == v
  }

  /** `winner_on_path`: the AI if the whole path is the AI's, else the human if it is the human's, else blank. */
  function WinnerOnPath(b: Board, path: seq<Coord>): (w: int)
    requires forall i :: 0 <= i < |path| ==> InBounds(path[i])
    ensures w == BLANK || w == AI || w == HUMAN
    ensures w != BLANK ==> Holds(b, path, w)
    ensures path != [] ==> (w == BLANK <==> !Holds(b, path, AI) && !Holds(b, path, HUMAN))
  {
    if forall i :: 0 <= i < |path| ==> b.At(path[i]) == AI then AI
    else if forall i :: 0 <= i < |path| ==> b.At(path[i]) == HUMAN then HUMAN
    else BLANK
  }

  /** Every cell of every path is on the board. */
  predicate OnBoard(paths: seq<seq<Coord>>) {
    forall k, i :: 0 <= k < |paths| && 0 <= i < |paths[k]| ==> InBounds(paths[k][i])
  }

  /** The first non-blank `WinnerOnPath` along `paths`, or blank. */
  function FirstWinner(b: Board, paths: seq<seq<Coord>>): (w: int)
    requires OnBoard(paths)
    ensures w == BLANK || w == AI || w == HUMAN
  {
    if paths == [] then BLANK
    else if WinnerOnPath(b, paths[0]) != BLANK then WinnerOnPath(b, paths[0])
    else FirstWinner(b, paths[1..])
  }

  /** The value `winner_on_board` computes. */
  function Winner(b: Board): (w: int)
    ensures w == BLANK || w == AI || w == HUMAN
  {
    WinPathsAreTheEightLines();
    FirstWinner(b, WinPaths())
  }

  /**
   * `winner_on_board`: walk the paths in order and stop at the first one
   * that has a winner.
   */
  method WinnerOnBoard(b: Board) returns (winner: int)
    ensures winner == Winner(b)
  {
    WinPathsAreTheEightLines();
    var paths := WinPaths();
    winner := 0;
    var i := 0;
    while i < |paths|
      invariant 0 <= i <= |paths|
      invariant FirstWinner(b, paths[i..]) == FirstWinner(b, paths)
    {
      var pWinner := WinnerOnPath(b, paths[i]);
      if pWinner != 0 {
        winner := pWinner;
        break;
      }
      assert paths[i..][1..] == paths[i + 1..];
      i := i + 1;
    }
  }

  lemma {:induction false} FirstWinnerSpec(b: Board, paths: seq<seq<Coord>>)
    requires OnBoard(paths)
    requires forall k :: 0 <= k < |paths| ==> paths[k] != []
    ensures var w := FirstWinner(b, paths);
      (w == BLANK || w == AI || w == HUMAN) &&
      (w == BLANK <==> forall k :: 0 <= k < |paths| ==> !Holds(b, paths[k], AI) && !Holds(b, paths[k], HUMAN)) &&
      (w != BLANK ==> exists k :: 0 <= k < |paths| && Holds(b, paths[k], w) &&
                       forall j :: 0 <= j < k ==> WinnerOnPath(b, paths[j]) == BLANK)
  {
    if paths != [] {
      FirstWinnerSpec(b, paths[1..]);
      var w := FirstWinner(b, paths);
      if WinnerOnPath(b, paths[0]) == BLANK && w != BLANK {
        var k :| 0 <= k < |paths[1..]| && Holds(b, paths[1..][k], w) &&
                 forall j :: 0 <= j < k ==> WinnerOnPath(b, paths[1..][j]) == BLANK;
        assert Holds(b, paths[k + 1], w);
        assert forall j :: 0 <= j < k + 1 ==> WinnerOnPath(b, paths[j]) == BLANK by {
          forall j | 0 <= j < k + 1
            ensures WinnerOnPath(b, paths[j]) == BLANK
          {
            if j > 0 {
              assert paths[j] == paths[1..][j - 1];
            }
          }
        }
      }
    }
  }

  /**
   * The winner is the AI or the human exactly when some line holds three
   * of that player's marks, and it is then the first such line in scan
   * order; otherwise it is blank.
   */
  lemma WinnerSpec(b: Board)
    ensures Winner(b) == BLANK || Winner(b) == AI || Winner(b) == HUMAN
    ensures Winner(b) == BLANK <==>
      forall k :: 0 <= k < |WinPaths()| ==> !Holds(b, WinPaths()[k], AI) && !Holds(b, WinPaths()[k], HUMAN)
    ensures Winner(b) != BLANK ==>
      exists k :: 0 <= k < |WinPaths()| && Holds(b, WinPaths()[k], Winner(b)) &&
        forall j :: 0 <= j < k ==> WinnerOnPath(b, WinPaths()[j]) == BLANK
  {
    WinPathsAreTheEightLines();
    FirstWinnerSpec(b, WinPaths());
  }

  // ---------------------------------------------------------------------
  // Rendering
  // ---------------------------------------------------------------------

  /** The glyphs of `row`, each followed by a bar; `None` if a cell holds no cell state. */
  function CellsText(row: seq<int>): (r: Option<string>)
    ensures r.Some? <==> forall j :: 0 <= j < |row| ==> PlayerToAvatar(row[j]).Some?
    ensures r.Some? ==> |r.value| == 2 * |row|
    ensures r.Some? ==> forall j :: 0 <= j < |row| ==> r.value[2 * j] == PlayerToAvatar(row[j]).value && r.value[2 * j + 1] == '|'
  {
    if row == [] then Some([])
    else
      var rest := CellsText(row[1..]);
      var glyph := PlayerToAvatar(row[0]);
      if glyph.Some? && rest.Some? then
        GlyphsCons(row, glyph.value, rest.value);
        Some([glyph.value, '|'] + rest.value)
      else
        assert forall j :: 1 <= j < |row| ==> row[j] == row[1..][j - 1];
        None
  }

  /** Putting the first cell's glyph and a bar before the text of the other cells gives the text of the row. */
  lemma GlyphsCons(row: seq<int>, glyph: char, rest: string)
    requires row != [] && PlayerToAvatar(row[0]) == Some(glyph)
    requires |rest| == 2 * (|row| - 1)
    requires forall j :: 0 <= j < |row| - 1 ==> PlayerToAvatar(row[1..][j]).Some?
    requires forall j :: 0 <= j < |row| - 1 ==> rest[2 * j] == PlayerToAvatar(row[1..][j]).value && rest[2 * j + 1] == '|'
    ensures var r := [glyph, '|'] + rest;
      && |r| == 2 * |row|
      && forall j :: 0 <= j < |row| ==> PlayerToAvatar(row[j]).Some? && r[2 * j] == PlayerToAvatar(row[j]).value && r[2 * j + 1] == '|'
  {
    var r := [glyph, '|'] + rest;
    forall j | 0 <= j < |row|
      ensures PlayerToAvatar(row[j]).Some? && r[2 * j] == PlayerToAvatar(row[j]).value && r[2 * j + 1] == '|'
    {
      if j > 0 {
        assert row[j] == row[1..][j - 1];
        assert PlayerToAvatar(row[1..][j - 1]).Some?;
        assert r[2 * j] == rest[2 * (j - 1)];
        assert r[2 * j + 1] == rest[2 * (j - 1) + 1];
      }
    }
  }

  /** One line of `__str__`: the row's glyphs between bars, as in `|X|_|O|`. */
  function RowText(row: seq<int>): (r: Option<string>)
    ensures r.Some? <==> forall j :: 0 <= j < |row| ==> PlayerToAvatar(row[j]).Some?
    ensures r.Some? ==> |r.value| == 2 * |row| + 1 && r.value[0] == '|'
    ensures r.Some? ==> forall j :: 0 <= j < |row| ==> r.value[2 * j + 1] == PlayerToAvatar(row[j]).value && r.value[2 * j + 2] == '|'
  {
    var cells := CellsText(row);
    if cells.Some? then Some(['|'] + cells.value) else None
  }

  /** Distinct rows of one length draw as distinct lines. */
  lemma RowTextInjective(row: seq<int>, row': seq<int>)
    requires |row| == |row'| && RowText(row).Some? && RowText(row) == RowText(row')
    ensures row == row'
  {
    forall j | 0 <= j < |row|
      ensures row[j] == row'[j]
    {
      AvatarInjective(row[j], row'[j]);
    }
  }

  /**
   * `__str__`: the three row lines joined by newlines; `None` stands for the
   * `ValueError` of a cell outside {-1, 0, 1}.
   */
  function BoardText(b: Board): (r: Option<string>)
    ensures r.Some? ==> |r.value| == 8 * N - 1
  {
    var r0 := RowText(b.grid[0]);
    var r1 := RowText(b.grid[1]);
    var r2 := RowText(b.grid[2]);
    if r0.Some? && r1.Some? && r2.Some? then
      JoinLayout(r0.value, r1.value, r2.value);
      Some(r0.value + "\n" + r1.value + "\n" + r2.value)
    else None
  }

  /** The board draws exactly when every cell holds a cell state. */
  lemma BoardTextDefined(b: Board)
    ensures BoardText(b).Some? <==> forall c :: InBounds(c) ==> PlayerToAvatar(b.At(c)).Some?
  {
    var g := b.grid;
    if BoardText(b).Some? {
      forall c | InBounds(c)
        ensures PlayerToAvatar(b.At(c)).Some?
      {
        assert 0 <= c.1 < |g[c.0]|;
      }
    } else {
      var i := if RowText(g[0]).None? then 0 else if RowText(g[1]).None? then 1 else 2;
      var j :| 0 <= j < N && !PlayerToAvatar(g[i][j]).Some?;
      assert InBounds((i, j)) && b.At((i, j)) == g[i][j];
    }
  }

  /** Row `i`'s line starts at offset `8 * i`, and a newline follows every line but the last. */
  lemma BoardTextLayout(b: Board)
    requires BoardText(b).Some?
    ensures |BoardText(b).value| == 8 * N - 1
    ensures forall i :: 0 <= i < N ==>
      RowText(b.grid[i]).Some? && BoardText(b).value[8 * i..8 * i + 2 * N + 1] == RowText(b.grid[i]).value
    ensures forall i :: 0 <= i < N - 1 ==> BoardText(b).value[8 * i + 2 * N + 1] == '\n'
  {
    var g := b.grid;
    var r0, r1, r2 := RowText(g[0]).value, RowText(g[1]).value, RowText(g[2]).value;
    var t := BoardText(b).value;
    assert t == r0 + "\n" + r1 + "\n" + r2;
    JoinLayout(r0, r1, r2);
    forall i | 0 <= i < N
      ensures RowText(g[i]).Some? && t[8 * i..8 * i + 2 * N + 1] == RowText(g[i]).value
    {
      if i == 0 {
        assert t[8 * i..8 * i + 2 * N + 1] == t[0..7];
      } else if i == 1 {
        assert t[8 * i..8 * i + 2 * N + 1] == t[8..15];
      } else {
        assert t[8 * i..8 * i + 2 * N + 1] == t[16..23];
      }
    }
    forall i | 0 <= i < N - 1
      ensures t[8 * i + 2 * N + 1] == '\n'
    {
      if i == 0 {
        assert 8 * i + 2 * N + 1 == 7;
      } else {
        assert 8 * i + 2 * N + 1 == 15;
      }
    }
  }

  /** Three lines of seven characters joined by newlines. */
  lemma JoinLayout(x: string, y: string, z: string)
    requires |x| == 7 && |y| == 7 && |z| == 7
    ensures var t := x + "\n" + y + "\n" + z;
      |t| == 23 && t[0..7] == x && t[8..15] == y && t[16..23] == z && t[7] == '\n' && t[15] == '\n'
  {
    var t := x + "\n" + y + "\n" + z;
    assert t[0..7] == x;
    assert t[8..15] == y;
    assert t[16..23] == z;
  }

  /** Distinct boards draw differently, so `__str__` can be read back. */
  lemma BoardTextInjective(b: Board, b': Board)
    requires BoardText(b).Some? && BoardText(b) == BoardText(b')
    ensures b == b'
  {
    BoardTextLayout(b);
    BoardTextLayout(b');
    forall i | 0 <= i < N
      ensures b.grid[i] == b'.grid[i]
    {
      RowTextInjective(b.grid[i], b'.grid[i]);
    }
  }
}
