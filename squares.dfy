/**
  Square names as the engine writes them ("e4": a file letter and a rank digit),
  the display coordinates derived from them, and the engine's fixed list of the
  26 board diagonals (move_checking.py:88-113), kept in the listed order and
  orientation because the pin scan depends on it.
*/
module Squares {

  predicate IsFile(c: char) { 'a' <= c <= 'h' }

  predicate IsRank(c: char) { '1' <= c <= '8' }

  /** A name of one of the 64 squares. */
  predicate IsSquare(s: string)
  {
    |s| == 2 && IsFile(s[0]) && IsRank(s[1])
  }

  /** `files.index(c)`. */
  function FileIndex(c: char): (f: int)
    requires IsFile(c)
    ensures 0 <= f < 8
  {
    c as int - 'a' as int
  }

  /** `ranks.index(c)`. */
  function RankIndex(c: char): (r: int)
    requires IsRank(c)
    ensures 0 <= r < 8
  {
    c as int - '1' as int
  }

  function FileChar(f: int): (c: char)
    requires 0 <= f < 8
    ensures IsFile(c) && FileIndex(c) == f
  {
    ('a' as int + f) as char
  }

  function RankChar(r: int): (c: char)
    requires 0 <= r < 8
    ensures IsRank(c) && RankIndex(c) == r
  {
    ('1' as int + r) as char
  }

  /** The name of the square on file index `f` and rank index `r`. */
  function SquareName(f: int, r: int): (s: string)
    requires 0 <= f < 8 && 0 <= r < 8
    ensures IsSquare(s) && FileIndex(s[0]) == f && RankIndex(s[1]) == r
  {
    [FileChar(f), RankChar(r)]
  }

  /** Display row of a square: row 0 holds rank 8 (board.py:51-85). */
  function RowOf(s: string): (row: int)
    requires IsSquare(s)
    ensures 0 <= row < 8
  {
    7 - RankIndex(s[1])
  }

  /** Display column of a square: the file index. */
  function ColOf(s: string): (col: int)
    requires IsSquare(s)
    ensures 0 <= col < 8
  {
    FileIndex(s[0])
  }

  /** The 64 square names. */
  const AllSquares: set<string> := set f: int, r: int | 0 <= f < 8 && 0 <= r < 8 :: SquareName(f, r)

  lemma SquareNameOf(s: string)
    requires IsSquare(s)
    ensures s == SquareName(FileIndex(s[0]), RankIndex(s[1]))
  {
  }

  /** `AllSquares` holds exactly the square names. */
  lemma AllSquaresAreSquares(s: string)
    ensures s in AllSquares <==> IsSquare(s)
  {
    if IsSquare(s) {
      SquareNameOf(s);
    }
  }

  /** Two squares with the same display row and column are the same square. */
  lemma RowColDetermineSquare(s: string, t: string)
    requires IsSquare(s) && IsSquare(t)
    ensures RowOf(s) == RowOf(t) && ColOf(s) == ColOf(t) ==> s == t
  {
    SquareNameOf(s);
    SquareNameOf(t);
  }

  /** The `n` squares from file index `f`, rank index `r`, stepping `df` files and `dr` ranks. */
  function Line(f: int, r: int, df: int, dr: int, n: nat): (line: seq<string>)
    requires df == 1 || df == -1
    requires dr == 1 || dr == -1
    requires 0 <= f < 8 && 0 <= r < 8
    requires 0 <= f + df * (n - 1) < 8 && 0 <= r + dr * (n - 1) < 8
    ensures |line| == n
    ensures forall i :: 0 <= i < n ==> line[i] == SquareName(f + df * i, r + dr * i)
  {
    seq(n, i requires 0 <= i < n => SquareName(f + df * i, r + dr * i))
  }

  /** A diagonal as the engine lists it: starting file and rank index, file and
      rank step, and length. */
  datatype DiagShape = DiagShape(f: int, r: int, df: int, dr: int, n: nat)

  predicate ShapeOnBoard(d: DiagShape)
  {
    d.n >= 2 && (d.df == 1 || d.df == -1) && (d.dr == 1 || d.dr == -1) && 0 <= d.f < 8 && 0 <= d.r < 8
    && 0 <= d.f + d.df * (d.n - 1) < 8 && 0 <= d.r + d.dr * (d.n - 1) < 8
  }

  /** The shapes of the 26 diagonals of move_checking.py:88-113, in the listed order and direction. */
  const DiagShapes: seq<DiagShape> := [
    DiagShape(0, 0, 1, 1, 8),  // a1 b2 c3 d4 e5 f6 g7 h8
    DiagShape(0, 7, 1, -1, 8),  // a8 b7 c6 d5 e4 f3 g2 h1
    DiagShape(0, 1, 1, 1, 7),  // a2 b3 c4 d5 e6 f7 g8
    DiagShape(0, 6, 1, -1, 7),  // a7 b6 c5 d4 e3 f2 g1
    DiagShape(7, 1, -1, 1, 7),  // h2 g3 f4 e5 d6 c7 b8
    DiagShape(7, 6, -1, -1, 7),  // h7 g6 f5 e4 d3 c2 b1
    DiagShape(0, 2, 1, 1, 6),  // a3 b4 c5 d6 e7 f8
    DiagShape(0, 5, 1, -1, 6),  // a6 b5 c4 d3 e2 f1
    DiagShape(7, 2, -1, 1, 6),  // h3 g4 f5 e6 d7 c8
    DiagShape(7, 5, -1, -1, 6),  // h6 g5 f4 e3 d2 c1
    DiagShape(0, 3, 1, 1, 5),  // a4 b5 c6 d7 e8
    DiagShape(0, 4, 1, -1, 5),  // a5 b4 c3 d2 e1
    DiagShape(7, 3, -1, 1, 5),  // h4 g5 f6 e7 d8
    DiagShape(7, 4, -1, -1, 5),  // h5 g4 f3 e2 d1
    DiagShape(0, 4, 1, 1, 4),  // a5 b6 c7 d8
    DiagShape(0, 3, 1, -1, 4),  // a4 b3 c2 d1
    DiagShape(7, 4, -1, 1, 4),  // h5 g6 f7 e8
    DiagShape(7, 3, -1, -1, 4),  // h4 g3 f2 e1
    DiagShape(0, 5, 1, 1, 3),  // a6 b7 c8
    DiagShape(0, 2, 1, -1, 3),  // a3 b2 c1
    DiagShape(7, 5, -1, 1, 3),  // h6 g7 f8
    DiagShape(7, 2, -1, -1, 3),  // h3 g2 f1
    DiagShape(0, 6, 1, 1, 2),  // a7 b8
    DiagShape(0, 1, 1, -1, 2),  // a2 b1
    DiagShape(7, 6, -1, 1, 2),  // h7 g8
    DiagShape(7, 1, -1, -1, 2)   // h2 g1
  ]

  /** The diagonals of move_checking.py:88-113, in the listed order and direction. */
  function Diags(): seq<seq<string>>
  {
    seq(|DiagShapes|, k requires 0 <= k < |DiagShapes| => DiagLine(DiagShapes[k]))
  }

  /** The squares of one diagonal shape (none for a shape that leaves the board). */
  function DiagLine(d: DiagShape): (line: seq<string>)
    ensures ShapeOnBoard(d) ==> line == Line(d.f, d.r, d.df, d.dr, d.n)
  {
    if ShapeOnBoard(d) then Line(d.f, d.r, d.df, d.dr, d.n) else []
  }

  lemma DiagShapesOnBoard(k: int)
    requires 0 <= k < |DiagShapes|
    ensures ShapeOnBoard(DiagShapes[k])
  {
  }

  /** No square is listed twice in one line. */
  predicate Distinct(line: seq<string>)
  {
    forall i, j :: 0 <= i < j < |line| ==> line[i] != line[j]
  }

  /** Every listed diagonal holds at least two square names, and two different
      entries of one diagonal share neither file nor rank (so none is listed twice). */
  lemma DiagsWellFormed()
    ensures |Diags()| == 26
    ensures forall k :: 0 <= k < |Diags()| ==> |Diags()[k]| >= 2 && Distinct(Diags()[k])
    ensures forall k, i :: 0 <= k < |Diags()| && 0 <= i < |Diags()[k]| ==> IsSquare(Diags()[k][i])
    ensures forall k, i, j :: 0 <= k < |Diags()| && 0 <= i < |Diags()[k]| && 0 <= j < |Diags()[k]| && i != j ==>
      Diags()[k][i][0] != Diags()[k][j][0] && Diags()[k][i][1] != Diags()[k][j][1]
  {
    forall k | 0 <= k < |Diags()| ensures |Diags()[k]| >= 2 {
      DiagShapesOnBoard(k);
    }
    forall k, i | 0 <= k < |Diags()| && 0 <= i < |Diags()[k]| ensures IsSquare(Diags()[k][i]) {
      DiagEntry(k, i);
    }
    forall k, i, j | 0 <= k < |Diags()| && 0 <= i < |Diags()[k]| && 0 <= j < |Diags()[k]| && i != j
      ensures Diags()[k][i][0] != Diags()[k][j][0] && Diags()[k][i][1] != Diags()[k][j][1]
    {
      DiagEntry(k, i);
      DiagEntry(k, j);
    }
  }

  /** Entry `i` of diagonal `k` lies `i` steps along the diagonal's shape. */
  lemma DiagEntry(k: int, i: int)
    requires 0 <= k < |DiagShapes| && 0 <= i < |Diags()[k]|
    ensures var d := DiagShapes[k];
      ShapeOnBoard(d) && |Diags()[k]| == d.n
      && FileIndex(Diags()[k][i][0]) == (if d.df == 1 then d.f + i else d.f - i)
      && RankIndex(Diags()[k][i][1]) == (if d.dr == 1 then d.r + i else d.r - i)
      && IsSquare(Diags()[k][i])
  {
    var d := DiagShapes[k];
    DiagShapesOnBoard(k);
    assert Diags()[k] == Line(d.f, d.r, d.df, d.dr, d.n);
  }
}
