/**
  The board (board.py): 64 piece records, one on every square. The 32 chess
  pieces start on their usual squares and 32 invisible decoys fill ranks 3 to 6.
  A move never creates or deletes a record: it swaps the squares of the mover and
  of whatever stands on the destination, and the latter becomes a decoy.
*/
module Boards {
  import opened Wrappers
  import opened Text
  import opened Squares
  import opened Pieces

  // ---------------------------------------------------------------------------
  // Boards as values
  // ---------------------------------------------------------------------------

  /** Index of the first piece standing on `sq`, or -1 (the order of `for piece in self.pieces`). */
  function IndexAt(b: seq<PieceVal>, sq: string): (r: int)
    ensures -1 <= r < |b|
    ensures r >= 0 ==> b[r].pos == sq && forall k :: 0 <= k < r ==> b[k].pos != sq
    ensures r == -1 ==> forall k :: 0 <= k < |b| ==> b[k].pos != sq
  {
    if b == [] then -1
    else if b[0].pos == sq then 0
    else
      var k := IndexAt(b[1..], sq);
      if k == -1 then -1 else k + 1
  }

  /** A piece record the board can hold: on a square, with matching display
      coordinates, a three-letter name, and the decoy name whenever out of play. */
  predicate Sane(p: PieceVal)
  {
    IsSquare(p.pos) && p.row == RowOf(p.pos) && p.col == ColOf(p.pos)
    && |p.name| == 3 && (!p.state ==> p.name == DecoyName)
  }

  /** The square of record `k`; it names the pairwise distinctness below, so
      that the solver compares two records only where a proof asks it to. */
  function PosOf(b: seq<PieceVal>, k: int): string
    requires 0 <= k < |b|
  {
    b[k].pos
  }

  /** 64 sane records, each the only one on its square, covering the board. */
  ghost predicate WellFormed(b: seq<PieceVal>)
  {
    |b| == 64
    && (forall k :: 0 <= k < |b| ==> Sane(b[k]))
    && (forall i, j :: 0 <= i < j < |b| ==> PosOf(b, i) != PosOf(b, j))
    && (forall s {:trigger IndexAt(b, s)} :: IsSquare(s) ==> IndexAt(b, s) != -1)
  }

  /** On a well-formed board every record's name has its three letters. */
  lemma WellFormedNamed(b: seq<PieceVal>)
    requires WellFormed(b)
    ensures forall k :: 0 <= k < |b| ==> |b[k].name| >= 2
  {
    forall k | 0 <= k < |b| ensures |b[k].name| >= 2 {
      assert Sane(b[k]);
    }
  }

  /** On a well-formed board no two records share a square. */
  lemma SquaresDistinct(b: seq<PieceVal>, i: int, j: int)
    requires WellFormed(b) && 0 <= i < |b| && 0 <= j < |b| && i != j
    ensures b[i].pos != b[j].pos
  {
    if j < i {
      assert PosOf(b, j) != PosOf(b, i);
    } else {
      assert PosOf(b, i) != PosOf(b, j);
    }
  }

  /** `IndexAt` looks at positions only. */
  lemma {:induction false} IndexAtSamePositions(b: seq<PieceVal>, c: seq<PieceVal>, s: string)
    requires |b| == |c| && forall k :: 0 <= k < |b| ==> b[k].pos == c[k].pos
    ensures IndexAt(b, s) == IndexAt(c, s)
  {
    if b != [] {
      IndexAtSamePositions(b[1..], c[1..], s);
    }
  }

  /** Changing names and states but no position keeps a board well-formed as long as every record stays sane. */
  lemma SamePositionsWellFormed(b: seq<PieceVal>, c: seq<PieceVal>)
    requires WellFormed(b) && |b| == |c|
    requires forall k :: 0 <= k < |b| ==> b[k].pos == c[k].pos && Sane(c[k])
    ensures WellFormed(c)
  {
    forall s | IsSquare(s) ensures IndexAt(c, s) != -1 {
      IndexAtSamePositions(b, c, s);
    }
    forall i, j | 0 <= i < j < |c| ensures PosOf(c, i) != PosOf(c, j) {
      assert PosOf(b, i) != PosOf(b, j);
    }
  }

  /** The record standing on square `s`. */
  function At(b: seq<PieceVal>, s: string): (p: PieceVal)
    requires WellFormed(b) && IsSquare(s)
    ensures p.pos == s && p in b
  {
    b[IndexAt(b, s)]
  }

  /** On a well-formed board only square names are found, each exactly once. */
  lemma IndexAtSquare(b: seq<PieceVal>, s: string)
    requires WellFormed(b)
    ensures IndexAt(b, s) != -1 <==> IsSquare(s)
    ensures IsSquare(s) ==> forall k :: 0 <= k < |b| && b[k].pos == s ==> k == IndexAt(b, s)
  {
    var i := IndexAt(b, s);
    if i != -1 {
      assert Sane(b[i]);
      forall k | 0 <= k < |b| && k != i ensures b[k].pos != s {
        SquaresDistinct(b, k, i);
      }
    }
  }

  /** Distinct records on a well-formed board have distinct display cells. */
  lemma CellsDistinct(b: seq<PieceVal>, i: int, j: int)
    requires WellFormed(b) && 0 <= i < |b| && 0 <= j < |b| && i != j
    ensures b[i].row != b[j].row || b[i].col != b[j].col
  {
    assert Sane(b[i]) && Sane(b[j]);
    SquaresDistinct(b, i, j);
    RowColDetermineSquare(b[i].pos, b[j].pos);
  }

  // ---------------------------------------------------------------------------
  // The starting position (board.py:51-85)
  // ---------------------------------------------------------------------------

  /** Kinds, sides and files of the eight back-rank pieces in list order:
      king, queen, left rook, right rook, left knight, right knight, left bishop, right bishop. */
  const BackKinds: string := "kqrrnnbb"
  const BackSides: string := "rllrlrlr"
  const BackFiles: seq<int> := [4, 3, 0, 7, 1, 6, 2, 5]

  /** The i-th record of the starting list: white back rank, white pawns, black
      back rank, black pawns, then the decoys of ranks 3, 4, 5 and 6, file by file. */
  function InitialPiece(i: int): (p: PieceVal)
    requires 0 <= i < 64
    ensures Sane(p)
    ensures p.state <==> i < 32
  {
    if i < 32 then
      var colour := if i < 16 then 'w' else 'b';
      var j := i % 16;
      if j < 8 then
        var r := if i < 16 then 0 else 7;
        PieceVal([BackKinds[j], colour, BackSides[j]], SquareName(BackFiles[j], r), true, 7 - r, BackFiles[j])
      else
        var r := if i < 16 then 1 else 6;
        PieceVal(['p', colour, DigitChar(j - 7)], SquareName(j - 8, r), true, 7 - r, j - 8)
    else
      var k := i - 32;
      PieceVal(DecoyName, SquareName(k % 8, 2 + k / 8), false, 5 - k / 8, k % 8)
  }

  function InitialPieces(): (b: seq<PieceVal>)
    ensures |b| == 64 && forall i :: 0 <= i < 64 ==> b[i] == InitialPiece(i)
  {
    seq(64, i requires 0 <= i < 64 => InitialPiece(i))
  }

  /** Which starting record stands on file `f`, rank index `r`: the inverse of the starting list. */
  function Owner(f: int, r: int): (i: int)
    requires 0 <= f < 8 && 0 <= r < 8
    ensures 0 <= i < 64
  {
    var back := [2, 4, 6, 1, 0, 7, 5, 3];
    if r == 0 then back[f]
    else if r == 1 then 8 + f
    else if r == 6 then 24 + f
    else if r == 7 then 16 + back[f]
    else 32 + 8 * (r - 2) + f
  }

  lemma OwnerOfInitial(i: int)
    requires 0 <= i < 64
    ensures var s := InitialPiece(i).pos; Owner(FileIndex(s[0]), RankIndex(s[1])) == i
  {
    if i < 32 && i % 16 < 8 {
      var j := i % 16;
      assert j == 0 || j == 1 || j == 2 || j == 3 || j == 4 || j == 5 || j == 6 || j == 7;
    }
  }

  /** No two records of the starting list share a square. */
  lemma InitialDistinct()
    ensures forall i, j :: 0 <= i < j < 64 ==> PosOf(InitialPieces(), i) != PosOf(InitialPieces(), j)
  {
    forall i, j | 0 <= i < j < 64 ensures PosOf(InitialPieces(), i) != PosOf(InitialPieces(), j) {
      OwnerOfInitial(i);
      OwnerOfInitial(j);
    }
  }

  /** The starting list holds every square exactly once. */
  lemma InitialWellFormed()
    ensures WellFormed(InitialPieces())
  {
    var b := InitialPieces();
    InitialDistinct();
    forall s | IsSquare(s) ensures IndexAt(b, s) != -1 {
      var f, r := FileIndex(s[0]), RankIndex(s[1]);
      InitialOwner(f, r);
      SquareNameOf(s);
      assert b[Owner(f, r)].pos == s;
    }
  }

  lemma BackRankOwner(f: int, r: int)
    requires 0 <= f < 8 && (r == 0 || r == 7)
    ensures InitialPiece(Owner(f, r)).pos == SquareName(f, r)
  {
    var i := Owner(f, r);
    var j := i % 16;
    if f == 0 { assert j == 2; }
    else if f == 1 { assert j == 4; }
    else if f == 2 { assert j == 6; }
    else if f == 3 { assert j == 1; }
    else if f == 4 { assert j == 0; }
    else if f == 5 { assert j == 7; }
    else if f == 6 { assert j == 5; }
    else { assert j == 3; }
  }

  lemma InitialOwner(f: int, r: int)
    requires 0 <= f < 8 && 0 <= r < 8
    ensures InitialPiece(Owner(f, r)).pos == SquareName(f, r)
  {
    if r == 0 || r == 7 {
      BackRankOwner(f, r);
    } else if 2 <= r <= 5 {
      var k := 8 * (r - 2) + f;
      assert k / 8 == r - 2 && k % 8 == f;
    } else if r == 1 {
      assert (8 + f) % 16 == 8 + f;
    } else {
      assert (24 + f) % 16 == 8 + f;
    }
  }

  /** The white back rank of the starting list, in the order of board.py:53-60. */
  lemma InitialWhiteBackRank()
    ensures InitialPiece(0) == PieceVal("kwr", "e1", true, 7, 4)
    ensures InitialPiece(1) == PieceVal("qwl", "d1", true, 7, 3)
    ensures InitialPiece(2) == PieceVal("rwl", "a1", true, 7, 0)
    ensures InitialPiece(3) == PieceVal("rwr", "h1", true, 7, 7)
    ensures InitialPiece(4) == PieceVal("nwl", "b1", true, 7, 1)
    ensures InitialPiece(5) == PieceVal("nwr", "g1", true, 7, 6)
    ensures InitialPiece(6) == PieceVal("bwl", "c1", true, 7, 2)
    ensures InitialPiece(7) == PieceVal("bwr", "f1", true, 7, 5)
  {
  }

  /** The black back rank of the starting list, in the order of board.py:62-69. */
  lemma InitialBlackBackRank()
    ensures InitialPiece(16) == PieceVal("kbr", "e8", true, 0, 4)
    ensures InitialPiece(17) == PieceVal("qbl", "d8", true, 0, 3)
    ensures InitialPiece(18) == PieceVal("rbl", "a8", true, 0, 0)
    ensures InitialPiece(19) == PieceVal("rbr", "h8", true, 0, 7)
    ensures InitialPiece(20) == PieceVal("nbl", "b8", true, 0, 1)
    ensures InitialPiece(21) == PieceVal("nbr", "g8", true, 0, 6)
    ensures InitialPiece(22) == PieceVal("bbl", "c8", true, 0, 2)
    ensures InitialPiece(23) == PieceVal("bbr", "f8", true, 0, 5)
  {
  }

  /** The pawns of the starting list: "pw1".."pw8" on rank 2, "pb1".."pb8" on rank 7. */
  lemma InitialPawns()
    ensures forall f :: 0 <= f < 8 ==>
      InitialPiece(8 + f) == PieceVal(['p', 'w', DigitChar(f + 1)], [FileChar(f), '2'], true, 6, f)
      && InitialPiece(24 + f) == PieceVal(['p', 'b', DigitChar(f + 1)], [FileChar(f), '7'], true, 1, f)
  {
    forall f | 0 <= f < 8
      ensures InitialPiece(8 + f) == PieceVal(['p', 'w', DigitChar(f + 1)], [FileChar(f), '2'], true, 6, f)
      ensures InitialPiece(24 + f) == PieceVal(['p', 'b', DigitChar(f + 1)], [FileChar(f), '7'], true, 1, f)
    {
      assert (8 + f) % 16 == 8 + f && (24 + f) % 16 == 8 + f;
    }
  }

  /** The 32 decoys fill ranks 3 to 6, rank 3 on display row 5 down to rank 6 on row 2. */
  /** The decoy the starting list puts on file `f` of the rank written `c`. */
  lemma DecoyPiece(c: int, f: int)
    requires 3 <= c <= 6 && 0 <= f < 8
    ensures InitialPiece(32 + 8 * (c - 3) + f) == PieceVal(DecoyName, [FileChar(f), DigitChar(c)], false, 8 - c, f)
  {
    var k := 8 * (c - 3) + f;
    assert k / 8 == c - 3 && k % 8 == f;
  }

  lemma InitialDecoys()
    ensures forall c, f :: 3 <= c <= 6 && 0 <= f < 8 ==>
      InitialPieces()[32 + 8 * (c - 3) + f] == PieceVal(DecoyName, [FileChar(f), DigitChar(c)], false, 8 - c, f)
  {
    forall c, f | 3 <= c <= 6 && 0 <= f < 8
      ensures InitialPieces()[32 + 8 * (c - 3) + f] == PieceVal(DecoyName, [FileChar(f), DigitChar(c)], false, 8 - c, f)
    {
      var k := 8 * (c - 3) + f;
      assert k / 8 == c - 3 && k % 8 == f;
    }
  }

  // ---------------------------------------------------------------------------
  // The occupancy map `squares` (board.py:102-126)
  // ---------------------------------------------------------------------------

  /** What `squares` holds for a square: `False` for a decoy, else the colour letter `name[1]`. */
  datatype SquareTag = Vacant | Held(colour: char)

  function TagOf(p: PieceVal): (t: SquareTag)
    requires |p.name| >= 2
    ensures t.Held? <==> p.state
    ensures t.Held? ==> t.colour == p.name[1]
  {
    if p.state then Held(p.name[1]) else Vacant
  }

  /** `squares` after writing each record's tag in list order, starting from `m`. */
  function Refresh(m: map<string, SquareTag>, b: seq<PieceVal>): map<string, SquareTag>
    requires forall k :: 0 <= k < |b| ==> |b[k].name| >= 2
  {
    if b == [] then m
    else Refresh(m, b[..|b| - 1])[b[|b| - 1].pos := TagOf(b[|b| - 1])]
  }

  /** The occupancy of every square of a well-formed board. */
  function Occupancy(b: seq<PieceVal>): (m: map<string, SquareTag>)
    requires WellFormed(b)
    ensures m.Keys == AllSquares
    ensures forall s :: s in m ==> m[s] == TagOf(At(b, s))
  {
    assert forall s :: s in AllSquares ==> IsSquare(s) by {
      forall s | s in AllSquares ensures IsSquare(s) { AllSquaresAreSquares(s); }
    }
    map s | s in AllSquares :: TagOf(At(b, s))
  }

  /** Whether square `s` holds a piece in play, according to `sqs`. */
  predicate Active(sqs: map<string, SquareTag>, s: string)
    requires s in sqs
  {
    sqs[s].Held?
  }

  /** Index of the last record standing on `sq`, or -1. */
  function LastAt(b: seq<PieceVal>, sq: string): (r: int)
    ensures -1 <= r < |b|
    ensures r >= 0 ==> b[r].pos == sq && forall k :: r < k < |b| ==> b[k].pos != sq
    ensures r == -1 ==> forall k :: 0 <= k < |b| ==> b[k].pos != sq
  {
    if b == [] then -1
    else if b[|b| - 1].pos == sq then |b| - 1
    else LastAt(b[..|b| - 1], sq)
  }

  /** The last write to a square wins. */
  lemma {:induction false} RefreshLast(m: map<string, SquareTag>, b: seq<PieceVal>, s: string)
    requires forall k :: 0 <= k < |b| ==> |b[k].name| >= 2
    ensures LastAt(b, s) != -1 ==> s in Refresh(m, b) && Refresh(m, b)[s] == TagOf(b[LastAt(b, s)])
    ensures LastAt(b, s) == -1 ==> (s in Refresh(m, b) <==> s in m) && (s in m ==> Refresh(m, b)[s] == m[s])
  {
    if b != [] {
      var b' := b[..|b| - 1];
      RefreshLast(m, b', s);
      if b[|b| - 1].pos != s {
        assert LastAt(b, s) == LastAt(b', s);
      }
    }
  }

  lemma RefreshValue(m: map<string, SquareTag>, b: seq<PieceVal>, s: string)
    requires forall k :: 0 <= k < |b| ==> |b[k].name| >= 2
    requires forall i, j :: 0 <= i < j < |b| ==> PosOf(b, i) != PosOf(b, j)
    ensures IndexAt(b, s) != -1 ==> s in Refresh(m, b) && Refresh(m, b)[s] == TagOf(b[IndexAt(b, s)])
    ensures IndexAt(b, s) == -1 ==> (s in Refresh(m, b) <==> s in m) && (s in m ==> Refresh(m, b)[s] == m[s])
  {
    RefreshLast(m, b, s);
    var i, j := IndexAt(b, s), LastAt(b, s);
    if i != -1 {
      assert j != -1 && PosOf(b, i) == s && PosOf(b, j) == s;
    }
  }

  lemma RefreshStep(m: map<string, SquareTag>, b: seq<PieceVal>, i: int)
    requires forall k :: 0 <= k < |b| ==> |b[k].name| >= 2
    requires 0 <= i < |b|
    ensures Refresh(m, b[..i + 1]) == Refresh(m, b[..i])[b[i].pos := TagOf(b[i])]
  {
    assert b[..i + 1][..i] == b[..i];
  }

  /** Refreshing a map that holds only square names from a well-formed board
      yields exactly the board's occupancy: the last write per square wins, and
      every square is written once. */
  lemma RefreshIsOccupancy(m: map<string, SquareTag>, b: seq<PieceVal>)
    requires WellFormed(b) && m.Keys <= AllSquares
    ensures Refresh(m, b) == Occupancy(b)
  {
    var r := Refresh(m, b);
    var o := Occupancy(b);
    forall s ensures (s in r <==> s in o) && (s in r ==> r[s] == o[s]) {
      RefreshAgreesAt(m, b, s);
    }
    SameEntries(r, o);
  }

  lemma SameEntries(r: map<string, SquareTag>, o: map<string, SquareTag>)
    requires forall s :: (s in r <==> s in o) && (s in r ==> r[s] == o[s])
    ensures r == o
  {
  }

  lemma RefreshAgreesAt(m: map<string, SquareTag>, b: seq<PieceVal>, s: string)
    requires WellFormed(b) && m.Keys <= AllSquares
    ensures var r, o := Refresh(m, b), Occupancy(b);
      (s in r <==> s in o) && (s in r ==> r[s] == o[s])
  {
    RefreshValue(m, b, s);
    AllSquaresAreSquares(s);
    IndexAtSquare(b, s);
    if IsSquare(s) {
      assert At(b, s) == b[IndexAt(b, s)];
    }
  }

  // ---------------------------------------------------------------------------
  // A move (board.py:128-177)
  // ---------------------------------------------------------------------------

  datatype MoveResult = MoveResult(pieces: seq<PieceVal>, captured: Option<string>, friendly: bool)

  /** `move_piece(src, dest)`: the first record on `src` and the first on `dest`
      swap squares and display cells; the latter is renamed to a decoy and its
      former name is returned; `friendly` compares the two colour letters. */
  function MoveSpec(b: seq<PieceVal>, src: string, dest: string): (r: MoveResult)
    requires forall k :: 0 <= k < |b| ==> |b[k].name| >= 2
    ensures |r.pieces| == |b|
    ensures r.captured.None? <==> IndexAt(b, src) == -1 || IndexAt(b, dest) == -1
    ensures r.captured.None? ==> r.pieces == b && !r.friendly
    ensures forall k :: 0 <= k < |b| && k != IndexAt(b, src) && k != IndexAt(b, dest) ==> r.pieces[k] == b[k]
  {
    var i, j := IndexAt(b, src), IndexAt(b, dest);
    if i == -1 || j == -1 then MoveResult(b, None, false)
    else
      var s, d := b[i], b[j];
      var mover := s.(pos := dest, row := d.row, col := d.col);
      var victim := d.(pos := src, row := s.row, col := s.col, name := DecoyName, state := false);
      MoveResult(b[i := mover][j := victim], Some(d.name), s.name[1] == d.name[1])
  }

  /** Positions stay a permutation of the 64 squares and display cells stay in step with them. */
  lemma MovePreservesWellFormed(b: seq<PieceVal>, src: string, dest: string)
    requires WellFormed(b)
    ensures WellFormed(MoveSpec(b, src, dest).pieces)
  {
    if IndexAt(b, src) != -1 && IndexAt(b, dest) != -1 {
      MoveKeepsSane(b, src, dest);
      MoveKeepsDistinct(b, src, dest);
      MoveKeepsCover(b, src, dest);
    }
  }

  /** The swap trades the squares of the two records it touches, and every record stays sane. */
  lemma MoveKeepsSane(b: seq<PieceVal>, src: string, dest: string)
    requires WellFormed(b) && IndexAt(b, src) != -1 && IndexAt(b, dest) != -1
    ensures var r, i, j := MoveSpec(b, src, dest).pieces, IndexAt(b, src), IndexAt(b, dest);
      |r| == 64 && r[j].pos == src && r[i].pos == dest
      && forall k :: 0 <= k < 64 ==> Sane(r[k])
  {
    var r := MoveSpec(b, src, dest).pieces;
    var i, j := IndexAt(b, src), IndexAt(b, dest);
    assert Sane(b[i]) && Sane(b[j]);
    assert forall k :: 0 <= k < 64 ==> Sane(r[k]);
    assert r[j].pos == src && r[i].pos == dest by {
      if i == j { assert src == dest; }
    }
  }

  /** After the swap no two records share a square. */
  lemma MoveKeepsDistinct(b: seq<PieceVal>, src: string, dest: string)
    requires WellFormed(b) && IndexAt(b, src) != -1 && IndexAt(b, dest) != -1
    ensures var r := MoveSpec(b, src, dest).pieces;
      forall x, y :: 0 <= x < y < |r| ==> PosOf(r, x) != PosOf(r, y)
  {
    MoveKeepsSane(b, src, dest);
    var r := MoveSpec(b, src, dest).pieces;
    var i, j := IndexAt(b, src), IndexAt(b, dest);
    forall x, y | 0 <= x < y < 64 ensures PosOf(r, x) != PosOf(r, y) {
      var sx := if x == i then j else if x == j then i else x;
      var sy := if y == i then j else if y == j then i else y;
      assert r[x].pos == b[sx].pos && r[y].pos == b[sy].pos;
      SquaresDistinct(b, sx, sy);
    }
  }

  /** After the swap every square is still held by some record. */
  lemma MoveKeepsCover(b: seq<PieceVal>, src: string, dest: string)
    requires WellFormed(b) && IndexAt(b, src) != -1 && IndexAt(b, dest) != -1
    ensures var r := MoveSpec(b, src, dest).pieces;
      forall s {:trigger IndexAt(r, s)} :: IsSquare(s) ==> IndexAt(r, s) != -1
  {
    MoveKeepsSane(b, src, dest);
    var r := MoveSpec(b, src, dest).pieces;
    var i, j := IndexAt(b, src), IndexAt(b, dest);
    forall s | IsSquare(s) ensures IndexAt(r, s) != -1 {
      var k := IndexAt(b, s);
      if s == src {
        assert r[j].pos == s;
      } else if s == dest {
        assert r[i].pos == s;
      } else {
        assert k != i && k != j;
        assert r[k].pos == s;
      }
    }
  }

  /** The move seen square by square: the mover lands on `dest` with its name and
      state, a decoy is left on `src`, no other square changes, and the captured
      name and the friendly flag come from the two squares' previous occupants. */
  lemma MoveAtSquares(b: seq<PieceVal>, src: string, dest: string)
    requires WellFormed(b) && IsSquare(src) && IsSquare(dest) && src != dest
    ensures var r := MoveSpec(b, src, dest);
      WellFormed(r.pieces)
      && At(r.pieces, dest) == At(b, src).(pos := dest, row := RowOf(dest), col := ColOf(dest))
      && At(r.pieces, src) == PieceVal(DecoyName, src, false, RowOf(src), ColOf(src))
      && (forall s :: IsSquare(s) && s != src && s != dest ==> At(r.pieces, s) == At(b, s))
      && r.captured == Some(At(b, dest).name)
      && r.friendly == (At(b, src).name[1] == At(b, dest).name[1])
  {
    MovePreservesWellFormed(b, src, dest);
    var r := MoveSpec(b, src, dest).pieces;
    var i, j := IndexAt(b, src), IndexAt(b, dest);
    IndexAtSquare(b, src);
    IndexAtSquare(b, dest);
    assert Sane(b[i]) && Sane(b[j]);
    IndexAtSquare(r, dest);
    assert r[i].pos == dest;
    IndexAtSquare(r, src);
    assert r[j].pos == src;
    forall s | IsSquare(s) && s != src && s != dest ensures At(r, s) == At(b, s) {
      var k := IndexAt(b, s);
      IndexAtSquare(b, s);
      IndexAtSquare(r, s);
      assert r[k] == b[k];
    }
  }

  /** A move from a square onto itself captures the piece standing there: it
      becomes a decoy, its name is returned, and the friendly flag is raised. */
  lemma MoveOntoItself(b: seq<PieceVal>, s: string)
    requires WellFormed(b) && IsSquare(s)
    ensures var r := MoveSpec(b, s, s);
      WellFormed(r.pieces)
      && At(r.pieces, s) == PieceVal(DecoyName, s, false, RowOf(s), ColOf(s))
      && r.captured == Some(At(b, s).name) && r.friendly
  {
    MovePreservesWellFormed(b, s, s);
    IndexAtSquare(b, s);
    var r := MoveSpec(b, s, s).pieces;
    IndexAtSquare(r, s);
    assert Sane(b[IndexAt(b, s)]);
  }

  /** A move naming something other than a square finds no record and changes nothing. */
  lemma MoveOffBoard(b: seq<PieceVal>, src: string, dest: string)
    requires WellFormed(b) && (!IsSquare(src) || !IsSquare(dest))
    ensures MoveSpec(b, src, dest) == MoveResult(b, None, false)
  {
    IndexAtSquare(b, src);
    IndexAtSquare(b, dest);
  }

  // ---------------------------------------------------------------------------
  // The board object
  // ---------------------------------------------------------------------------

  /** The record with list index `k` is drawn on grid cell (`row`, `col`) of `grid`. */
  ghost predicate Drawn(grid: array2<int>, b: seq<PieceVal>, k: int)
    reads grid
    requires 0 <= k < |b| && Sane(b[k]) && grid.Length0 == 8 && grid.Length1 == 8
  {
    grid[b[k].row, b[k].col] == k
  }

  class Board {
    /** The 64 records, in the order of board.py:51-85; moves change their fields, never their order. */
    var pieces: seq<PieceVal>
    /** The 8x8 display grid: the list index of the record drawn in each cell, -1 for none yet. */
    var grid: array2<int>
    /** The two king records, by colour letter, as list indices. */
    var kings: map<char, int>
    /** The occupancy map, keyed by square name. */
    var squares: map<string, SquareTag>
    /** Whether the last move put a piece on a square of its own colour. */
    var friendlyCapture: bool

    ghost predicate Valid()
      reads this
    {
      grid.Length0 == 8 && grid.Length1 == 8
      && kings == map['w' := 0, 'b' := 16]
      && squares.Keys <= AllSquares
      && WellFormed(pieces)
    }

    /** `squares` and the display grid agree with the records. */
    ghost predicate Synced()
      reads this, grid
      requires Valid()
    {
      squares == Occupancy(pieces)
      && forall k :: 0 <= k < 64 ==> Drawn(grid, pieces, k)
    }

    /** The king record of colour `tag`. */
    function King(tag: char): (p: PieceVal)
      reads this
      requires Valid() && (tag == 'w' || tag == 'b')
      ensures p == pieces[kings[tag]] && Sane(p)
    {
      pieces[kings[tag]]
    }

    /** The starting position, an empty grid and an empty occupancy map. */
    constructor ()
      ensures Valid() && fresh(grid)
      ensures pieces == InitialPieces()
      ensures squares == map[] && !friendlyCapture
      ensures forall r, c :: 0 <= r < 8 && 0 <= c < 8 ==> grid[r, c] == -1
    {
      var ps: seq<PieceVal> := [];
      var i := 0;
      while i < 32
        invariant 0 <= i <= 32 && |ps| == i
        invariant forall k :: 0 <= k < i ==> ps[k] == InitialPiece(k)
      {
        ps := ps + [InitialPiece(i)];
        i := i + 1;
      }
      var r := 5;
      var cnt := 3;
      while cnt < 7
        invariant 3 <= cnt <= 7 && r == 8 - cnt && |ps| == 32 + 8 * (cnt - 3)
        invariant forall k :: 0 <= k < |ps| ==> ps[k] == InitialPiece(k)
      {
        var f := 0;
        while f < 8
          invariant 0 <= f <= 8 && |ps| == 32 + 8 * (cnt - 3) + f
          invariant forall k :: 0 <= k < |ps| ==> ps[k] == InitialPiece(k)
        {
          DecoyPiece(cnt, f);
          ps := ps + [PieceVal(DecoyName, [FileChar(f), DigitChar(cnt)], false, r, f)];
          f := f + 1;
        }
        r := r - 1;
        cnt := cnt + 1;
      }
      assert ps == InitialPieces();
      InitialWellFormed();
      pieces := ps;
      grid := new int[8, 8]((_, _) => -1);
      kings := map['w' := 0, 'b' := 16];
      squares := map[];
      friendlyCapture := false;
    }

    /** `update_board`: writes every record's tag into `squares` and its index
        into its grid cell, in list order. */
    method UpdateBoard()
      requires Valid()
      modifies this, grid
      ensures Valid() && Synced()
      ensures pieces == old(pieces) && kings == old(kings) && grid == old(grid)
      ensures friendlyCapture == old(friendlyCapture)
    {
      var i := 0;
      while i < |pieces|
        invariant 0 <= i <= 64 && Valid()
        invariant pieces == old(pieces) && kings == old(kings) && grid == old(grid)
        invariant friendlyCapture == old(friendlyCapture)
        invariant squares == Refresh(old(squares), pieces[..i])
        invariant forall k :: 0 <= k < i ==> grid[pieces[k].row, pieces[k].col] == k
      {
        Place(i, old(squares));
        i := i + 1;
      }
      assert pieces[..64] == pieces;
      RefreshIsOccupancy(old(squares), pieces);
      assert squares == Occupancy(pieces);
      forall k | 0 <= k < 64 ensures Drawn(grid, pieces, k) {
        assert grid[pieces[k].row, pieces[k].col] == k;
      }
    }

    /** One pass of the loop of `update_board`: record `i` written into `squares`
        (its tag, or vacant when it is off the board) and its index into its grid
        cell. The cells of the records before it keep their indexes. */
    method Place(i: int, ghost start: map<string, SquareTag>)
      requires Valid() && 0 <= i < 64 && squares == Refresh(start, pieces[..i])
      requires forall k :: 0 <= k < i ==> grid[pieces[k].row, pieces[k].col] == k
      modifies this`squares, grid
      ensures Valid() && squares == Refresh(start, pieces[..i + 1])
      ensures forall k :: 0 <= k <= i ==> grid[pieces[k].row, pieces[k].col] == k
    {
      var p := pieces[i];
      assert Sane(p);
      AllSquaresAreSquares(p.pos);
      RefreshStep(start, pieces, i);
      squares := squares[p.pos := if p.state then Held(p.name[1]) else Vacant];
      forall k | 0 <= k < i ensures pieces[k].row != p.row || pieces[k].col != p.col {
        CellsDistinct(pieces, k, i);
      }
      grid[p.row, p.col] := i;
    }

    /** `move_piece(src, dest)`: the nested search of board.py:150-177 and the swap. */
    method MovePiece(src: string, dest: string) returns (captured: Option<string>)
      requires Valid()
      modifies this
      ensures Valid()
      ensures grid == old(grid) && kings == old(kings) && squares == old(squares)
      ensures var r := MoveSpec(old(pieces), src, dest);
        pieces == r.pieces && captured == r.captured && friendlyCapture == r.friendly
    {
      friendlyCapture := false;
      var i := 0;
      while i < |pieces|
        invariant 0 <= i <= 64 && pieces == old(pieces) && !friendlyCapture
        invariant grid == old(grid) && kings == old(kings) && squares == old(squares)
        invariant forall k :: 0 <= k < i ==> pieces[k].pos != src || IndexAt(pieces, dest) == -1
      {
        if pieces[i].pos == src {
          var j := 0;
          while j < |pieces|
            invariant 0 <= j <= 64 && pieces == old(pieces) && !friendlyCapture
            invariant grid == old(grid) && kings == old(kings) && squares == old(squares)
            invariant forall k :: 0 <= k < j ==> pieces[k].pos != dest
          {
            if pieces[j].pos == dest {
              var s, d := pieces[i], pieces[j];
              if s.name[1] == d.name[1] {
                friendlyCapture := true;
              }
              captured := Some(d.name);
              pieces := pieces[i := s.(row := d.row, col := d.col, pos := dest)];
              pieces := pieces[j := pieces[j].(row := s.row, col := s.col, pos := src, name := DecoyName, state := false)];
              MovePreservesWellFormed(old(pieces), src, dest);
              return;
            }
            j := j + 1;
          }
        }
        i := i + 1;
      }
      captured := None;
    }

    /** Renames record `k` in place, as a promotion does. */
    method Rename(k: int, newName: string)
      requires Valid() && 0 <= k < 64 && |newName| == 3 && pieces[k].state
      modifies this`pieces
      ensures Valid()
      ensures pieces == old(pieces)[k := old(pieces)[k].(name := newName)]
    {
      var before := pieces;
      pieces := pieces[k := pieces[k].(name := newName)];
      SamePositionsWellFormed(before, pieces);
    }
  }
}
