/**
  The read-only geometry and pin tests of the move resolver (move_checking.py:498-999).
  Each one only reads the occupancy map `squares`, the fixed diagonal list and,
  for the pin test, the record list; each is written here as a function that
  follows the source's scan step by step, and a lemma beside it says what the
  scan decides.
*/
module MoveRules {
  import opened Wrappers
  import opened Text
  import opened Squares
  import opened Pieces
  import opened Boards

  /** An occupancy map that has an entry for every square, as `squares` has once refreshed. */
  ghost predicate Full(sqs: map<string, SquareTag>)
  {
    forall s :: IsSquare(s) ==> s in sqs
  }

  /** A refreshed occupancy map is full. */
  lemma OccupancyFull(b: seq<PieceVal>)
    requires WellFormed(b)
    ensures Full(Occupancy(b))
  {
    forall s | IsSquare(s) ensures s in Occupancy(b) {
      AllSquaresAreSquares(s);
    }
  }

  predicate SquaresOnly(line: seq<string>)
  {
    forall i :: 0 <= i < |line| ==> IsSquare(line[i])
  }

  /** No square strictly between positions `i` and `j` of `line` holds a piece in play. */
  ghost predicate ClearBetween(sqs: map<string, SquareTag>, line: seq<string>, i: int, j: int)
    requires Full(sqs) && SquaresOnly(line)
  {
    forall m :: 0 <= m < |line| && (i < m < j || j < m < i) ==> !Active(sqs, line[m])
  }

  // ---------------------------------------------------------------------------
  // Diagonal moves (move_checking.py:498-554)
  // ---------------------------------------------------------------------------

  /** The scan of one diagonal: squares before the first end point are skipped,
      each end point flips the in-range flag, and a square in play met while in
      range ends the scan with False. */
  function DiagScan(sqs: map<string, SquareTag>, line: seq<string>, src: string, dest: string, inRange: bool): bool
    requires Full(sqs) && SquaresOnly(line)
    decreases |line|
  {
    if line == [] then true
    else
      var sq := line[0];
      if sq != src && sq != dest && !inRange then DiagScan(sqs, line[1..], src, dest, inRange)
      else if sq == src || sq == dest then DiagScan(sqs, line[1..], src, dest, !inRange)
      else if Active(sqs, sq) then false
      else DiagScan(sqs, line[1..], src, dest, inRange)
  }

  /** The loop over the diagonal list: the first diagonal holding both squares decides. */
  function DiagSearch(sqs: map<string, SquareTag>, ds: seq<seq<string>>, src: string, dest: string): bool
    requires Full(sqs) && forall k :: 0 <= k < |ds| ==> SquaresOnly(ds[k])
  {
    if ds == [] then false
    else if src in ds[0] && dest in ds[0] then DiagScan(sqs, ds[0], src, dest, false)
    else DiagSearch(sqs, ds[1..], src, dest)
  }

  /** `__diagonal_move_is_valid(src, dest)`. */
  function DiagonalMoveIsValid(sqs: map<string, SquareTag>, src: string, dest: string): bool
    requires Full(sqs)
  {
    DiagsWellFormed();
    if src == dest then false else DiagSearch(sqs, Diags(), src, dest)
  }

  /** Index of the first listed diagonal holding both squares, or -1. */
  function SharedDiag(ds: seq<seq<string>>, src: string, dest: string): (k: int)
    ensures -1 <= k < |ds|
    ensures k >= 0 ==> src in ds[k] && dest in ds[k]
    ensures forall m :: 0 <= m < |ds| && (k == -1 || m < k) ==> !(src in ds[m] && dest in ds[m])
  {
    if ds == [] then -1
    else if src in ds[0] && dest in ds[0] then 0
    else
      var k := SharedDiag(ds[1..], src, dest);
      if k == -1 then -1 else k + 1
  }

  /** Past both end points the scan accepts. */
  lemma {:induction false} DiagScanNoEnds(sqs: map<string, SquareTag>, line: seq<string>, src: string, dest: string)
    requires Full(sqs) && SquaresOnly(line) && src !in line && dest !in line
    ensures DiagScan(sqs, line, src, dest, false)
    decreases |line|
  {
    if line != [] {
      DiagScanNoEnds(sqs, line[1..], src, dest);
    }
  }

  /** In range, with one end point `e` still ahead, the scan accepts exactly when
      every square before `e` is out of play. */
  lemma {:induction false} DiagScanOneEnd(sqs: map<string, SquareTag>, line: seq<string>, src: string, dest: string, e: string)
    requires Full(sqs) && SquaresOnly(line) && Distinct(line)
    requires (e == src && dest !in line) || (e == dest && src !in line)
    requires e in line
    ensures DiagScan(sqs, line, src, dest, true)
      <==> forall m :: 0 <= m < Find(line, e) ==> !Active(sqs, line[m])
    decreases |line|
  {
    DistinctTail(line);
    if line[0] == e {
      DiagScanNoEnds(sqs, line[1..], src, dest);
    } else {
      DiagScanOneEnd(sqs, line[1..], src, dest, e);
      var k := Find(line, e);
      assert k == Find(line[1..], e) + 1;
      assert (forall m :: 0 <= m < k ==> !Active(sqs, line[m]))
        <==> !Active(sqs, line[0]) && forall m :: 0 <= m < k - 1 ==> !Active(sqs, line[1..][m]) by {
        if forall m :: 0 <= m < k - 1 ==> !Active(sqs, line[1..][m]) {
          forall m | 1 <= m < k ensures !Active(sqs, line[m]) {
            assert line[m] == line[1..][m - 1];
          }
        }
      }
    }
  }

  /** Dropping the head of a line without repetitions leaves a line without
      repetitions that no longer holds the head. */
  lemma DistinctTail(line: seq<string>)
    requires Distinct(line) && line != []
    ensures Distinct(line[1..]) && line[0] !in line[1..]
  {
    forall x, y | 0 <= x < y < |line| - 1 ensures line[1..][x] != line[1..][y] {
      assert line[x + 1] != line[y + 1];
    }
    forall m | 0 <= m < |line| - 1 ensures line[1..][m] != line[0] {
      assert line[0] != line[m + 1];
    }
  }

  /** Out of range, at an end point with the other one ahead, the scan accepts
      exactly when every square strictly between them is out of play. */
  lemma DiagScanFromEnd(sqs: map<string, SquareTag>, line: seq<string>, src: string, dest: string)
    requires Full(sqs) && SquaresOnly(line) && Distinct(line)
    requires src != dest && src in line && dest in line && (line[0] == src || line[0] == dest)
    ensures DiagScan(sqs, line, src, dest, false) <==> ClearBetween(sqs, line, Find(line, src), Find(line, dest))
  {
    DistinctTail(line);
    var e := if line[0] == src then dest else src;
    DiagScanOneEnd(sqs, line[1..], src, dest, e);
    var k := Find(line, e);
    assert k == Find(line[1..], e) + 1;
    if forall m :: 0 <= m < k - 1 ==> !Active(sqs, line[1..][m]) {
      forall m | 0 < m < k ensures !Active(sqs, line[m]) {
        assert line[m] == line[1..][m - 1];
      }
    }
  }

  /** Out of range, with both (distinct) end points ahead, the scan accepts exactly
      when every square strictly between them is out of play. */
  lemma {:induction false} DiagScanBothEnds(sqs: map<string, SquareTag>, line: seq<string>, src: string, dest: string)
    requires Full(sqs) && SquaresOnly(line) && Distinct(line)
    requires src != dest && src in line && dest in line
    ensures DiagScan(sqs, line, src, dest, false) <==> ClearBetween(sqs, line, Find(line, src), Find(line, dest))
    decreases |line|
  {
    var i, j := Find(line, src), Find(line, dest);
    DistinctTail(line);
    if line[0] == src || line[0] == dest {
      DiagScanFromEnd(sqs, line, src, dest);
    } else {
      DiagScanBothEnds(sqs, line[1..], src, dest);
      var i', j' := Find(line[1..], src), Find(line[1..], dest);
      assert i == i' + 1 && j == j' + 1;
      ClearBetweenTail(sqs, line, i', j');
    }
  }

  /** Dropping the first square of a line shifts the squares between two
      later positions down by one. */
  lemma ClearBetweenTail(sqs: map<string, SquareTag>, line: seq<string>, i: int, j: int)
    requires Full(sqs) && SquaresOnly(line) && |line| >= 1 && 0 <= i && 0 <= j
    ensures SquaresOnly(line[1..])
    ensures ClearBetween(sqs, line[1..], i, j) <==> ClearBetween(sqs, line, i + 1, j + 1)
  {
    if ClearBetween(sqs, line[1..], i, j) {
      forall m | 0 <= m < |line| && (i + 1 < m < j + 1 || j + 1 < m < i + 1) ensures !Active(sqs, line[m]) {
        assert line[m] == line[1..][m - 1];
      }
    }
    if ClearBetween(sqs, line, i + 1, j + 1) {
      forall m | 0 <= m < |line| - 1 && (i < m < j || j < m < i) ensures !Active(sqs, line[1..][m]) {
        assert line[1..][m] == line[m + 1];
      }
    }
  }

  lemma {:induction false} DiagSearchFirst(sqs: map<string, SquareTag>, ds: seq<seq<string>>, src: string, dest: string)
    requires Full(sqs) && forall k :: 0 <= k < |ds| ==> SquaresOnly(ds[k])
    ensures var k := SharedDiag(ds, src, dest);
      DiagSearch(sqs, ds, src, dest) == (k != -1 && DiagScan(sqs, ds[k], src, dest, false))
  {
    if ds != [] && !(src in ds[0] && dest in ds[0]) {
      DiagSearchFirst(sqs, ds[1..], src, dest);
    }
  }

  /** The diagonal test accepts exactly when the squares differ, some listed
      diagonal holds both, and on the first such diagonal every square strictly
      between them is out of play. */
  lemma DiagonalMoveMeaning(sqs: map<string, SquareTag>, src: string, dest: string)
    requires Full(sqs)
    ensures (DiagsWellFormed(); var k := SharedDiag(Diags(), src, dest);
      DiagonalMoveIsValid(sqs, src, dest)
      <==> src != dest && k != -1 && ClearBetween(sqs, Diags()[k], Find(Diags()[k], src), Find(Diags()[k], dest)))
  {
    DiagsWellFormed();
    var k := SharedDiag(Diags(), src, dest);
    DiagSearchFirst(sqs, Diags(), src, dest);
    if src != dest && k != -1 {
      DiagScanBothEnds(sqs, Diags()[k], src, dest);
    }
  }

  // ---------------------------------------------------------------------------
  // Rank and file moves (move_checking.py:556-630)
  // ---------------------------------------------------------------------------

  const Files: string := "abcdefgh"
  const Ranks: string := "12345678"

  /** The square that a rank/file scan looks at: file `fixed` and rank `c`, or file `c` and rank `fixed`. */
  function Cell(fixed: char, alongFile: bool, c: char): string
  {
    if alongFile then [fixed, c] else [c, fixed]
  }

  predicate ScanKeys(fixed: char, alongFile: bool, keys: string)
  {
    if alongFile then IsFile(fixed) && forall i :: 0 <= i < |keys| ==> IsRank(keys[i])
    else IsRank(fixed) && forall i :: 0 <= i < |keys| ==> IsFile(keys[i])
  }

  /** `for c in keys: if c <= lo or c >= hi: continue; if squares[cell]: return False`, then True. */
  function PathScan(sqs: map<string, SquareTag>, fixed: char, alongFile: bool, lo: char, hi: char, keys: string): bool
    requires Full(sqs) && ScanKeys(fixed, alongFile, keys)
  {
    if keys == [] then true
    else if keys[0] <= lo || keys[0] >= hi then PathScan(sqs, fixed, alongFile, lo, hi, keys[1..])
    else if Active(sqs, Cell(fixed, alongFile, keys[0])) then false
    else PathScan(sqs, fixed, alongFile, lo, hi, keys[1..])
  }

  lemma {:induction false} PathScanMeaning(sqs: map<string, SquareTag>, fixed: char, alongFile: bool, lo: char, hi: char, keys: string)
    requires Full(sqs) && ScanKeys(fixed, alongFile, keys)
    ensures PathScan(sqs, fixed, alongFile, lo, hi, keys)
      <==> forall i :: 0 <= i < |keys| && lo < keys[i] < hi ==> !Active(sqs, Cell(fixed, alongFile, keys[i]))
  {
    if keys != [] {
      assert ScanKeys(fixed, alongFile, keys[1..]);
      PathScanMeaning(sqs, fixed, alongFile, lo, hi, keys[1..]);
      assert forall i :: 1 <= i < |keys| ==> keys[i] == keys[1..][i - 1];
    }
  }

  /** `__horizontal_or_vertical_move_is_valid(src, dest)`; its fall-through `None`
      (neither file nor rank shared) is read as False, as every caller does. */
  function StraightMoveIsValid(sqs: map<string, SquareTag>, src: string, dest: string): bool
    requires Full(sqs) && IsSquare(src) && |dest| == 2
  {
    if src == dest then false
    else if src[0] == dest[0] then
      if src[1] < dest[1] then PathScan(sqs, src[0], true, src[1], dest[1], Ranks)
      else if src[1] > dest[1] then PathScan(sqs, src[0], true, dest[1], src[1], Ranks)
      else false
    else if src[1] == dest[1] then
      if src[0] > dest[0] then PathScan(sqs, src[1], false, dest[0], src[0], Files)
      else if src[0] < dest[0] then PathScan(sqs, src[1], false, src[0], dest[0], Files)
      else false
    else false
  }

  function MinChar(a: char, b: char): char { if a < b then a else b }
  function MaxChar(a: char, b: char): char { if a < b then b else a }

  /** The rank/file test accepts exactly when the squares differ, share a file or a
      rank, and every square strictly between them on it is out of play. The
      destination need not be a square: "a9" passes from "a7" over an empty a8. */
  lemma StraightMoveMeaning(sqs: map<string, SquareTag>, src: string, dest: string)
    requires Full(sqs) && IsSquare(src) && |dest| == 2
    ensures StraightMoveIsValid(sqs, src, dest) <==>
      src != dest && (src[0] == dest[0] || src[1] == dest[1])
      && (src[0] == dest[0] ==>
            (forall r :: 0 <= r < 8 && MinChar(src[1], dest[1]) < RankChar(r) < MaxChar(src[1], dest[1])
              ==> !Active(sqs, [src[0], RankChar(r)])))
      && (src[0] != dest[0] ==>
            (forall f :: 0 <= f < 8 && MinChar(src[0], dest[0]) < FileChar(f) < MaxChar(src[0], dest[0])
              ==> !Active(sqs, [FileChar(f), src[1]])))
  {
    assert forall r :: 0 <= r < 8 ==> Ranks[r] == RankChar(r);
    assert forall f :: 0 <= f < 8 ==> Files[f] == FileChar(f);
    if src != dest && src[0] == dest[0] {
      PathScanMeaning(sqs, src[0], true, MinChar(src[1], dest[1]), MaxChar(src[1], dest[1]), Ranks);
    } else if src != dest && src[1] == dest[1] {
      PathScanMeaning(sqs, src[1], false, MinChar(src[0], dest[0]), MaxChar(src[0], dest[0]), Files);
    }
  }

  // ---------------------------------------------------------------------------
  // Knight moves (move_checking.py:116, 632-660)
  // ---------------------------------------------------------------------------

  /** `knight_moves`: (file, rank) offsets from the destination to the source. */
  const KnightMoves: seq<(int, int)> := [(-2, -1), (-2, 1), (2, -1), (2, 1), (-1, -2), (-1, 2), (1, -2), (1, 2)]

  /** `__knight_move_is_valid(src, dest)`; `None` where `files.index`/`ranks.index` raise ValueError. */
  function KnightMoveIsValid(src: string, dest: string): Option<bool>
    requires IsSquare(src) && |dest| == 2
  {
    if !IsFile(dest[0]) || !IsRank(dest[1]) then None
    else Some((FileIndex(src[0]) - FileIndex(dest[0]), RankIndex(src[1]) - RankIndex(dest[1])) in KnightMoves)
  }

  function Abs(x: int): nat { if x < 0 then -x else x }

  /** The knight test raises exactly for a destination that is not a square, and
      otherwise accepts exactly the L-shaped jumps. */
  lemma KnightMoveMeaning(src: string, dest: string)
    requires IsSquare(src) && |dest| == 2
    ensures KnightMoveIsValid(src, dest).None? <==> !IsSquare(dest)
    ensures IsSquare(dest) ==>
      var df, dr := Abs(FileIndex(src[0]) - FileIndex(dest[0])), Abs(RankIndex(src[1]) - RankIndex(dest[1]));
      KnightMoveIsValid(src, dest) == Some((df == 1 && dr == 2) || (df == 2 && dr == 1))
  {
  }

  // ---------------------------------------------------------------------------
  // King moves (move_checking.py:662-729)
  // ---------------------------------------------------------------------------

  /** The scan of one diagonal with `check_next_flag`: the first end point raises
      the flag, and an end point met while it is raised returns True. */
  function KingLineScan(line: seq<string>, src: string, dest: string, flag: bool): (r: (bool, bool))
  {
    if line == [] then (false, flag)
    else
      var sq := line[0];
      if !flag then
        if sq == src || sq == dest then KingLineScan(line[1..], src, dest, true)
        else KingLineScan(line[1..], src, dest, false)
      else if sq == src || sq == dest then (true, true)
      else KingLineScan(line[1..], src, dest, true)
  }

  /** The loop over the diagonal list; the flag is set once and never cleared. */
  function KingDiagSearch(ds: seq<seq<string>>, src: string, dest: string, flag: bool): bool
  {
    if ds == [] then false
    else if src in ds[0] && dest in ds[0] then
      var r := KingLineScan(ds[0], src, dest, flag);
      if r.0 then true else KingDiagSearch(ds[1..], src, dest, r.1)
    else KingDiagSearch(ds[1..], src, dest, flag)
  }

  /** `__king_move_is_valid(src, dest)`; `None` where `dest[0]`, `dest[1]`,
      `int(dest[1])` or `files.index(dest[0])` raise. */
  function KingMoveIsValid(src: string, dest: string): Option<bool>
    requires IsSquare(src)
  {
    if src == dest then Some(false)
    else if |dest| < 2 || !IsDigit(dest[1]) then None
    else
      var kingRank, destRank := RankIndex(src[1]) + 1, DigitValue(dest[1]);
      if src[0] == dest[0] && (kingRank - 1 == destRank || kingRank + 1 == destRank) then Some(true)
      else if kingRank == destRank then
        if !IsFile(dest[0]) then None
        else if FileIndex(src[0]) - 1 == FileIndex(dest[0]) || FileIndex(src[0]) + 1 == FileIndex(dest[0]) then Some(true)
        else Some(KingDiagSearch(Diags(), src, dest, false))
      else Some(KingDiagSearch(Diags(), src, dest, false))
  }

  /** With the flag raised and an end point ahead, the scan returns True. */
  lemma {:induction false} KingLineScanRaised(line: seq<string>, src: string, dest: string)
    requires src in line || dest in line
    ensures KingLineScan(line, src, dest, true).0
  {
    if line[0] != src && line[0] != dest {
      KingLineScanRaised(line[1..], src, dest);
    }
  }

  /** With two distinct end points ahead, the scan returns True. */
  lemma {:induction false} KingLineScanBoth(line: seq<string>, src: string, dest: string)
    requires src != dest && src in line && dest in line
    ensures KingLineScan(line, src, dest, false).0
  {
    if line[0] == src || line[0] == dest {
      assert src in line[1..] || dest in line[1..];
      KingLineScanRaised(line[1..], src, dest);
    } else {
      KingLineScanBoth(line[1..], src, dest);
    }
  }

  lemma {:induction false} KingDiagSearchShared(ds: seq<seq<string>>, src: string, dest: string)
    requires src != dest
    ensures KingDiagSearch(ds, src, dest, false) <==> exists k :: 0 <= k < |ds| && src in ds[k] && dest in ds[k]
  {
    if ds != [] {
      if src in ds[0] && dest in ds[0] {
        KingLineScanBoth(ds[0], src, dest);
      } else {
        KingDiagSearchShared(ds[1..], src, dest);
        if exists k :: 0 <= k < |ds| && src in ds[k] && dest in ds[k] {
          var k :| 0 <= k < |ds| && src in ds[k] && dest in ds[k];
          assert ds[1..][k - 1] == ds[k];
        }
      }
    }
  }

  /** A king step along a file or a rank must be exactly one square. */
  lemma KingOrthogonalStep(src: string, dest: string)
    requires IsSquare(src) && IsSquare(dest) && src != dest
    ensures src[0] == dest[0] ==> KingMoveIsValid(src, dest) == Some(Abs(RankIndex(src[1]) - RankIndex(dest[1])) == 1)
    ensures src[1] == dest[1] ==> KingMoveIsValid(src, dest) == Some(Abs(FileIndex(src[0]) - FileIndex(dest[0])) == 1)
  {
    if src[0] == dest[0] {
      KingOnFile(src, dest);
    }
    if src[1] == dest[1] {
      KingOnRank(src, dest);
    }
  }

  /** Along a file. */
  lemma KingOnFile(src: string, dest: string)
    requires IsSquare(src) && IsSquare(dest) && src != dest && src[0] == dest[0]
    ensures KingMoveIsValid(src, dest) == Some(Abs(RankIndex(src[1]) - RankIndex(dest[1])) == 1)
  {
    KingDiagSearchShared(Diags(), src, dest);
    NoSharedDiagonal(src, dest);
    assert DigitValue(dest[1]) == RankIndex(dest[1]) + 1;
    assert RankIndex(src[1]) != RankIndex(dest[1]);
  }

  /** Along a rank. */
  lemma KingOnRank(src: string, dest: string)
    requires IsSquare(src) && IsSquare(dest) && src != dest && src[1] == dest[1]
    ensures KingMoveIsValid(src, dest) == Some(Abs(FileIndex(src[0]) - FileIndex(dest[0])) == 1)
  {
    KingDiagSearchShared(Diags(), src, dest);
    NoSharedDiagonal(src, dest);
    assert DigitValue(dest[1]) == RankIndex(dest[1]) + 1;
    assert FileIndex(src[0]) != FileIndex(dest[0]);
  }

  /** Two distinct squares on one file or one rank share no listed diagonal. */
  lemma NoSharedDiagonal(src: string, dest: string)
    requires IsSquare(src) && IsSquare(dest) && src != dest && (src[0] == dest[0] || src[1] == dest[1])
    ensures !exists k :: 0 <= k < |Diags()| && src in Diags()[k] && dest in Diags()[k]
  {
    DiagsWellFormed();
  }

  /** Off the file and the rank, the king test accepts any two distinct squares on
      a common listed diagonal, however far apart: the flag is never cleared. */
  lemma KingDiagonalAnyDistance(src: string, dest: string)
    requires IsSquare(src) && IsSquare(dest) && src[0] != dest[0] && src[1] != dest[1]
    ensures KingMoveIsValid(src, dest)
      == Some(exists k :: 0 <= k < |Diags()| && src in Diags()[k] && dest in Diags()[k])
  {
    assert KingMoveIsValid(src, dest) == Some(KingDiagSearch(Diags(), src, dest, false));
    KingDiagSearchShared(Diags(), src, dest);
  }

  /** The king test lets a king standing at one end of any listed diagonal
      reach the other end in one move (a1 to h8 is diagonal 0). */
  lemma KingDiagonalEnds(k: int)
    requires 0 <= k < |Diags()|
    ensures (DiagsWellFormed(); var line := Diags()[k];
      KingMoveIsValid(line[0], line[|line| - 1]) == Some(true))
  {
    DiagsWellFormed();
    var line := Diags()[k];
    var src, dest := line[0], line[|line| - 1];
    assert src[0] != dest[0] && src[1] != dest[1];
    KingDiagonalAnyDistance(src, dest);
    assert src in Diags()[k] && dest in Diags()[k];
  }

  // ---------------------------------------------------------------------------
  // Pins (move_checking.py:731-999)
  // ---------------------------------------------------------------------------

  /** Every record has a name of at least two letters, so `name[1]` exists. */
  predicate Named(b: seq<PieceVal>)
  {
    forall k :: 0 <= k < |b| ==> |b[k].name| >= 2
  }

  /** `for i in range(i, lo, -1): if squares[line[i]]: return True`, then False. */
  function AnyActiveDown(sqs: map<string, SquareTag>, line: seq<string>, i: int, lo: int): bool
    requires Full(sqs) && SquaresOnly(line) && i < |line| && lo >= -1
    decreases i - lo
  {
    if i <= lo then false
    else Active(sqs, line[i]) || AnyActiveDown(sqs, line, i - 1, lo)
  }

  /** `for i in range(i, hi): if squares[line[i]]: return True`, then False. */
  function AnyActiveUp(sqs: map<string, SquareTag>, line: seq<string>, i: int, hi: int): bool
    requires Full(sqs) && SquaresOnly(line) && 0 <= i && hi <= |line|
    decreases hi - i
  {
    if i >= hi then false
    else Active(sqs, line[i]) || AnyActiveUp(sqs, line, i + 1, hi)
  }

  /** What the piece found beyond the moving one decides: a friendly piece, or an
      enemy that is neither a queen nor a `slider`, leaves it free; an enemy queen
      or `slider` pins it, and then only a move along the line is allowed. */
  function Verdict(p: PieceVal, tag: char, slider: char, destOnLine: bool): (free: bool)
    requires |p.name| >= 2
    ensures !free <==> p.name[1] != tag && (p.name[0] == 'q' || p.name[0] == slider) && !destOnLine
  {
    if p.name[1] == tag then true
    else if p.name[0] != 'q' && p.name[0] != slider then true
    else destOnLine
  }

  /** The scan beyond the moving piece over `range(i, -1, -1)`: at the first square
      in play, the first record standing on it decides; a square in play that no
      record stands on is passed over. `None` when the scan runs out. */
  function ScanDown(sqs: map<string, SquareTag>, b: seq<PieceVal>, line: seq<string>, i: int,
                    tag: char, slider: char, destOnLine: bool): Option<bool>
    requires Full(sqs) && SquaresOnly(line) && Named(b) && i < |line|
    decreases i + 1
  {
    if i < 0 then None
    else if Active(sqs, line[i]) then
      var x := IndexAt(b, line[i]);
      if x == -1 then ScanDown(sqs, b, line, i - 1, tag, slider, destOnLine)
      else Some(Verdict(b[x], tag, slider, destOnLine))
    else ScanDown(sqs, b, line, i - 1, tag, slider, destOnLine)
  }

  /** The same scan over `range(i, len(line))`. */
  function ScanUp(sqs: map<string, SquareTag>, b: seq<PieceVal>, line: seq<string>, i: int,
                  tag: char, slider: char, destOnLine: bool): Option<bool>
    requires Full(sqs) && SquaresOnly(line) && Named(b) && 0 <= i <= |line|
    decreases |line| - i
  {
    if i == |line| then None
    else if Active(sqs, line[i]) then
      var x := IndexAt(b, line[i]);
      if x == -1 then ScanUp(sqs, b, line, i + 1, tag, slider, destOnLine)
      else Some(Verdict(b[x], tag, slider, destOnLine))
    else ScanUp(sqs, b, line, i + 1, tag, slider, destOnLine)
  }

  /** The rank and file part of the pin test for one line, with the king at
      position `k` and the moving piece at position `s`. */
  function LineCheck(sqs: map<string, SquareTag>, b: seq<PieceVal>, line: seq<string>, k: int, s: int,
                     tag: char, slider: char, destOnLine: bool): bool
    requires Full(sqs) && SquaresOnly(line) && Named(b) && 0 <= k < |line| && 0 <= s < |line|
  {
    if s < k then
      if AnyActiveDown(sqs, line, k - 1, s) then true
      else match ScanDown(sqs, b, line, s - 1, tag, slider, destOnLine)
        case Some(v) => v
        case None => true
    else if s > k then
      if AnyActiveUp(sqs, line, k + 1, s) then true
      else match ScanUp(sqs, b, line, s + 1, tag, slider, destOnLine)
        case Some(v) => v
        case None => true
    else true
  }

  /** The diagonal part of the pin test for one diagonal. Only a moving piece
      listed before the king is examined; the second pair of scans sits inside
      that case, where its first range is empty and its second reaches the king. */
  function DiagCheck(sqs: map<string, SquareTag>, b: seq<PieceVal>, line: seq<string>, k: int, s: int,
                     tag: char, destOnLine: bool): bool
    requires Full(sqs) && SquaresOnly(line) && Named(b) && 0 <= k < |line| && 0 <= s < |line|
  {
    if s < k then
      if AnyActiveDown(sqs, line, k - 1, s) then true
      else match ScanDown(sqs, b, line, s - 1, tag, 'b', destOnLine)
        case Some(v) => v
        case None =>
          if AnyActiveUp(sqs, line, k + 1, s) then true
          else match ScanUp(sqs, b, line, s + 1, tag, 'b', destOnLine)
            case Some(v) => v
            case None => true
    else true
  }

  /** The squares of the king's rank, file a to h. */
  function RankRow(rank: char): (row: seq<string>)
    requires IsRank(rank)
    ensures |row| == 8 && SquaresOnly(row)
    ensures forall f :: 0 <= f < 8 ==> row[f] == SquareName(f, RankIndex(rank))
    ensures forall s :: IsSquare(s) && s[1] == rank ==> row[FileIndex(s[0])] == s
  {
    seq(8, f requires 0 <= f < 8 => [FileChar(f), rank])
  }

  /** The squares of the king's file, rank 1 to 8. */
  function FileColumn(file: char): (col: seq<string>)
    requires IsFile(file)
    ensures |col| == 8 && SquaresOnly(col)
    ensures forall r :: 0 <= r < 8 ==> col[r] == SquareName(FileIndex(file), r)
    ensures forall s :: IsSquare(s) && s[0] == file ==> col[RankIndex(s[1])] == s
  {
    seq(8, r requires 0 <= r < 8 => [file, RankChar(r)])
  }

  /** `king_diags`: the listed diagonals through the king with more than two squares, in order. */
  function KingDiags(ds: seq<seq<string>>, kingPos: string): (r: seq<seq<string>>)
    ensures |r| <= |ds|
    ensures forall j :: 0 <= j < |r| ==> kingPos in r[j] && |r[j]| > 2 && r[j] in ds
    ensures forall d :: d in ds && kingPos in d && |d| > 2 ==> d in r
  {
    if ds == [] then []
    else if kingPos in ds[0] && |ds[0]| > 2 then [ds[0]] + KingDiags(ds[1..], kingPos)
    else KingDiags(ds[1..], kingPos)
  }

  /** The loop over the king's diagonals: the first one holding the moving piece decides. */
  function DiagPin(sqs: map<string, SquareTag>, b: seq<PieceVal>, kds: seq<seq<string>>,
                   kingPos: string, src: string, dest: string, tag: char): bool
    requires Full(sqs) && Named(b)
    requires forall j :: 0 <= j < |kds| ==> SquaresOnly(kds[j]) && kingPos in kds[j]
  {
    if kds == [] then true
    else if src in kds[0] then
      DiagCheck(sqs, b, kds[0], Find(kds[0], kingPos), Find(kds[0], src), tag, dest in kds[0])
    else DiagPin(sqs, b, kds[1..], kingPos, src, dest, tag)
  }

  /** `__piece_is_not_pinned(src, dest, tag)` with the king of colour `tag` on `kingPos`:
      the king's rank decides if it holds the moving piece, else the king's file,
      else the king's diagonals. */
  function PieceIsNotPinned(sqs: map<string, SquareTag>, b: seq<PieceVal>, kingPos: string,
                            src: string, dest: string, tag: char): bool
    requires Full(sqs) && Named(b) && IsSquare(kingPos)
  {
    var row := RankRow(kingPos[1]);
    var col := FileColumn(kingPos[0]);
    if src in row then
      LineCheck(sqs, b, row, Find(row, kingPos), Find(row, src), tag, 'r', dest in row)
    else if src in col then
      LineCheck(sqs, b, col, Find(col, kingPos), Find(col, src), tag, 'r', dest in col)
    else
      DiagsWellFormed();
      DiagPin(sqs, b, KingDiags(Diags(), kingPos), kingPos, src, dest, tag)
  }

  /** Position of the first square in play at or below `i`, or -1. */
  ghost function NearestDown(sqs: map<string, SquareTag>, line: seq<string>, i: int): (t: int)
    requires Full(sqs) && SquaresOnly(line) && -1 <= i < |line|
    ensures -1 <= t <= i
    ensures t >= 0 ==> Active(sqs, line[t])
    ensures forall m :: t < m <= i ==> !Active(sqs, line[m])
    decreases i + 1
  {
    if i < 0 then -1
    else if Active(sqs, line[i]) then i
    else NearestDown(sqs, line, i - 1)
  }

  /** Position of the first square in play at or above `i`, or `|line|`. */
  ghost function NearestUp(sqs: map<string, SquareTag>, line: seq<string>, i: int): (t: int)
    requires Full(sqs) && SquaresOnly(line) && 0 <= i <= |line|
    ensures i <= t <= |line|
    ensures t < |line| ==> Active(sqs, line[t])
    ensures forall m :: i <= m < t ==> !Active(sqs, line[m])
    decreases |line| - i
  {
    if i == |line| then |line|
    else if Active(sqs, line[i]) then i
    else NearestUp(sqs, line, i + 1)
  }

  lemma {:induction false} AnyActiveDownClear(sqs: map<string, SquareTag>, line: seq<string>, i: int, lo: int)
    requires Full(sqs) && SquaresOnly(line) && i < |line| && lo >= -1
    ensures !AnyActiveDown(sqs, line, i, lo) <==> forall m :: lo < m <= i ==> !Active(sqs, line[m])
    decreases i - lo
  {
    if i > lo {
      AnyActiveDownClear(sqs, line, i - 1, lo);
    }
  }

  lemma {:induction false} AnyActiveUpClear(sqs: map<string, SquareTag>, line: seq<string>, i: int, hi: int)
    requires Full(sqs) && SquaresOnly(line) && 0 <= i && hi <= |line|
    ensures !AnyActiveUp(sqs, line, i, hi) <==> forall m :: i <= m < hi ==> !Active(sqs, line[m])
    decreases hi - i
  {
    if i < hi {
      AnyActiveUpClear(sqs, line, i + 1, hi);
    }
  }

  /** On a well-formed board the downward scan is decided by the piece on the
      first square in play. */
  lemma {:induction false} ScanDownFirst(sqs: map<string, SquareTag>, b: seq<PieceVal>, line: seq<string>, i: int,
                                         tag: char, slider: char, destOnLine: bool)
    requires WellFormed(b) && Full(sqs) && SquaresOnly(line) && -1 <= i < |line|
    ensures var t := NearestDown(sqs, line, i);
      ScanDown(sqs, b, line, i, tag, slider, destOnLine)
      == if t == -1 then None else Some(Verdict(At(b, line[t]), tag, slider, destOnLine))
    decreases i + 1
  {
    if i >= 0 {
      if Active(sqs, line[i]) {
        assert IndexAt(b, line[i]) != -1;
      } else {
        ScanDownFirst(sqs, b, line, i - 1, tag, slider, destOnLine);
      }
    }
  }

  /** On a well-formed board the upward scan is decided by the piece on the
      first square in play. */
  lemma {:induction false} ScanUpFirst(sqs: map<string, SquareTag>, b: seq<PieceVal>, line: seq<string>, i: int,
                                       tag: char, slider: char, destOnLine: bool)
    requires WellFormed(b) && Full(sqs) && SquaresOnly(line) && 0 <= i <= |line|
    ensures var t := NearestUp(sqs, line, i);
      ScanUp(sqs, b, line, i, tag, slider, destOnLine)
      == if t == |line| then None else Some(Verdict(At(b, line[t]), tag, slider, destOnLine))
    decreases |line| - i
  {
    if i < |line| {
      if Active(sqs, line[i]) {
        assert IndexAt(b, line[i]) != -1;
      } else {
        ScanUpFirst(sqs, b, line, i + 1, tag, slider, destOnLine);
      }
    }
  }

  /** Position `t` holds the nearest piece in play to position `s` on its side of the line. */
  ghost predicate Nearest(sqs: map<string, SquareTag>, line: seq<string>, s: int, t: int)
    requires Full(sqs) && SquaresOnly(line)
  {
    0 <= t < |line| && t != s && ClearBetween(sqs, line, s, t) && Active(sqs, line[t])
  }

  /** Square `t` pins the piece at position `s` to the king at position `k`: it
      lies beyond `s` seen from the king, nothing in play stands between the king
      and `s`, `t` holds the nearest piece in play beyond `s`, and that piece is an
      enemy queen or `slider`. */
  ghost predicate PinsAt(sqs: map<string, SquareTag>, b: seq<PieceVal>, line: seq<string>, k: int, s: int, t: int,
                         tag: char, slider: char)
    requires WellFormed(b) && Full(sqs) && SquaresOnly(line) && 0 <= k < |line| && 0 <= s < |line|
  {
    (t < s < k || k < s < t) && ClearBetween(sqs, line, k, s) && Nearest(sqs, line, s, t)
    && var p := At(b, line[t]); p.name[1] != tag && (p.name[0] == 'q' || p.name[0] == slider)
  }

  ghost predicate Pinned(sqs: map<string, SquareTag>, b: seq<PieceVal>, line: seq<string>, k: int, s: int,
                         tag: char, slider: char)
    requires WellFormed(b) && Full(sqs) && SquaresOnly(line) && 0 <= k < |line| && 0 <= s < |line|
  {
    exists t :: PinsAt(sqs, b, line, k, s, t, tag, slider)
  }

  /** With the moving piece listed before the king, the two downward scans report
      a pin exactly when there is one and the destination is off the line. */
  lemma DownSide(sqs: map<string, SquareTag>, b: seq<PieceVal>, line: seq<string>, k: int, s: int,
                 tag: char, slider: char, destOnLine: bool)
    requires WellFormed(b) && Full(sqs) && SquaresOnly(line) && 0 <= s < k < |line|
    ensures !AnyActiveDown(sqs, line, k - 1, s) <==> ClearBetween(sqs, line, k, s)
    ensures (!AnyActiveDown(sqs, line, k - 1, s)
             && ScanDown(sqs, b, line, s - 1, tag, slider, destOnLine) == Some(false))
      <==> Pinned(sqs, b, line, k, s, tag, slider) && !destOnLine
  {
    AnyActiveDownClear(sqs, line, k - 1, s);
    ScanDownFirst(sqs, b, line, s - 1, tag, slider, destOnLine);
    var t0 := NearestDown(sqs, line, s - 1);
    assert forall t :: 0 <= t < s && Nearest(sqs, line, s, t) ==> t == t0;
    if ClearBetween(sqs, line, k, s) && t0 >= 0 && Verdict(At(b, line[t0]), tag, slider, destOnLine) == false {
      assert PinsAt(sqs, b, line, k, s, t0, tag, slider);
    }
  }

  /** With the moving piece listed after the king, the two upward scans report
      a pin exactly when there is one and the destination is off the line. */
  lemma UpSide(sqs: map<string, SquareTag>, b: seq<PieceVal>, line: seq<string>, k: int, s: int,
               tag: char, slider: char, destOnLine: bool)
    requires WellFormed(b) && Full(sqs) && SquaresOnly(line) && 0 <= k < s < |line|
    ensures (!AnyActiveUp(sqs, line, k + 1, s)
             && ScanUp(sqs, b, line, s + 1, tag, slider, destOnLine) == Some(false))
      <==> Pinned(sqs, b, line, k, s, tag, slider) && !destOnLine
  {
    AnyActiveUpClear(sqs, line, k + 1, s);
    ScanUpFirst(sqs, b, line, s + 1, tag, slider, destOnLine);
    var t0 := NearestUp(sqs, line, s + 1);
    assert forall t :: s < t < |line| && Nearest(sqs, line, s, t) ==> t == t0;
    if ClearBetween(sqs, line, k, s) && t0 < |line| && Verdict(At(b, line[t0]), tag, slider, destOnLine) == false {
      assert PinsAt(sqs, b, line, k, s, t0, tag, slider);
    }
  }

  /** The rank and file part reports a pin (False) exactly when an enemy queen or
      rook is the first piece in play beyond the moving piece, nothing in play
      stands between the moving piece and the king, and the destination is off the line. */
  lemma LineCheckMeaning(sqs: map<string, SquareTag>, b: seq<PieceVal>, line: seq<string>, k: int, s: int,
                         tag: char, destOnLine: bool)
    requires WellFormed(b) && Full(sqs) && SquaresOnly(line) && 0 <= k < |line| && 0 <= s < |line|
    ensures LineCheck(sqs, b, line, k, s, tag, 'r', destOnLine)
      <==> !(Pinned(sqs, b, line, k, s, tag, 'r') && !destOnLine)
  {
    if s < k {
      DownSide(sqs, b, line, k, s, tag, 'r', destOnLine);
    } else if s > k {
      UpSide(sqs, b, line, k, s, tag, 'r', destOnLine);
    }
  }

  /** The diagonal part reports a pin exactly when the moving piece is listed
      before the king and an enemy queen or bishop pins it with the destination
      off the diagonal; a piece listed after the king is never reported pinned.
      The king must be in play on its own square, where the fallback scan ends. */
  lemma DiagCheckMeaning(sqs: map<string, SquareTag>, b: seq<PieceVal>, line: seq<string>, k: int, s: int,
                         tag: char, destOnLine: bool)
    requires WellFormed(b) && Full(sqs) && SquaresOnly(line) && 0 <= k < |line| && 0 <= s < |line|
    requires Active(sqs, line[k]) && At(b, line[k]).name[1] == tag
    ensures DiagCheck(sqs, b, line, k, s, tag, destOnLine)
      <==> !(s < k && Pinned(sqs, b, line, k, s, tag, 'b') && !destOnLine)
  {
    if s < k {
      DownSide(sqs, b, line, k, s, tag, 'b', destOnLine);
      if ClearBetween(sqs, line, k, s) {
        ScanUpFirst(sqs, b, line, s + 1, tag, 'b', destOnLine);
        var t := NearestUp(sqs, line, s + 1);
        assert t == k;
      }
    }
  }

  /** Index of the first line holding `x`, or -1. */
  function FirstWith(ds: seq<seq<string>>, x: string): (j: int)
    ensures -1 <= j < |ds|
    ensures j >= 0 ==> x in ds[j]
    ensures forall m :: 0 <= m < |ds| && (j == -1 || m < j) ==> x !in ds[m]
  {
    if ds == [] then -1
    else if x in ds[0] then 0
    else
      var j := FirstWith(ds[1..], x);
      if j == -1 then -1 else j + 1
  }

  lemma {:induction false} DiagPinFirst(sqs: map<string, SquareTag>, b: seq<PieceVal>, kds: seq<seq<string>>,
                                        kingPos: string, src: string, dest: string, tag: char)
    requires Full(sqs) && Named(b)
    requires forall j :: 0 <= j < |kds| ==> SquaresOnly(kds[j]) && kingPos in kds[j]
    ensures var j := FirstWith(kds, src);
      DiagPin(sqs, b, kds, kingPos, src, dest, tag)
      == (j == -1 || DiagCheck(sqs, b, kds[j], Find(kds[j], kingPos), Find(kds[j], src), tag, dest in kds[j]))
  {
    if kds != [] && src !in kds[0] {
      DiagPinFirst(sqs, b, kds[1..], kingPos, src, dest, tag);
    }
  }

  /** The pin test on the king's rank: when the rank holds the moving piece, it
      reports a pin exactly when an enemy queen or rook pins the piece to the
      king along the rank and the destination is off the rank. */
  lemma PinOnRank(sqs: map<string, SquareTag>, b: seq<PieceVal>, kingPos: string, src: string, dest: string, tag: char)
    requires WellFormed(b) && Full(sqs) && IsSquare(kingPos)
    requires src in RankRow(kingPos[1])
    ensures var row := RankRow(kingPos[1]);
      PieceIsNotPinned(sqs, b, kingPos, src, dest, tag)
      <==> !(Pinned(sqs, b, row, Find(row, kingPos), Find(row, src), tag, 'r') && dest !in row)
  {
    var row := RankRow(kingPos[1]);
    LineCheckMeaning(sqs, b, row, Find(row, kingPos), Find(row, src), tag, dest in row);
  }

  /** The pin test on the king's file, reached when the rank does not hold the
      moving piece but the file does: the same with the file. */
  lemma PinOnFile(sqs: map<string, SquareTag>, b: seq<PieceVal>, kingPos: string, src: string, dest: string, tag: char)
    requires WellFormed(b) && Full(sqs) && IsSquare(kingPos)
    requires src !in RankRow(kingPos[1]) && src in FileColumn(kingPos[0])
    ensures var col := FileColumn(kingPos[0]);
      PieceIsNotPinned(sqs, b, kingPos, src, dest, tag)
      <==> !(Pinned(sqs, b, col, Find(col, kingPos), Find(col, src), tag, 'r') && dest !in col)
  {
    var col := FileColumn(kingPos[0]);
    LineCheckMeaning(sqs, b, col, Find(col, kingPos), Find(col, src), tag, dest in col);
  }

  /** The pin test off the king's rank and file: the first of the king's
      diagonals that holds the moving piece decides. It reports a pin exactly
      when the piece is listed before the king there, an enemy queen or bishop
      pins it, and the destination is off that diagonal. */
  lemma PinOnDiagonal(sqs: map<string, SquareTag>, b: seq<PieceVal>, kingPos: string, src: string, dest: string, tag: char)
    requires WellFormed(b) && Full(sqs) && IsSquare(kingPos)
    requires Active(sqs, kingPos) && At(b, kingPos).name[1] == tag
    requires src !in RankRow(kingPos[1]) && src !in FileColumn(kingPos[0])
    ensures (DiagsWellFormed();
      var kds := KingDiags(Diags(), kingPos);
      var j := FirstWith(kds, src);
      PieceIsNotPinned(sqs, b, kingPos, src, dest, tag)
      <==> !(j != -1 && Find(kds[j], src) < Find(kds[j], kingPos)
             && Pinned(sqs, b, kds[j], Find(kds[j], kingPos), Find(kds[j], src), tag, 'b')
             && dest !in kds[j]))
  {
    DiagsWellFormed();
    var kds := KingDiags(Diags(), kingPos);
    DiagPinFirst(sqs, b, kds, kingPos, src, dest, tag);
    var j := FirstWith(kds, src);
    if j != -1 {
      DiagCheckMeaning(sqs, b, kds[j], Find(kds[j], kingPos), Find(kds[j], src), tag, dest in kds[j]);
    }
  }
}
