/**
  The game loader (game_loader.py). When a game is opened, every token is
  replayed once. After each half move the loader records four things:
  - a snapshot of the 64 records;
  - the captured-piece tally together with the material balance;
  - whether the token was a capture;
  - whose king it marked as checked.
  A cursor then walks through those records.
*/
module GameLoading {
  import opened Wrappers
  import opened Text
  import opened Squares
  import opened Pieces
  import opened Boards
  import opened MoveChecking

  // ---------------------------------------------------------------------------
  // Snapshots and material (lines 90, 106-111, 132-138)
  // ---------------------------------------------------------------------------

  /** What the viewer keeps of one record: the first two letters of its name and its display cell. */
  datatype Cell = Cell(name: string, row: int, col: int)

  function CellOf(p: PieceVal): Cell
  {
    Cell(Slice(p.name, 0, 2), p.row, p.col)
  }

  /** The snapshot of a record list, in list order. */
  function Snapshot(b: seq<PieceVal>): (s: seq<Cell>)
    ensures |s| == |b|
    ensures forall k :: 0 <= k < |b| ==> s[k] == CellOf(b[k])
  {
    if b == [] then [] else Snapshot(b[..|b| - 1]) + [CellOf(b[|b| - 1])]
  }

  /** A snapshot of some well-formed board. */
  ghost predicate Shows(s: seq<Cell>)
  {
    exists b :: WellFormed(b) && s == Snapshot(b)
  }

  /** A snapshot of a well-formed board shows each of the 64 display cells
      exactly once, each under a two-letter name. */
  lemma SnapshotShowsBoard(s: seq<Cell>)
    requires Shows(s)
    ensures |s| == 64
    ensures forall k :: 0 <= k < 64 ==> 0 <= s[k].row < 8 && 0 <= s[k].col < 8 && |s[k].name| == 2
    ensures forall i, j :: 0 <= i < j < 64 ==> s[i].row != s[j].row || s[i].col != s[j].col
    ensures forall sq :: IsSquare(sq) ==> exists k :: 0 <= k < 64 && s[k].row == RowOf(sq) && s[k].col == ColOf(sq)
  {
    var b :| WellFormed(b) && s == Snapshot(b);
    forall k | 0 <= k < 64 ensures 0 <= s[k].row < 8 && 0 <= s[k].col < 8 && |s[k].name| == 2 {
      assert Sane(b[k]);
    }
    forall i, j | 0 <= i < j < 64 ensures s[i].row != s[j].row || s[i].col != s[j].col {
      CellsDistinct(b, i, j);
    }
    forall sq | IsSquare(sq) ensures exists k :: 0 <= k < 64 && s[k].row == RowOf(sq) && s[k].col == ColOf(sq) {
      var k := IndexAt(b, sq);
      assert k != -1;
      assert Sane(b[k]);
      assert s[k].row == RowOf(sq) && s[k].col == ColOf(sq);
    }
  }

  /** `values` (line 90): the worth of a two-letter name, positive for white
      and negative for black. Kings and decoys are not listed (KeyError). */
  function Worth(key: string): (w: Option<int>)
    ensures w.Some? <==> |key| == 2 && key[0] in "qrbnp" && (key[1] == 'w' || key[1] == 'b')
    ensures w.Some? ==> (key[1] == 'w' <==> w.value > 0)
  {
    if key == "qw" then Some(9) else if key == "qb" then Some(-9)
    else if key == "rw" then Some(5) else if key == "rb" then Some(-5)
    else if key == "bw" then Some(3) else if key == "bb" then Some(-3)
    else if key == "nw" then Some(3) else if key == "nb" then Some(-3)
    else if key == "pw" then Some(1) else if key == "pb" then Some(-1)
    else None
  }

  /** The worth a cell adds to `adv`: none for a name `values` does not list. */
  function CellWorth(c: Cell): int
  {
    var w := Worth(c.name);
    if w.Some? then w.value else 0
  }

  /** The material balance `adv` of a snapshot (lines 134-138). */
  function Balance(s: seq<Cell>): int
  {
    if s == [] then 0 else Balance(s[..|s| - 1]) + CellWorth(s[|s| - 1])
  }

  lemma {:induction false} BalanceAppend(a: seq<Cell>, c: seq<Cell>)
    ensures Balance(a + c) == Balance(a) + Balance(c)
    decreases |c|
  {
    if c == [] {
      assert a + c == a;
    } else {
      assert (a + c)[..|a + c| - 1] == a + c[..|c| - 1];
      BalanceAppend(a, c[..|c| - 1]);
    }
  }

  /** One more record: its cell joins the snapshot and its worth the balance. */
  lemma SurveyStep(b: seq<PieceVal>, i: int, snap: seq<Cell>)
    requires 0 <= i < |b| && snap == Snapshot(b[..i])
    ensures var c := CellOf(b[i]);
      Snapshot(b[..i + 1]) == snap + [c] && Balance(snap + [c]) == Balance(snap) + CellWorth(c)
  {
    var c := CellOf(b[i]);
    assert b[..i + 1][..i] == b[..i];
    assert (snap + [c])[..|snap + [c]| - 1] == snap;
  }

  /** Two snapshots whose cells have opposite worths, entry by entry, have opposite balances. */
  lemma {:induction false} BalanceMirror(a: seq<Cell>, c: seq<Cell>)
    requires |a| == |c| && forall k :: 0 <= k < |a| ==> CellWorth(a[k]) == -CellWorth(c[k])
    ensures Balance(a) == -Balance(c)
    decreases |a|
  {
    if a != [] {
      BalanceMirror(a[..|a| - 1], c[..|c| - 1]);
    }
  }

  /** Cells with no worth add nothing. */
  lemma {:induction false} BalanceOfBlanks(a: seq<Cell>)
    requires forall k :: 0 <= k < |a| ==> CellWorth(a[k]) == 0
    ensures Balance(a) == 0
    decreases |a|
  {
    if a != [] {
      BalanceOfBlanks(a[..|a| - 1]);
    }
  }

  /** The same kind letter in white and in black has opposite worth. */
  lemma WorthMirror(x: char)
    ensures CellWorth(Cell([x, 'w'], 0, 0)) == -CellWorth(Cell([x, 'b'], 0, 0))
  {
  }

  /** The starting position is level: its balance is the advantage 0 that the
      first tally entry records (line 87). */
  lemma InitialBalance()
    ensures Balance(Snapshot(InitialPieces())) == 0
  {
    var s := Snapshot(InitialPieces());
    assert s == s[..32] + s[32..];
    BalanceAppend(s[..32], s[32..]);
    InitialPiecesBalance(s);
    InitialBlanksBalance(s);
  }

  /** The sixteen white records and the sixteen black ones cancel out. */
  lemma InitialPiecesBalance(s: seq<Cell>)
    requires s == Snapshot(InitialPieces())
    ensures Balance(s[..32]) == 0
  {
    var w, k := s[..16], s[16..32];
    assert s[..32] == w + k;
    BalanceAppend(w, k);
    forall i | 0 <= i < 16 ensures CellWorth(w[i]) == -CellWorth(k[i]) {
      InitialMirror(i);
    }
    BalanceMirror(w, k);
  }

  /** The thirty-two unused records are worth nothing. */
  lemma InitialBlanksBalance(s: seq<Cell>)
    requires s == Snapshot(InitialPieces())
    ensures Balance(s[32..]) == 0
  {
    var d := s[32..];
    forall i | 0 <= i < 32 ensures CellWorth(d[i]) == 0 {
      InitialBlank(i + 32);
    }
    BalanceOfBlanks(d);
  }

  /** White record `i` and black record `i + 16` of the starting list are the same kind. */
  lemma InitialMirror(i: int)
    requires 0 <= i < 16
    ensures CellWorth(CellOf(InitialPiece(i))) == -CellWorth(CellOf(InitialPiece(i + 16)))
  {
    var p, q := InitialPiece(i), InitialPiece(i + 16);
    InitialSameKind(i);
    WorthOfRecord(p);
    WorthOfRecord(q);
    WorthMirror(p.name[0]);
  }

  /** Record `i + 16` of the starting list is record `i` in black. */
  lemma InitialSameKind(i: int)
    requires 0 <= i < 16
    ensures var p, q := InitialPiece(i), InitialPiece(i + 16);
      p.name[0] == q.name[0] && p.name[1] == 'w' && q.name[1] == 'b'
  {
    assert (i + 16) % 16 == i;
  }

  /** A record's worth depends on its first two letters only. */
  lemma WorthOfRecord(p: PieceVal)
    requires |p.name| >= 2
    ensures CellWorth(CellOf(p)) == CellWorth(Cell([p.name[0], p.name[1]], 0, 0))
  {
    assert CellOf(p).name == [p.name[0], p.name[1]];
  }

  /** The decoys of the starting list are worth nothing. */
  lemma InitialBlank(i: int)
    requires 32 <= i < 64
    ensures CellWorth(CellOf(InitialPiece(i))) == 0
  {
    assert CellOf(InitialPiece(i)).name == "  ";
  }

  // ---------------------------------------------------------------------------
  // The captured-piece tally (lines 85-87, 206-229)
  // ---------------------------------------------------------------------------

  /** One entry of `captured_diff_per_round`. For each kind it holds the white
      pieces captured minus the black pieces captured; it also holds the
      material balance. */
  datatype Tally = Tally(p: int, n: int, b: int, r: int, q: int, advantage: int)

  const NoCaptures: Tally := Tally(0, 0, 0, 0, 0, 0)

  /** The kind letters the tally keys on. */
  const Kinds: string := "pnbrq"

  function Count(t: Tally, kind: char): int
    requires kind in Kinds
  {
    match kind
    case 'p' => t.p
    case 'n' => t.n
    case 'b' => t.b
    case 'r' => t.r
    case _ => t.q
  }

  function Bumped(t: Tally, kind: char, d: int): Tally
    requires kind in Kinds
  {
    match kind
    case 'p' => t.(p := t.p + d)
    case 'n' => t.(n := t.n + d)
    case 'b' => t.(b := t.b + d)
    case 'r' => t.(r := t.r + d)
    case _ => t.(q := t.q + d)
  }

  /** +1 for a white name, -1 for a black one, 0 otherwise (a decoy). */
  function Side(colour: char): int
  {
    if colour == 'w' then 1 else if colour == 'b' then -1 else 0
  }

  /** `__update_captured_piece_dict`: the entry after the capture of `name`.
      The result is None where Python raises: an IndexError for a name shorter
      than two letters, or a KeyError for a coloured name whose kind is not
      counted (a king). */
  function Tallied(last: Tally, name: string, advantage: int): (r: Option<Tally>)
    ensures r.Some? <==> |name| >= 2 && ((name[1] == 'w' || name[1] == 'b') ==> name[0] in Kinds)
    ensures r.Some? ==> r.value.advantage == advantage
    ensures r.Some? ==> forall k :: k in Kinds ==>
      Count(r.value, k) == Count(last, k) + (if k == name[0] then Side(name[1]) else 0)
  {
    if |name| < 2 then None
    else
      var t := last.(advantage := advantage);
      if name[1] == 'w' then
        if name[0] in Kinds then Some(Bumped(t, name[0], 1)) else None
      else if name[1] == 'b' then
        if name[0] in Kinds then Some(Bumped(t, name[0], -1)) else None
      else Some(t)
  }

  // ---------------------------------------------------------------------------
  // The replay (lines 62-148)
  // ---------------------------------------------------------------------------

  /** Why opening a game fails: the exceptions of my_exceptions.py the loader
      raises, and any exception the move checker lets escape. */
  datatype LoadError =
    | NoMovesFound
    | FalseGame(message: string)
    | FriendlyCapture(message: string)
    | Uncaught

  /** The four per-round lists: `info_dictionaries_per_round`,
      `captured_diff_per_round`, `captures_per_round` and `check_per_round`. */
  datatype History = History(snapshots: seq<seq<Cell>>, tallies: seq<Tally>, captures: seq<bool>, checks: seq<Option<char>>)

  /** The lists before the first move. */
  function Start(): History
  {
    History([Snapshot(InitialPieces())], [NoCaptures], [false], [None])
  }

  /** All four lists hold `n` entries. */
  predicate Entries(h: History, n: int)
  {
    |h.snapshots| == n && |h.tallies| == n && |h.captures| == n && |h.checks| == n
  }

  /** The text an exception carries: the move number and the token of half move `i`. */
  function Message(moves: seq<string>, i: int): string
    requires 0 <= i < |moves|
  {
    NatToString(i / 2 + 1) + ". " + moves[i]
  }

  /** What a round records once the move checker has played token `i`
      (lines 123-148). The inputs are what the checker reports: the records,
      the returned name, the friendly-capture flag, and the capture and check
      marks. The result is the lists extended by one entry, or the exception
      the loader raises. */
  function Record(pieces: seq<PieceVal>, outcome: Outcome, friendly: bool, capture: bool, check: Option<char>,
                  moves: seq<string>, i: nat, h: History): (r: Result<(seq<PieceVal>, History), LoadError>)
    requires WellFormed(pieces) && i < |moves| && Entries(h, i + 1)
    ensures r.Success? ==> outcome.Returned? && outcome.value.Some? && !friendly && r.value.0 == pieces
    ensures r.Success? ==> Entries(r.value.1, i + 2)
    ensures r.Success? ==> forall k :: 0 <= k <= i ==>
      r.value.1.snapshots[k] == h.snapshots[k] && r.value.1.tallies[k] == h.tallies[k]
      && r.value.1.captures[k] == h.captures[k] && r.value.1.checks[k] == h.checks[k]
    ensures r.Failure? ==> !r.error.NoMovesFound?
    ensures outcome.Raised? ==> r == Failure(Uncaught)
    ensures outcome == Returned(None) ==> r == Failure(FalseGame(Message(moves, i)))
    ensures outcome.Returned? && outcome.value.Some? && friendly ==> r == Failure(FriendlyCapture(Message(moves, i)))
    ensures outcome.Returned? && outcome.value.Some? && !friendly ==>
      var t := Tallied(h.tallies[i], outcome.value.value, Balance(Snapshot(pieces)));
      (r.Success? <==> t.Some?) && (t.None? ==> r == Failure(Uncaught))
      && (t.Some? ==> r.value.1.snapshots[i + 1] == Snapshot(pieces) && r.value.1.tallies[i + 1] == t.value
                      && r.value.1.captures[i + 1] == capture && r.value.1.checks[i + 1] == check)
  {
    match outcome
    case Raised => Failure(Uncaught)
    case Returned(captured) =>
      if captured.None? then Failure(FalseGame(Message(moves, i)))
      else if friendly then Failure(FriendlyCapture(Message(moves, i)))
      else
        var snap := Snapshot(pieces);
        match Tallied(h.tallies[i], captured.value, Balance(snap))
        case None => Failure(Uncaught)
        case Some(t) => Success((pieces, History(h.snapshots + [snap], h.tallies + [t], h.captures + [capture], h.checks + [check])))
  }

  /** One round of the replay (lines 117-148): token `i` played on records `b`. */
  function Round(b: seq<PieceVal>, moves: seq<string>, i: nat, h: History): (r: Result<(seq<PieceVal>, History), LoadError>)
    requires WellFormed(b) && i < |moves| && Entries(h, i + 1)
    ensures r.Success? ==> WellFormed(r.value.0) && Entries(r.value.1, i + 2)
    ensures r.Success? ==> forall k :: 0 <= k <= i ==>
      r.value.1.snapshots[k] == h.snapshots[k] && r.value.1.tallies[k] == h.tallies[k]
      && r.value.1.captures[k] == h.captures[k] && r.value.1.checks[k] == h.checks[k]
    ensures r.Failure? ==> !r.error.NoMovesFound?
  {
    var s := Step(b, moves, i);
    Record(s.pieces, s.outcome, s.friendly == Some(true), s.capture, s.check, moves, i, h)
  }

  /** Rounds `i` onwards, from records `b` and the lists `h` of the rounds before `i`. */
  function ReplayFrom(b: seq<PieceVal>, moves: seq<string>, i: nat, h: History): (r: Result<History, LoadError>)
    requires WellFormed(b) && i <= |moves| && Entries(h, i + 1)
    ensures r.Success? ==> Entries(r.value, |moves| + 1)
    ensures r.Success? ==> forall k :: 0 <= k <= i ==>
      r.value.snapshots[k] == h.snapshots[k] && r.value.tallies[k] == h.tallies[k]
      && r.value.captures[k] == h.captures[k] && r.value.checks[k] == h.checks[k]
    ensures r.Failure? ==> !r.error.NoMovesFound?
    decreases |moves| - i
  {
    if i == |moves| then Success(h)
    else
      match Round(b, moves, i, h)
      case Failure(e) => Failure(e)
      case Success((c, h')) => ReplayFrom(c, moves, i + 1, h')
  }

  /** Every position the replay records is a snapshot of a well-formed board,
      and the advantage recorded with it is its material balance. */
  lemma ReplayRecordsBoards(b: seq<PieceVal>, moves: seq<string>, i: nat, h: History)
    requires WellFormed(b) && i <= |moves| && Entries(h, i + 1)
    ensures var r := ReplayFrom(b, moves, i, h);
      r.Success? ==> forall k :: i < k <= |moves| ==>
        Shows(r.value.snapshots[k]) && r.value.tallies[k].advantage == Balance(r.value.snapshots[k])
  {
    forall k | i < k <= |moves| {
      ReplayBoardAt(b, moves, i, h, k);
    }
  }

  lemma {:induction false} ReplayBoardAt(b: seq<PieceVal>, moves: seq<string>, i: nat, h: History, k: int)
    requires WellFormed(b) && i < k <= |moves| && Entries(h, i + 1)
    ensures var r := ReplayFrom(b, moves, i, h);
      r.Success? ==> Shows(r.value.snapshots[k]) && r.value.tallies[k].advantage == Balance(r.value.snapshots[k])
    decreases |moves| - i
  {
    var rd := Round(b, moves, i, h);
    if rd.Success? {
      var c, h' := rd.value.0, rd.value.1;
      assert ReplayFrom(b, moves, i, h) == ReplayFrom(c, moves, i + 1, h');
      if k == i + 1 {
        RoundShowsBoard(b, moves, i, h);
      } else {
        ReplayBoardAt(c, moves, i + 1, h', k);
      }
    }
  }

  /** The entry one round appends is a snapshot of a well-formed board, and the
      advantage stored with it is that snapshot's balance. */
  lemma RoundShowsBoard(b: seq<PieceVal>, moves: seq<string>, i: nat, h: History)
    requires WellFormed(b) && i < |moves| && Entries(h, i + 1)
    ensures var r := Round(b, moves, i, h);
      r.Success? ==> (Shows(r.value.1.snapshots[i + 1])
        && r.value.1.tallies[i + 1].advantage == Balance(r.value.1.snapshots[i + 1]))
  {
    var s := Step(b, moves, i);
    if s.outcome.Returned? && s.outcome.value.Some? && s.friendly != Some(true) {
      var snap := Snapshot(s.pieces);
      var t := Tallied(h.tallies[i], s.outcome.value.value, Balance(snap));
      if t.Some? {
        var h' := History(h.snapshots + [snap], h.tallies + [t.value], h.captures + [s.capture], h.checks + [s.check]);
        assert Round(b, moves, i, h) == Success((s.pieces, h'));
        assert h'.snapshots[i + 1] == snap && h'.tallies[i + 1] == t.value;
        assert Shows(snap);
      }
    }
  }

  /** The capture and check entries of round `k + 1` describe token `k`: a
      capture exactly when it holds an `x`, and a check only against the side
      that did not move. */
  lemma ReplayRecordsMarks(b: seq<PieceVal>, moves: seq<string>, i: nat, h: History)
    requires WellFormed(b) && i <= |moves| && Entries(h, i + 1)
    ensures var r := ReplayFrom(b, moves, i, h);
      r.Success? ==> forall k :: i <= k < |moves| ==>
        (r.value.captures[k + 1] <==> 'x' in moves[k])
        && (r.value.checks[k + 1].Some? ==> r.value.checks[k + 1].value != Mover(k))
  {
    forall k | i <= k < |moves| {
      ReplayMarksAt(b, moves, i, h, k);
    }
  }

  lemma {:induction false} ReplayMarksAt(b: seq<PieceVal>, moves: seq<string>, i: nat, h: History, k: int)
    requires WellFormed(b) && i <= k < |moves| && Entries(h, i + 1)
    ensures var r := ReplayFrom(b, moves, i, h);
      r.Success? ==> ((r.value.captures[k + 1] <==> 'x' in moves[k])
        && (r.value.checks[k + 1].Some? ==> r.value.checks[k + 1].value != Mover(k)))
    decreases |moves| - i
  {
    var rd := Round(b, moves, i, h);
    if rd.Success? {
      var c, h' := rd.value.0, rd.value.1;
      assert ReplayFrom(b, moves, i, h) == ReplayFrom(c, moves, i + 1, h');
      if k == i {
        RoundRecordsMarks(b, moves, i, h);
      } else {
        ReplayMarksAt(c, moves, i + 1, h', k);
      }
    }
  }

  /** The marks one round appends: a capture exactly when the token holds an
      `x`, and a check only against the side that did not move. */
  lemma RoundRecordsMarks(b: seq<PieceVal>, moves: seq<string>, i: nat, h: History)
    requires WellFormed(b) && i < |moves| && Entries(h, i + 1)
    ensures var r := Round(b, moves, i, h);
      r.Success? ==> ((r.value.1.captures[i + 1] <==> 'x' in moves[i])
        && (r.value.1.checks[i + 1].Some? ==> r.value.1.checks[i + 1].value != Mover(i)))
  {
    var s := Step(b, moves, i);
    if s.outcome.Returned? && s.outcome.value.Some? && s.friendly != Some(true) {
      var snap := Snapshot(s.pieces);
      var t := Tallied(h.tallies[i], s.outcome.value.value, Balance(snap));
      if t.Some? {
        var h' := History(h.snapshots + [snap], h.tallies + [t.value], h.captures + [s.capture], h.checks + [s.check]);
        assert Round(b, moves, i, h) == Success((s.pieces, h'));
        assert h'.captures[i + 1] == s.capture && h'.checks[i + 1] == s.check;
      }
    }
  }

  /** A FalseGame or FriendlyCapture names the move number and token of one of the replayed half moves. */
  lemma {:induction false} ReplayBlamesToken(b: seq<PieceVal>, moves: seq<string>, i: nat, h: History)
    requires WellFormed(b) && i <= |moves| && Entries(h, i + 1)
    ensures var r := ReplayFrom(b, moves, i, h);
      r.Failure? && (r.error.FalseGame? || r.error.FriendlyCapture?) ==>
        exists k :: i <= k < |moves| && r.error.message == Message(moves, k)
    decreases |moves| - i
  {
    if i < |moves| {
      var s := Step(b, moves, i);
      if s.outcome.Returned? && s.outcome.value.Some? && s.friendly != Some(true) {
        var snap := Snapshot(s.pieces);
        var t := Tallied(h.tallies[i], s.outcome.value.value, Balance(snap));
        if t.Some? {
          var h' := History(h.snapshots + [snap], h.tallies + [t.value], h.captures + [s.capture], h.checks + [s.check]);
          assert Round(b, moves, i, h) == Success((s.pieces, h'));
          ReplayBlamesToken(s.pieces, moves, i + 1, h');
        }
      }
    }
  }

  /** The whole replay of a game's tokens: the four lists, or the exception that
      stops the loader. */
  function Replay(moves: seq<string>): (r: Result<History, LoadError>)
    ensures r == Failure(NoMovesFound) <==> |moves| == 0
    ensures r.Success? ==> (Entries(r.value, |moves| + 1)
      && r.value.snapshots[0] == Snapshot(InitialPieces()) && r.value.tallies[0] == NoCaptures
      && !r.value.captures[0] && r.value.checks[0] == None)
    ensures r.Success? ==> forall k :: 0 <= k <= |moves| ==>
      Shows(r.value.snapshots[k]) && r.value.tallies[k].advantage == Balance(r.value.snapshots[k])
    ensures r.Success? ==> forall k :: 0 <= k < |moves| ==>
      (r.value.captures[k + 1] <==> 'x' in moves[k])
      && (r.value.checks[k + 1].Some? ==> r.value.checks[k + 1].value != Mover(k))
    ensures r.Failure? && (r.error.FalseGame? || r.error.FriendlyCapture?) ==>
      exists k :: 0 <= k < |moves| && r.error.message == Message(moves, k)
  {
    if |moves| == 0 then Failure(NoMovesFound)
    else
      InitialWellFormed();
      InitialBalance();
      ReplayRecordsBoards(InitialPieces(), moves, 0, Start());
      ReplayRecordsMarks(InitialPieces(), moves, 0, Start());
      ReplayBlamesToken(InitialPieces(), moves, 0, Start());
      ReplayFrom(InitialPieces(), moves, 0, Start())
  }

  // ---------------------------------------------------------------------------
  // The cursor (lines 150-204)
  // ---------------------------------------------------------------------------

  /** The cursor after `next_move(force)`; None where PositionReached is raised,
      which leaves the cursor where it was. */
  function NextRound(round: int, length: int, force: bool): (r: Option<int>)
    ensures r.None? <==> round >= length - 1 && !force
    ensures r.Some? ==> r.value == round + 1
  {
    if round < length - 1 then Some(round + 1)
    else if force then Some(round + 1)
    else None
  }

  /** The cursor after `previous_move(force)`; None where PositionReached is raised. */
  function PreviousRound(round: int, force: bool): (r: Option<int>)
    ensures r.None? <==> round <= 1 && !force
    ensures r.Some? ==> r.value == round - 1
  {
    if round > 1 then Some(round - 1)
    else if force then Some(round - 1)
    else None
  }

  /** What the viewer asks of the cursor. */
  datatype Command = Next(force: bool) | Previous(force: bool) | Restart

  predicate Unforced(c: Command)
  {
    c.Restart? || !c.force
  }

  /** The cursor after one command; a raised PositionReached leaves it unchanged. */
  function Navigate(round: int, length: int, c: Command): int
  {
    match c
    case Next(force) => var r := NextRound(round, length, force); if r.Some? then r.value else round
    case Previous(force) => var r := PreviousRound(round, force); if r.Some? then r.value else round
    case Restart => 0
  }

  /** The cursor after a series of commands. */
  function Walk(round: int, length: int, cmds: seq<Command>): int
    decreases |cmds|
  {
    if cmds == [] then round else Walk(Navigate(round, length, cmds[0]), length, cmds[1..])
  }

  /** Without `force` the cursor stays on the positions before the last move:
      from any of them, every series of unforced commands leads to one of them. */
  lemma {:induction false} UnforcedWalkStaysInRange(round: int, length: int, cmds: seq<Command>)
    requires 0 <= round < length
    requires forall k :: 0 <= k < |cmds| ==> Unforced(cmds[k])
    ensures 0 <= Walk(round, length, cmds) < length
    decreases |cmds|
  {
    if cmds != [] {
      UnforcedWalkStaysInRange(Navigate(round, length, cmds[0]), length, cmds[1..]);
    }
  }

  /** `force` reaches the two ends: the final position `length`, the last of the
      `length + 1` snapshots, and the initial position 0. */
  lemma ForcedStepsReachEnds(length: int)
    requires length >= 1
    ensures NextRound(length - 1, length, true) == Some(length)
    ensures NextRound(length - 1, length, false) == None
    ensures PreviousRound(1, true) == Some(0) && PreviousRound(1, false) == None
  {
  }

  // ---------------------------------------------------------------------------
  // The loader object
  // ---------------------------------------------------------------------------

  class GameLoader {
    /** The move checker replaying the game (the source's parent class). */
    var checker: MoveChecker
    var snapshots: seq<seq<Cell>>
    var tallies: seq<Tally>
    var captures: seq<bool>
    var checks: seq<Option<char>>
    /** The half move the viewer shows. */
    var round: int

    ghost predicate Valid()
      reads this, checker, checker.board
    {
      checker.Valid()
    }

    function Recorded(): History
      reads this
    {
      History(snapshots, tallies, captures, checks)
    }

    /** Lines 81-111: a new move checker, the lists holding round 0, the cursor on it. */
    constructor (moves: seq<string>)
      ensures Valid() && fresh(checker) && fresh(checker.board) && fresh(checker.board.grid)
      ensures checker.moves == moves && checker.roundCnt == -1
      ensures checker.board.pieces == InitialPieces() && !checker.board.friendlyCapture
      ensures Recorded() == Start() && round == 0
    {
      checker := new MoveChecker(moves);
      tallies := [NoCaptures];
      captures := [false];
      checks := [None];
      round := 0;
      new;
      var snap, _ := Survey();
      snapshots := [snap];
    }

    /** One pass over the records: their snapshot and the balance `adv`. */
    method Survey() returns (snap: seq<Cell>, adv: int)
      ensures snap == Snapshot(checker.board.pieces) && adv == Balance(snap)
    {
      var ps := checker.board.pieces;
      snap := [];
      adv := 0;
      var i := 0;
      while i < |ps|
        invariant 0 <= i <= |ps|
        invariant snap == Snapshot(ps[..i]) && adv == Balance(snap)
      {
        var p := ps[i];
        SurveyStep(ps, i, snap);
        snap := snap + [Cell(Slice(p.name, 0, 2), p.row, p.col)];
        var w := Worth(Slice(p.name, 0, 2));
        if w.Some? {
          adv := adv + w.value;
        }
        i := i + 1;
      }
      assert ps[..|ps|] == ps;
    }

    /** Lines 113-148: replays every token and extends the four lists, or
        stops with the exception the loader raises. */
    method RecordRounds() returns (err: Option<LoadError>)
      requires Valid() && checker.roundCnt == -1
      requires checker.board.pieces == InitialPieces() && !checker.board.friendlyCapture
      requires Recorded() == Start()
      modifies this, checker, checker.board, checker.board.grid
      ensures Valid() && checker == old(checker) && checker.moves == old(checker.moves) && round == old(round)
      ensures var spec := Replay(checker.moves);
        (err.None? <==> spec.Success?)
        && (err.Some? ==> err.value == spec.error)
        && (spec.Success? ==> Recorded() == spec.value)
    {
      if |checker.moves| == 0 {
        return Some(NoMovesFound);
      }
      InitialWellFormed();
      err := ReplayRest();
    }

    /** The loop of lines 117-148, from the next token to the last. */
    method ReplayRest() returns (err: Option<LoadError>)
      requires Valid() && !checker.board.friendlyCapture
      requires 0 <= checker.roundCnt + 1 <= |checker.moves| && Entries(Recorded(), checker.roundCnt + 2)
      modifies this, checker, checker.board, checker.board.grid
      ensures Valid() && checker == old(checker) && checker.moves == old(checker.moves) && round == old(round)
      ensures var spec := ReplayFrom(old(checker.board.pieces), checker.moves, old(checker.roundCnt) + 1, old(Recorded()));
        (err.None? <==> spec.Success?)
        && (err.Some? ==> err.value == spec.error)
        && (spec.Success? ==> Recorded() == spec.value)
    {
      var moves := checker.moves;
      ghost var spec := ReplayFrom(checker.board.pieces, moves, checker.roundCnt + 1, Recorded());
      err := None;
      var i := checker.roundCnt + 1;
      while i < |moves|
        invariant 0 <= i <= |moves| && err == None
        invariant checker == old(checker) && checker.board == old(checker.board)
        invariant checker.board.grid == old(checker.board.grid)
        invariant checker.moves == moves && round == old(round)
        invariant Valid() && checker.roundCnt == i - 1 && !checker.board.friendlyCapture
        invariant Entries(Recorded(), i + 1)
        invariant ReplayFrom(checker.board.pieces, moves, i, Recorded()) == spec
        decreases |moves| - i
      {
        ghost var b, h := checker.board.pieces, Recorded();
        err := PlayRound();
        if err.Some? {
          assert ReplayFrom(b, moves, i, h) == Failure(err.value);
          return;
        }
        assert ReplayFrom(b, moves, i, h) == ReplayFrom(checker.board.pieces, moves, i + 1, Recorded());
        i := i + 1;
      }
      assert ReplayFrom(checker.board.pieces, moves, i, Recorded()) == Success(Recorded());
    }

    /** The body of the loop of lines 117-148: plays the next token and extends
        the four lists, or reports the exception the loader raises. */
    method PlayRound() returns (err: Option<LoadError>)
      requires Valid() && !checker.board.friendlyCapture
      requires 0 <= checker.roundCnt + 1 < |checker.moves| && Entries(Recorded(), checker.roundCnt + 2)
      modifies this, checker, checker.board, checker.board.grid
      ensures Valid() && checker == old(checker) && checker.board == old(checker.board)
      ensures checker.board.grid == old(checker.board.grid)
      ensures checker.moves == old(checker.moves) && round == old(round)
      ensures checker.roundCnt == old(checker.roundCnt) + 1
      ensures var spec := Round(old(checker.board.pieces), checker.moves, checker.roundCnt, old(Recorded()));
        (err.None? <==> spec.Success?)
        && (err.Some? ==> err.value == spec.error)
        && (spec.Success? ==> checker.board.pieces == spec.value.0 && Recorded() == spec.value.1)
      ensures err.None? ==> !checker.board.friendlyCapture
    {
      ghost var b, h := checker.board.pieces, Recorded();
      var outcome := checker.LoadNextMove();
      ghost var s := Step(b, checker.moves, checker.roundCnt);
      assert checker.board.friendlyCapture == (s.friendly == Some(true));
      assert Round(b, checker.moves, checker.roundCnt, h)
        == Record(checker.board.pieces, outcome, checker.board.friendlyCapture, checker.capture, checker.check,
                  checker.moves, checker.roundCnt, h);
      err := Note(outcome);
    }

    /** Lines 123-148: checks what the move checker reported, then extends the
        four lists. */
    method Note(outcome: Outcome) returns (err: Option<LoadError>)
      requires Valid() && 0 <= checker.roundCnt < |checker.moves| && Entries(Recorded(), checker.roundCnt + 1)
      modifies this`snapshots, this`tallies, this`captures, this`checks
      ensures var spec := Record(checker.board.pieces, outcome, checker.board.friendlyCapture, checker.capture,
                                 checker.check, checker.moves, checker.roundCnt, old(Recorded()));
        (err.None? <==> spec.Success?)
        && (err.Some? ==> err.value == spec.error)
        && (spec.Success? ==> Recorded() == spec.value.1)
    {
      var moves := checker.moves;
      if outcome.Raised? {
        return Some(Uncaught);
      }
      if outcome.value.None? {
        return Some(FalseGame(Message(moves, checker.roundCnt)));
      }
      if checker.board.friendlyCapture {
        return Some(FriendlyCapture(Message(moves, checker.roundCnt)));
      }
      err := Extend(outcome.value.value);
    }

    /** Lines 141-148: the snapshot, the new tally and the two marks appended,
        or the exception the tally raises for a captured name it cannot count. */
    method Extend(captured: string) returns (err: Option<LoadError>)
      requires Valid() && 0 <= checker.roundCnt < |checker.moves| && Entries(Recorded(), checker.roundCnt + 1)
      modifies this`snapshots, this`tallies, this`captures, this`checks
      ensures var snap := Snapshot(checker.board.pieces);
        var t := Tallied(old(tallies)[checker.roundCnt], captured, Balance(snap));
        (err.None? <==> t.Some?) && (err.Some? ==> err.value == Uncaught)
        && (t.Some? ==> Recorded() == History(old(snapshots) + [snap], old(tallies) + [t.value],
                                              old(captures) + [checker.capture], old(checks) + [checker.check]))
        && (t.None? ==> Recorded() == old(Recorded()))
    {
      var snap, adv := Survey();
      var t := Tallied(tallies[|tallies| - 1], captured, adv);
      if t.None? {
        return Some(Uncaught);
      }
      snapshots := snapshots + [snap];
      tallies := tallies + [t.value];
      captures := captures + [checker.capture];
      checks := checks + [checker.check];
      return None;
    }

    /** `next_move(force)`; `reached` stands for PositionReached. */
    method NextMove(force: bool) returns (reached: bool)
      modifies this`round
      ensures var r := NextRound(old(round), |checker.moves|, force);
        reached == r.None? && round == (if r.Some? then r.value else old(round))
    {
      if round < |checker.moves| - 1 {
        round := round + 1;
        return false;
      }
      if force {
        round := round + 1;
        return false;
      }
      return true;
    }

    /** `previous_move(force)`; `reached` stands for PositionReached. */
    method PreviousMove(force: bool) returns (reached: bool)
      modifies this`round
      ensures var r := PreviousRound(old(round), force);
        reached == r.None? && round == (if r.Some? then r.value else old(round))
    {
      if round > 1 {
        round := round - 1;
        return false;
      }
      if force {
        round := round - 1;
        return false;
      }
      return true;
    }

    /** `restart_game`. */
    method RestartGame()
      modifies this`round
      ensures round == 0
    {
      round := 0;
    }
  }

  /** Opening a game (`GameLoader(moves)`): the loader with its four lists
      filled, or the exception the constructor raises. */
  method Load(moves: seq<string>) returns (r: Result<GameLoader, LoadError>)
    ensures var spec := Replay(moves);
      (r.Success? <==> spec.Success?) && (r.Failure? ==> r.error == spec.error)
    ensures r.Success? ==> (fresh(r.value) && r.value.Valid() && r.value.checker.moves == moves
      && r.value.Recorded() == Replay(moves).value && r.value.round == 0)
  {
    var g := new GameLoader(moves);
    var err := g.RecordRounds();
    if err.Some? {
      return Failure(err.value);
    }
    return Success(g);
  }
}
