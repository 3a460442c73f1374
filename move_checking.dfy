/**
  The move resolver (move_checking.py:64-496). Each call reads the next SAN token
  of the game and cleans it: annotations, the check mark and a promotion suffix are
  stripped. It then looks through the 64 records in list order for the first one
  the token can move, and makes the move on the board.

  The resolver is written in two layers. The functions `Prepare`, `Resolve`,
  `Apply` and `Step` say what one call does to the record list. The class
  `MoveChecker` does it step by step, as the source does: one first-match loop
  over the records, then calls that rename and move records. Each method is
  proved to agree with those functions.
*/
module MoveChecking {
  import opened Wrappers
  import opened Text
  import opened Squares
  import opened Pieces
  import opened Boards
  import opened MoveRules

  // ---------------------------------------------------------------------------
  // Cleaning the token (move_checking.py:137-205)
  // ---------------------------------------------------------------------------

  /** The colour to move in round `round` (0-based half moves): white on even rounds. */
  function Mover(round: int): char
  {
    if round % 2 == 0 then 'w' else 'b'
  }

  /** The colour whose king a check mark attacks: the other one. */
  function Opponent(tag: char): char
  {
    if tag == 'w' then 'b' else 'w'
  }

  /** The token with its parts split off. `core` is what the castling test sees:
      annotations and the check mark are gone. `move` is what the pawn and piece
      searches see: the promotion suffix is gone too. */
  datatype Token = Token(core: string, move: string, check: bool, capture: bool, promotion: Option<char>)

  /** Lines 159-162: while the token holds a `!` or `?` anywhere, its last
      character is dropped, at most twice. */
  function StripAnnotations(move: string): (r: string)
    ensures |move| - 2 <= |r| <= |move| && r == move[..|r|]
  {
    if '!' in move || '?' in move then
      var m := move[..|move| - 1];
      if '!' in m || '?' in m then m[..|m| - 1] else m
    else move
  }

  /** Lines 153-205: the capture flag looks at the raw token. After the
      annotations, a `+` or `#` anywhere drops one last character. After the
      castling test, an `=` anywhere splits off the last character, lower-cased,
      as the promotion, and cuts the last two characters (`move[:len(move)-2]`). */
  function Prepare(raw: string): (t: Token)
    ensures t.capture <==> 'x' in raw
    ensures |t.move| <= |t.core| <= |raw| && t.move == t.core[..|t.move|] && t.core == raw[..|t.core|]
    ensures t.promotion.Some? <==> '=' in t.core
    ensures '=' !in t.core ==> t.move == t.core
  {
    var a := StripAnnotations(raw);
    var checked := '+' in a || '#' in a;
    var c := if checked then a[..|a| - 1] else a;
    if '=' in c then Token(c, Slice(c, 0, |c| - 2), checked, 'x' in raw, Some(Lower(c[|c| - 1])))
    else Token(c, c, checked, 'x' in raw, None)
  }

  /** No character that the cleaning steps look for. */
  predicate Plain(s: string)
  {
    forall i :: 0 <= i < |s| ==> s[i] !in "!?+#="
  }

  /** A suffix of one or two annotation glyphs such as "!", "?!" or "??". */
  predicate Annotation(s: string)
  {
    |s| <= 2 && forall i :: 0 <= i < |s| ==> s[i] == '!' || s[i] == '?'
  }

  /** Cleaning undoes the decoration a PGN writer adds to a move. The writer may
      add a promotion "=Q", then a check mark "+" or "#", then one or two
      annotation glyphs. Cleaning gives back the bare move, the promotion piece
      in lower case and whether a check was marked. */
  lemma PrepareUndoesDecoration(m: string, promo: Option<char>, mark: string, ann: string)
    requires Plain(m) && (promo.Some? ==> promo.value in "QRBN")
    requires mark == "" || mark == "+" || mark == "#"
    requires Annotation(ann)
    ensures var suffix := if promo.Some? then "=" + [promo.value] else "";
      var t := Prepare(m + suffix + mark + ann);
      t.core == m + suffix && t.move == m && t.check == (mark != "")
      && t.promotion == (if promo.Some? then Some(Lower(promo.value)) else None)
  {
    var c := m + (if promo.Some? then "=" + [promo.value] else "");
    PlainHasNoMarks(m);
    assert '!' !in c && '?' !in c && '+' !in c && '#' !in c;
    PrepareDropsMarks(c, mark, ann);
    PrepareSplitsPromotion(m, promo);
  }

  /** Check marks and annotation glyphs after a move only set the check flag. */
  lemma PrepareDropsMarks(c: string, mark: string, ann: string)
    requires '!' !in c && '?' !in c && '+' !in c && '#' !in c
    requires mark == "" || mark == "+" || mark == "#"
    requires Annotation(ann)
    ensures var t := Prepare(c + mark + ann);
      t.core == c && t.check == (mark != "") && t.move == Prepare(c).move && t.promotion == Prepare(c).promotion
  {
    var x := c + mark;
    assert '!' !in x && '?' !in x;
    StripAnnotationsOf(x, ann);
    assert c + mark + ann == x + ann;
    StripMarkOf(c, mark);
    assert StripAnnotations(c) == c;
    assert !('+' in c || '#' in c);
  }

  /** A move with a promotion suffix "=P" is cut before the `=`. */
  lemma PrepareSplitsPromotion(m: string, promo: Option<char>)
    requires Plain(m) && (promo.Some? ==> promo.value in "QRBN")
    ensures var t := Prepare(m + (if promo.Some? then "=" + [promo.value] else ""));
      t.move == m && t.promotion == (if promo.Some? then Some(Lower(promo.value)) else None)
  {
    PlainHasNoMarks(m);
    var c := m + (if promo.Some? then "=" + [promo.value] else "");
    assert '!' !in c && '?' !in c && '+' !in c && '#' !in c;
    assert StripAnnotations(c) == c;
    assert !('+' in c || '#' in c);
    PromotionOf(m, promo);
    if promo.Some? {
      assert Prepare(c) == Token(c, Slice(c, 0, |c| - 2), false, 'x' in c, Some(Lower(c[|c| - 1])));
    } else {
      assert Prepare(c) == Token(c, c, false, 'x' in c, None);
    }
  }

  /** One or two trailing glyphs are dropped, and nothing else. */
  lemma StripAnnotationsOf(x: string, ann: string)
    requires '!' !in x && '?' !in x && Annotation(ann)
    ensures StripAnnotations(x + ann) == x
  {
    var raw := x + ann;
    if |ann| == 0 {
      assert raw == x;
    } else if |ann| == 1 {
      assert raw[|raw| - 1] == ann[0];
      assert raw[..|raw| - 1] == x;
    } else {
      assert raw[|raw| - 1] == ann[1];
      var m1 := raw[..|raw| - 1];
      assert m1 == x + ann[..1];
      assert m1[|m1| - 1] == ann[0];
      assert m1[..|m1| - 1] == x;
    }
  }

  /** A trailing check mark is dropped and reported. */
  lemma StripMarkOf(y: string, mark: string)
    requires '+' !in y && '#' !in y && (mark == "" || mark == "+" || mark == "#")
    ensures var x := y + mark;
      ('+' in x || '#' in x) == (mark != "")
      && (if '+' in x || '#' in x then x[..|x| - 1] else x) == y
  {
    var x := y + mark;
    if mark == "" {
      assert x == y;
    } else {
      assert x[|x| - 1] == mark[0];
      assert x[..|x| - 1] == y;
    }
  }

  /** A promotion suffix "=P" is split off, with the piece letter in lower case. */
  lemma PromotionOf(m: string, promo: Option<char>)
    requires '=' !in m && (promo.Some? ==> promo.value in "QRBN")
    ensures var c := m + (if promo.Some? then "=" + [promo.value] else "");
      ('=' in c <==> promo.Some?)
      && (promo.Some? ==> Slice(c, 0, |c| - 2) == m && Lower(c[|c| - 1]) == Lower(promo.value))
  {
    if promo.Some? {
      var c := m + "=" + [promo.value];
      assert c[|c| - 2] == '=';
      assert c[..|c| - 2] == m;
    } else {
      assert m + [] == m;
    }
  }

  lemma PlainHasNoMarks(m: string)
    requires Plain(m)
    ensures '!' !in m && '?' !in m && '+' !in m && '#' !in m && '=' !in m
  {
    forall i | 0 <= i < |m| ensures m[i] != '!' && m[i] != '?' && m[i] != '+' && m[i] != '#' && m[i] != '=' {
      assert m[i] !in "!?+#=";
    }
  }

  /** Lines 299-301: the first `x` is taken out. */
  function RemoveCaptureMark(move: string): (r: string)
    ensures 'x' !in move ==> r == move
    ensures 'x' in move ==> |r| == |move| - 1 && r == move[..Find(move, 'x')] + move[Find(move, 'x') + 1..]
  {
    var x := Find(move, 'x');
    if x == -1 then move else move[..x] + move[x + 1..]
  }

  // ---------------------------------------------------------------------------
  // What one record's turn in a search loop decides
  // ---------------------------------------------------------------------------

  /** The verdict on one record: it is the one (`Pass`), the loop goes on
      (`Skip`), or the check raises (KeyError, ValueError) and ends the call. */
  datatype Test = Pass | Skip | Raise

  /** The search loops of the resolver. */
  datatype Loop =
    | CastleLoop            // lines 173-191: the king of the side to move
    | PushLoop              // lines 214-252: a pawn stepping forward
    | CaptureLoop           // lines 257-296: a pawn capturing
    | KingLoop              // lines 306-312
    | PieceLoop(kind: char) // lines 315-487: queen, knight, bishop or rook by lower-case letter

  /** The token lengths each loop is entered with. */
  predicate Shaped(loop: Loop, move: string)
  {
    match loop
    case CastleLoop => true
    case PushLoop => |move| == 2
    case CaptureLoop => |move| == 4
    case KingLoop => |move| >= 1
    case PieceLoop(_) => 3 <= |move| <= 5
  }

  /** The last two characters of a token: the destination square, as `move[-2:]`.
      For lengths 3, 4 and 5 this is also `move[1:]`, `move[2:]` and `move[3:]`. */
  function Dest(move: string): (d: string)
    requires |move| >= 2
    ensures |d| == 2 && move == move[..|move| - 2] + d
  {
    move[|move| - 2..]
  }

  /** Lines 216-252. `squares[move]` raises KeyError exactly when `move` is not a
      square name, since the refreshed map has the 64 squares as its keys. A
      rank difference of 0 is not excluded here. It can only occur when the pawn
      already stands on `move`, and then that square is in play. */
  function PushTest(sqs: map<string, SquareTag>, p: PieceVal, move: string, tag: char): Test
    requires Full(sqs) && Sane(p) && |move| == 2
  {
    if !(p.name[0] == 'p' && p.name[1] == tag && p.pos[0] == move[0]) then Skip
    else if !IsSquare(move) then Raise
    else if Active(sqs, move) then Skip
    else
      var diff := DigitValue(move[1]) - DigitValue(p.pos[1]);
      if diff < -2 || diff > 2 || p.pos[0] != move[0] then Skip
      else if (diff > 0 && p.name[1] == 'b') || (diff < 0 && p.name[1] == 'w') then Skip
      else if (diff == 2 && p.pos[1] != '2') || (diff == -2 && p.pos[1] != '7') then Skip
      else if (diff == 2 && Active(sqs, [move[0], '3'])) || (diff == -2 && Active(sqs, [move[0], '6'])) then Skip
      else Pass
  }

  /** The filters of the push loop select exactly these pawns. The pawn belongs
      to the side to move and stands on the destination's file, and the
      destination is out of play. The pawn is then one rank behind the
      destination, or two ranks from its starting rank with the square between
      out of play. This needs only that the map is in step with the pawn's own square. */
  lemma PushTestMeaning(sqs: map<string, SquareTag>, p: PieceVal, move: string, tag: char)
    requires Full(sqs) && Sane(p) && IsSquare(move) && (tag == 'w' || tag == 'b')
    requires sqs[p.pos] == TagOf(p)
    ensures PushTest(sqs, p, move, tag) == Pass <==>
      p.name[0] == 'p' && p.name[1] == tag && p.pos[0] == move[0] && !Active(sqs, move)
      && var step := if tag == 'w' then 1 else -1;
         var d := RankIndex(move[1]) - RankIndex(p.pos[1]);
         (d == step
          || (d == 2 * step && p.pos[1] == (if tag == 'w' then '2' else '7')
              && !Active(sqs, [move[0], if tag == 'w' then '3' else '6'])))
  {
    if p.name[0] == 'p' && p.name[1] == tag && p.pos[0] == move[0] && !Active(sqs, move) {
      assert p.name != DecoyName;
    }
    assert p.pos[0] == move[0] && p.pos[1] == move[1] ==> p.pos == move;
  }

  /** Lines 259-296. `int(move[3])` raises ValueError on a non-digit, and
      `squares[move[2:]]` raises KeyError off the board. */
  function CaptureTest(sqs: map<string, SquareTag>, p: PieceVal, move: string, tag: char): Test
    requires Full(sqs) && Sane(p) && |move| == 4
  {
    if !(p.name[0] == 'p' && p.name[1] == tag && p.pos[0] == move[0]) then Skip
    else if !IsDigit(move[3]) then Raise
    else
      var diff := DigitValue(move[3]) - DigitValue(p.pos[1]);
      if (tag == 'w' && diff != 1) || (tag == 'b' && diff != -1) then Skip
      else if !IsSquare(move[2..]) then Raise
      else Pass
  }

  /** The capture loop takes the pawn of the side to move on the token's first
      file whose rank is one step behind the destination. The destination's
      file is not compared with the pawn's, so "axh3" is taken like "axb3". */
  lemma CaptureTestMeaning(sqs: map<string, SquareTag>, p: PieceVal, move: string, tag: char)
    requires Full(sqs) && Sane(p) && |move| == 4 && IsSquare(move[2..]) && (tag == 'w' || tag == 'b')
    ensures CaptureTest(sqs, p, move, tag) != Raise
    ensures CaptureTest(sqs, p, move, tag) == Pass <==>
      p.name[0] == 'p' && p.name[1] == tag && p.pos[0] == move[0]
      && RankIndex(move[3]) - RankIndex(p.pos[1]) == (if tag == 'w' then 1 else -1)
  {
    assert move[2..][1] == move[3];
  }

  /** Lines 308-312: `__king_move_is_valid(piece.pos, move[1:])` for the king of the side to move. */
  function KingTest(p: PieceVal, move: string, tag: char): Test
    requires Sane(p) && |move| >= 1
  {
    if !(p.name[0] == 'k' && p.name[1] == tag) then Skip
    else match KingMoveIsValid(p.pos, move[1..])
      case None => Raise
      case Some(ok) => if ok then Pass else Skip
  }

  /** The disambiguation filters of lines 337, 351, 382, 395, 425, 438, 468 and 481:
      a five-letter token names the source square, a four-letter one its file or rank. */
  predicate Disambiguated(p: PieceVal, move: string)
    requires Sane(p) && 3 <= |move| <= 5
  {
    if |move| == 3 then true
    else if |move| == 4 then p.pos[0] == move[1] || p.pos[1] == move[1]
    else p.pos == move[1..3]
  }

  /** The geometry test of each piece kind (lines 323-324, 339-340, 353-354, 369,
      384, 397, 412, 427, 440, 455, 470, 483). The rook's five-letter form passes
      `move[1:3]` where the others pass the last two letters. `None` is a ValueError. */
  function Reaches(sqs: map<string, SquareTag>, src: string, move: string, kind: char): Option<bool>
    requires Full(sqs) && IsSquare(src) && 3 <= |move| <= 5
  {
    if kind == 'q' then Some(DiagonalMoveIsValid(sqs, src, Dest(move)) || StraightMoveIsValid(sqs, src, Dest(move)))
    else if kind == 'n' then KnightMoveIsValid(src, Dest(move))
    else if kind == 'b' then Some(DiagonalMoveIsValid(sqs, src, Dest(move)))
    else if kind == 'r' then Some(StraightMoveIsValid(sqs, src, if |move| == 5 then move[1..3] else Dest(move)))
    else Some(false)
  }

  /** One record's turn in a queen, knight, bishop or rook loop: kind and colour,
      disambiguation, geometry, then the pin test with destination `move[-2:]`. */
  function PieceTest(sqs: map<string, SquareTag>, b: seq<PieceVal>, kingPos: string,
                     p: PieceVal, move: string, tag: char, kind: char): Test
    requires Full(sqs) && Named(b) && IsSquare(kingPos) && Sane(p) && 3 <= |move| <= 5
  {
    if !(p.name[0] == kind && p.name[1] == tag && Disambiguated(p, move)) then Skip
    else match Reaches(sqs, p.pos, move, kind)
      case None => Raise
      case Some(ok) =>
        if ok && PieceIsNotPinned(sqs, b, kingPos, p.pos, Dest(move), tag) then Pass else Skip
  }

  /** A rook named by its full source square never passes: it is sent to its own
      square, which the rank/file test refuses. */
  lemma RookFromSquareNeverPasses(sqs: map<string, SquareTag>, b: seq<PieceVal>, kingPos: string,
                                  p: PieceVal, move: string, tag: char)
    requires Full(sqs) && Named(b) && IsSquare(kingPos) && Sane(p) && |move| == 5
    ensures PieceTest(sqs, b, kingPos, p, move, tag, 'r') == Skip
  {
  }

  /** Lines 173-174: a record named as a king of colour `tag`. */
  predicate KingOf(p: PieceVal, tag: char)
  {
    |p.name| >= 2 && p.name[0] == 'k' && p.name[1] == tag
  }

  /** The verdict of `loop` on record `p`. */
  function Check(loop: Loop, sqs: map<string, SquareTag>, b: seq<PieceVal>, kingPos: string,
                 move: string, tag: char, p: PieceVal): Test
    requires Full(sqs) && Named(b) && IsSquare(kingPos) && Sane(p) && Shaped(loop, move)
  {
    match loop
    case CastleLoop => if KingOf(p, tag) then Pass else Skip
    case PushLoop => PushTest(sqs, p, move, tag)
    case CaptureLoop => CaptureTest(sqs, p, move, tag)
    case KingLoop => KingTest(p, move, tag)
    case PieceLoop(kind) => PieceTest(sqs, b, kingPos, p, move, tag, kind)
  }

  /** How a search loop ends: at the record it moves, without one, or with an exception at a record. */
  datatype Search = Found(index: int) | NotFound | Failed(index: int)

  /** Every record is sane; so every name has a colour letter. */
  predicate Records(b: seq<PieceVal>)
  {
    forall k :: 0 <= k < |b| ==> Sane(b[k])
  }

  /** The loop `for piece in self.pieces` from record `i` on. It stops at the first
      record whose verdict is not Skip. */
  function SearchFrom(loop: Loop, sqs: map<string, SquareTag>, b: seq<PieceVal>, kingPos: string,
                      move: string, tag: char, i: nat): (r: Search)
    requires Full(sqs) && Records(b) && IsSquare(kingPos) && Shaped(loop, move) && i <= |b|
    ensures Named(b)
    ensures r.Found? || r.Failed? ==>
      i <= r.index < |b| && Check(loop, sqs, b, kingPos, move, tag, b[r.index]) == (if r.Found? then Pass else Raise)
    ensures forall k :: i <= k < |b| && (r.NotFound? || k < r.index) ==>
      Check(loop, sqs, b, kingPos, move, tag, b[k]) == Skip
    decreases |b| - i
  {
    assert Named(b) by {
      forall k | 0 <= k < |b| ensures |b[k].name| >= 2 { assert Sane(b[k]); }
    }
    if i == |b| then NotFound
    else match Check(loop, sqs, b, kingPos, move, tag, b[i])
      case Pass => Found(i)
      case Raise => Failed(i)
      case Skip => SearchFrom(loop, sqs, b, kingPos, move, tag, i + 1)
  }

  // ---------------------------------------------------------------------------
  // One call as a function of the record list (move_checking.py:125-496)
  // ---------------------------------------------------------------------------

  /** What a call does to the board once its searches are over: castle, move one
      record (renaming it first on a promotion), give back the placeholder name
      for the " " token, give back None, or raise. */
  datatype Plan =
    | Castle(king: int, kingDest: string, rookSrc: string, rookDest: string)
    | Shift(piece: int, dest: string, rename: Option<string>, passant: string)
    | Blank
    | Unresolved
    | Fails

  /** Lines 175-191: the king's destination, the rook's square and the rook's destination. */
  function CastleSquares(core: string, tag: char): (string, string, string)
  {
    if tag == 'w' then (if core == "O-O" then ("g1", "h1", "f1") else ("c1", "a1", "d1"))
    else (if core == "O-O" then ("g8", "h8", "f8") else ("c8", "a8", "d8"))
  }

  /** The list index of the king record of colour `tag` (board.py's `kings`). */
  function KingIndex(tag: char): int
  {
    if tag == 'w' then 0 else 16
  }

  /** Lines 270-287: the square of the pawn taken en passant. A capture onto a
      square out of play takes the pawn one rank behind it, seen from the
      capturing side; any other capture gives "". */
  function PassantSquare(sqs: map<string, SquareTag>, move: string, tag: char): (s: string)
    requires Full(sqs) && |move| == 4 && IsSquare(move[2..]) && (tag == 'w' || tag == 'b')
    ensures Active(sqs, move[2..]) ==> s == ""
    ensures !Active(sqs, move[2..]) ==>
      s == [move[2], (move[3] as int + (if tag == 'w' then -1 else 1)) as char]
  {
    assert move[2..][1] == move[3];
    if Active(sqs, move[2..]) then ""
    else if tag == 'w' then [move[2]] + NatToString(DigitValue(move[3]) - 1)
    else [move[2]] + NatToString(DigitValue(move[3]) + 1)
  }

  /** Lines 299-496, after the pawn searches: the capture mark goes, then the
      first letter picks the king search or the queen, knight, bishop or rook
      search. An empty token raises IndexError at `move[0]`. */
  function PieceStage(b: seq<PieceVal>, sqs: map<string, SquareTag>, kingPos: string, move: string, tag: char): (plan: Plan)
    requires Records(b) && Full(sqs) && IsSquare(kingPos)
    ensures plan.Shift? ==> 0 <= plan.piece < |b| && plan.rename.None?
    ensures !plan.Castle?
  {
    var m := RemoveCaptureMark(move);
    if m == [] then Fails
    else if m[0] == 'K' then
      match SearchFrom(KingLoop, sqs, b, kingPos, m, tag, 0)
      case Found(i) => Shift(i, Slice(m, -2, |m|), None, "")
      case Failed(_) => Fails
      case NotFound => Unresolved
    else if (m[0] == 'Q' || m[0] == 'N' || m[0] == 'B' || m[0] == 'R') && 3 <= |m| <= 5 then
      match SearchFrom(PieceLoop(Lower(m[0])), sqs, b, kingPos, m, tag, 0)
      case Found(i) => Shift(i, Dest(m), None, "")
      case Failed(_) => Fails
      case NotFound => Unresolved
    else if m == " " then Blank
    else Unresolved
  }

  /** A move can be made from `plan`: its record exists, and a renamed record is in play. */
  predicate Applicable(b: seq<PieceVal>, plan: Plan)
  {
    match plan
    case Castle(k, _, _, _) => 0 <= k < |b|
    case Shift(i, _, rename, _) => 0 <= i < |b| && (rename.Some? ==> |rename.value| == 3 && b[i].state)
    case _ => true
  }

  /** Lines 193-296: the promotion and the two pawn searches; a token they do not
      take goes on to the piece searches. */
  function PawnStage(b: seq<PieceVal>, sqs: map<string, SquareTag>, kingPos: string,
                     move: string, promotion: Option<char>, tag: char): (plan: Plan)
    requires Records(b) && Full(sqs) && IsSquare(kingPos) && (tag == 'w' || tag == 'b')
    ensures Applicable(b, plan) && !plan.Castle?
  {
    var rename := if promotion.Some? then Some([promotion.value, tag, '+']) else None;
    assert DecoyName[0] == ' ';
    if |move| == 2 then
      match SearchFrom(PushLoop, sqs, b, kingPos, move, tag, 0)
      case Found(i) => Shift(i, move, rename, "")
      case Failed(_) => Fails
      case NotFound => PieceStage(b, sqs, kingPos, move, tag)
    else if |move| == 4 && IsLower(move[0]) && move[1] == 'x' then
      match SearchFrom(CaptureLoop, sqs, b, kingPos, move, tag, 0)
      case Found(i) => Shift(i, move[2..], rename, PassantSquare(sqs, move, tag))
      case Failed(_) => Fails
      case NotFound => PieceStage(b, sqs, kingPos, move, tag)
    else PieceStage(b, sqs, kingPos, move, tag)
  }

  /** The plan of one call on the record list `b` with the occupancy map `sqs`. */
  function Resolve(b: seq<PieceVal>, sqs: map<string, SquareTag>, tok: Token, tag: char): (plan: Plan)
    requires Records(b) && |b| == 64 && Full(sqs) && (tag == 'w' || tag == 'b')
    ensures Applicable(b, plan)
  {
    assert Sane(b[KingIndex(tag)]);
    var kingPos := b[KingIndex(tag)].pos;
    var castle := if tok.core == "O-O" || tok.core == "O-O-O" then SearchFrom(CastleLoop, sqs, b, kingPos, tok.core, tag, 0) else NotFound;
    if castle.Found? then
      var (kd, rs, rd) := CastleSquares(tok.core, tag);
      Castle(castle.index, kd, rs, rd)
    else PawnStage(b, sqs, kingPos, tok.move, tok.promotion, tag)
  }

  /** What `load_next_move` returns: a name, None, or an exception. */
  datatype Outcome = Returned(value: Option<string>) | Raised

  /** The record list after a plan, the result, and the new `friendly_capture`
      flag (None where `move_piece` was not called and the flag keeps its value). */
  datatype Effect = Effect(pieces: seq<PieceVal>, outcome: Outcome, friendly: Option<bool>)

  /** Carrying out a plan with `move_piece`. The king moves first, then the rook,
      and the rook move's result is returned. */
  function Apply(b: seq<PieceVal>, plan: Plan): (e: Effect)
    requires WellFormed(b) && Applicable(b, plan)
    ensures WellFormed(e.pieces)
    ensures e.friendly.None? <==> !(plan.Castle? || plan.Shift?)
    ensures e.friendly.None? ==> e.pieces == b
  {
    match plan
    case Castle(k, kd, rs, rd) =>
      MovePreservesWellFormed(b, b[k].pos, kd);
      var r1 := MoveSpec(b, b[k].pos, kd);
      MovePreservesWellFormed(r1.pieces, rs, rd);
      var r2 := MoveSpec(r1.pieces, rs, rd);
      Effect(r2.pieces, Returned(r2.captured), Some(r2.friendly))
    case Shift(i, dest, rename, _) =>
      var c := if rename.Some? then b[i := b[i].(name := rename.value)] else b;
      SamePositionsWellFormed(b, c);
      MovePreservesWellFormed(c, c[i].pos, dest);
      var r := MoveSpec(c, c[i].pos, dest);
      Effect(r.pieces, Returned(r.captured), Some(r.friendly))
    case Blank => Effect(b, Returned(Some(DecoyName)), None)
    case Unresolved => Effect(b, Returned(None), None)
    case Fails => Effect(b, Raised, None)
  }

  /** The state `load_next_move` leaves behind. */
  datatype StepResult = StepResult(pieces: seq<PieceVal>, outcome: Outcome, friendly: Option<bool>,
                                   check: Option<char>, capture: bool)

  /** Round `round` of `moves` played on `b`: a round past the end raises IndexError. */
  function Step(b: seq<PieceVal>, moves: seq<string>, round: int): (r: StepResult)
    requires WellFormed(b) && round >= 0
    ensures WellFormed(r.pieces)
    ensures round >= |moves| ==> r.outcome.Raised? && r.pieces == b
    ensures round < |moves| ==>
      (r.capture <==> 'x' in moves[round])
      && (r.check.Some? ==> r.check.value != Mover(round))
    ensures round < |moves| ==>
      r.check == (if Prepare(moves[round]).check then Some(Opponent(Mover(round))) else None)
  {
    if round >= |moves| then StepResult(b, Raised, None, None, false)
    else
      var tag := Mover(round);
      var tok := Prepare(moves[round]);
      OccupancyFull(b);
      var e := Apply(b, Resolve(b, Occupancy(b), tok, tag));
      StepResult(e.pieces, e.outcome, e.friendly, if tok.check then Some(Opponent(tag)) else None, tok.capture)
  }

  /** A castling token that no king record takes falls through every later search. */
  lemma CastleFallsThrough(b: seq<PieceVal>, sqs: map<string, SquareTag>, kingPos: string,
                           move: string, promotion: Option<char>, tag: char)
    requires Records(b) && Full(sqs) && IsSquare(kingPos) && (tag == 'w' || tag == 'b')
    requires move == "O-O" || move == "O-O-O"
    ensures PawnStage(b, sqs, kingPos, move, promotion, tag) == Unresolved
  {
    assert 'x' !in move;
    assert PawnStage(b, sqs, kingPos, move, promotion, tag) == PieceStage(b, sqs, kingPos, move, tag);
  }

  /** A castling token moves the first record named as a king of the side to move:
      the king to its castling square, the rook beside it. Without such a record
      the token falls through every later search and gives None. (`Prepare` leaves
      a castling token's `move` equal to its `core`, as it holds no `=`.) */
  lemma CastleChoice(b: seq<PieceVal>, sqs: map<string, SquareTag>, tok: Token, tag: char)
    requires Records(b) && |b| == 64 && Full(sqs) && (tag == 'w' || tag == 'b')
    requires (tok.core == "O-O" || tok.core == "O-O-O") && tok.move == tok.core
    ensures var plan := Resolve(b, sqs, tok, tag);
      (plan.Castle? && (plan.kingDest, plan.rookSrc, plan.rookDest) == CastleSquares(tok.core, tag)
        && KingOf(b[plan.king], tag) && forall j :: 0 <= j < plan.king ==> !KingOf(b[j], tag))
      || (plan == Unresolved && forall j :: 0 <= j < |b| ==> !KingOf(b[j], tag))
  {
    var kingPos := b[KingIndex(tag)].pos;
    assert Sane(b[KingIndex(tag)]);
    var r := SearchFrom(CastleLoop, sqs, b, kingPos, tok.core, tag, 0);
    if r.Failed? {
      assert false;
    } else if r.Found? {
      assert Resolve(b, sqs, tok, tag) == Castle(r.index, CastleSquares(tok.core, tag).0,
                                                 CastleSquares(tok.core, tag).1, CastleSquares(tok.core, tag).2);
      forall j | 0 <= j < r.index ensures !KingOf(b[j], tag) {
        assert Check(CastleLoop, sqs, b, kingPos, tok.core, tag, b[j]) == Skip;
      }
    } else {
      CastleFallsThrough(b, sqs, kingPos, tok.core, tok.promotion, tag);
      assert Resolve(b, sqs, tok, tag) == PawnStage(b, sqs, kingPos, tok.move, tok.promotion, tag);
      forall j | 0 <= j < |b| ensures !KingOf(b[j], tag) {
        assert Check(CastleLoop, sqs, b, kingPos, tok.core, tag, b[j]) == Skip;
      }
    }
  }

  /** Castling puts the king record on its castling square and the record from the
      rook's corner beside it; both squares they left end up out of play. The call
      returns the name of what stood on the rook's target square. */
  lemma CastleEffect(b: seq<PieceVal>, k: int, core: string, tag: char)
    requires WellFormed(b) && 0 <= k < |b| && (core == "O-O" || core == "O-O-O") && (tag == 'w' || tag == 'b')
    requires b[k].pos !in {CastleSquares(core, tag).0, CastleSquares(core, tag).1, CastleSquares(core, tag).2}
    ensures var (kd, rs, rd) := CastleSquares(core, tag);
      var e := Apply(b, Castle(k, kd, rs, rd));
      At(e.pieces, kd) == b[k].(pos := kd, row := RowOf(kd), col := ColOf(kd))
      && At(e.pieces, rd) == At(b, rs).(pos := rd, row := RowOf(rd), col := ColOf(rd))
      && !At(e.pieces, b[k].pos).state && !At(e.pieces, rs).state
      && e.outcome == Returned(Some(At(b, rd).name))
  {
    var (kd, rs, rd) := CastleSquares(core, tag);
    var src := b[k].pos;
    assert IsSquare(src) && At(b, src) == b[k] by {
      assert Sane(b[k]);
      IndexAtSquare(b, src);
    }
    CastleSquaresDistinct(core, tag);
    TwoMoves(b, src, kd, rs, rd);
  }

  lemma CastleSquaresDistinct(core: string, tag: char)
    ensures var (kd, rs, rd) := CastleSquares(core, tag);
      IsSquare(kd) && IsSquare(rs) && IsSquare(rd) && kd != rs && kd != rd && rs != rd
  {
  }

  /** Two moves over four different squares: each mover lands on its
      destination, both sources end up out of play, and the second move returns
      the name that first stood on its destination. */
  lemma TwoMoves(b: seq<PieceVal>, s1: string, d1: string, s2: string, d2: string)
    requires WellFormed(b) && IsSquare(s1) && IsSquare(d1) && IsSquare(s2) && IsSquare(d2)
    requires s1 != d1 && s1 != s2 && s1 != d2 && d1 != s2 && d1 != d2 && s2 != d2
    ensures var r1 := MoveSpec(b, s1, d1);
      WellFormed(r1.pieces)
      && (WellFormedNamed(r1.pieces);
      var r2 := MoveSpec(r1.pieces, s2, d2);
      WellFormed(r2.pieces)
      && At(r2.pieces, d1) == At(b, s1).(pos := d1, row := RowOf(d1), col := ColOf(d1))
      && At(r2.pieces, d2) == At(b, s2).(pos := d2, row := RowOf(d2), col := ColOf(d2))
      && !At(r2.pieces, s1).state && !At(r2.pieces, s2).state
      && r2.captured == Some(At(b, d2).name))
  {
    MoveAtSquares(b, s1, d1);
    var r1 := MoveSpec(b, s1, d1);
    MoveAtSquares(r1.pieces, s2, d2);
  }

  /** A rook token that names its full source square, like "Ra1a5", never moves
      anything: lines 481-483 test the rook against its own square. (`Prepare`
      makes `move` a prefix of `core`, so such a token is no castling token.) */
  lemma RookFromSquareNeverMoves(b: seq<PieceVal>, sqs: map<string, SquareTag>, tok: Token, tag: char)
    requires Records(b) && |b| == 64 && Full(sqs) && (tag == 'w' || tag == 'b')
    requires |tok.move| == 5 && tok.move[0] == 'R' && 'x' !in tok.move && |tok.core| >= 5 && tok.move == tok.core[..5]
    ensures Resolve(b, sqs, tok, tag) == Unresolved
  {
    var kingPos := b[KingIndex(tag)].pos;
    assert Sane(b[KingIndex(tag)]);
    var r := SearchFrom(PieceLoop('r'), sqs, b, kingPos, tok.move, tag, 0);
    if !r.NotFound? {
      RookFromSquareNeverPasses(sqs, b, kingPos, b[r.index], tok.move, tag);
    }
    assert PawnStage(b, sqs, kingPos, tok.move, tok.promotion, tag) == PieceStage(b, sqs, kingPos, tok.move, tag);
  }

  // ---------------------------------------------------------------------------
  // The resolver object (move_checking.py:7-496)
  // ---------------------------------------------------------------------------

  class MoveChecker {
    /** The board the game is played on (the source's parent class `Board`). */
    var board: Board
    /** The tokens of the game, one per half move. */
    var moves: seq<string>
    /** The index of the last token played; -1 before the first. */
    var roundCnt: int
    /** The colour whose king the last token marked as checked. */
    var check: Option<char>
    /** Whether the last token held an `x`. */
    var capture: bool

    ghost predicate Valid()
      reads this, board
    {
      board.Valid() && roundCnt >= -1
    }

    /** Lines 64-123: a new board, the moves, no round played yet. */
    constructor (moves: seq<string>)
      ensures Valid() && fresh(board) && fresh(board.grid)
      ensures board.pieces == InitialPieces() && !board.friendlyCapture
      ensures this.moves == moves && roundCnt == -1 && check == None && !capture
    {
      board := new Board();
      this.moves := moves;
      roundCnt := -1;
      check := None;
      capture := false;
    }

    /** `for piece in self.pieces:` with the verdicts of `loop`: the first record
        that passes or raises ends the loop. */
    method FindFirst(loop: Loop, move: string, tag: char, kingPos: string) returns (r: Search)
      requires board.Valid() && Full(board.squares) && IsSquare(kingPos) && Shaped(loop, move)
      ensures r == SearchFrom(loop, board.squares, board.pieces, kingPos, move, tag, 0)
    {
      ghost var b := board.pieces;
      assert Records(b);
      var i := 0;
      while i < |board.pieces|
        invariant 0 <= i <= |b| && board.pieces == b
        invariant SearchFrom(loop, board.squares, b, kingPos, move, tag, 0) == SearchFrom(loop, board.squares, b, kingPos, move, tag, i)
      {
        var t := Check(loop, board.squares, board.pieces, kingPos, move, tag, board.pieces[i]);
        if t == Pass {
          return Found(i);
        } else if t == Raise {
          return Failed(i);
        }
        i := i + 1;
      }
      return NotFound;
    }

    /** The searches of lines 170-496, run in the source's order on the refreshed board. */
    method Choose(tok: Token, tag: char) returns (plan: Plan)
      requires board.Valid() && Full(board.squares) && (tag == 'w' || tag == 'b')
      ensures plan == Resolve(board.pieces, board.squares, tok, tag)
    {
      assert Records(board.pieces);
      var kingPos := board.King(tag).pos;
      assert kingPos == board.pieces[KingIndex(tag)].pos;
      if tok.core == "O-O" || tok.core == "O-O-O" {
        var r := FindFirst(CastleLoop, tok.core, tag, kingPos);
        if r.Found? {
          var (kd, rs, rd) := CastleSquares(tok.core, tag);
          return Castle(r.index, kd, rs, rd);
        }
      }
      plan := ChoosePawn(tok.move, tok.promotion, tag, kingPos);
    }

    /** Lines 193-296: the promotion and the two pawn searches. */
    method ChoosePawn(move: string, promotion: Option<char>, tag: char, kingPos: string) returns (plan: Plan)
      requires board.Valid() && Full(board.squares) && IsSquare(kingPos) && (tag == 'w' || tag == 'b')
      ensures plan == PawnStage(board.pieces, board.squares, kingPos, move, promotion, tag)
    {
      var rename := if promotion.Some? then Some([promotion.value, tag, '+']) else None;
      if |move| == 2 {
        var r := FindFirst(PushLoop, move, tag, kingPos);
        if r.Found? {
          return Shift(r.index, move, rename, "");
        } else if r.Failed? {
          return Fails;
        }
      } else if |move| == 4 && IsLower(move[0]) && move[1] == 'x' {
        var r := FindFirst(CaptureLoop, move, tag, kingPos);
        if r.Found? {
          return Shift(r.index, move[2..], rename, PassantSquare(board.squares, move, tag));
        } else if r.Failed? {
          return Fails;
        }
      }
      plan := ChoosePiece(move, tag, kingPos);
    }

    /** Lines 299-496: the king, queen, knight, bishop and rook searches. */
    method ChoosePiece(move: string, tag: char, kingPos: string) returns (plan: Plan)
      requires board.Valid() && Full(board.squares) && IsSquare(kingPos)
      ensures plan == PieceStage(board.pieces, board.squares, kingPos, move, tag)
    {
      var m := RemoveCaptureMark(move);
      if m == [] {
        return Fails;
      }
      var r := NotFound;
      if m[0] == 'K' {
        r := FindFirst(KingLoop, m, tag, kingPos);
        if r.Found? {
          return Shift(r.index, Slice(m, -2, |m|), None, "");
        }
      } else if (m[0] == 'Q' || m[0] == 'N' || m[0] == 'B' || m[0] == 'R') && 3 <= |m| <= 5 {
        r := FindFirst(PieceLoop(Lower(m[0])), m, tag, kingPos);
        if r.Found? {
          return Shift(r.index, Dest(m), None, "");
        }
      }
      if r.Failed? {
        plan := Fails;
      } else if m == " " {
        plan := Blank;
      } else {
        plan := Unresolved;
      }
    }

    /** Makes the move a plan describes with `move_piece`, renaming a promoted pawn first. */
    method Perform(plan: Plan) returns (outcome: Outcome)
      requires board.Valid() && Applicable(board.pieces, plan)
      modifies board
      ensures board.Valid() && board.grid == old(board.grid) && board.kings == old(board.kings)
      ensures var e := Apply(old(board.pieces), plan);
        board.pieces == e.pieces && outcome == e.outcome
        && board.friendlyCapture == (if e.friendly.Some? then e.friendly.value else old(board.friendlyCapture))
    {
      match plan {
        case Castle(k, kd, rs, rd) =>
          var kingCaptured := board.MovePiece(board.pieces[k].pos, kd);
          var captured := board.MovePiece(rs, rd);
          outcome := Returned(captured);
        case Shift(i, dest, rename, _) =>
          if rename.Some? {
            board.Rename(i, rename.value);
          }
          var captured := board.MovePiece(board.pieces[i].pos, dest);
          outcome := Returned(captured);
        case Blank =>
          outcome := Returned(Some(DecoyName));
        case Unresolved =>
          outcome := Returned(None);
        case Fails =>
          outcome := Raised;
      }
    }

    /** `load_next_move()` (lines 125-496). The occupancy map is refreshed first,
        then the next token is cleaned, resolved and played. */
    method LoadNextMove() returns (outcome: Outcome)
      requires Valid()
      modifies this, board, board.grid
      ensures Valid() && board == old(board) && board.grid == old(board.grid)
      ensures moves == old(moves) && roundCnt == old(roundCnt) + 1
      ensures var s := Step(old(board.pieces), moves, roundCnt);
        board.pieces == s.pieces && outcome == s.outcome && check == s.check && capture == s.capture
        && board.friendlyCapture == (if s.friendly.Some? then s.friendly.value else old(board.friendlyCapture))
    {
      board.UpdateBoard();
      check := None;
      capture := false;
      roundCnt := roundCnt + 1;
      if roundCnt >= |moves| {
        return Raised;
      }
      var tag := if roundCnt % 2 == 0 then 'w' else 'b';
      var tok := Prepare(moves[roundCnt]);
      capture := tok.capture;
      if tok.check {
        check := Some(if tag == 'w' then 'b' else 'w');
      }
      OccupancyFull(board.pieces);
      var plan := Choose(tok, tag);
      outcome := Perform(plan);
    }
  }
}
