/**
  The PGN reader (pgn.py). A file's lines are gathered into blocks separated by
  blank lines; blocks alternate between a game's tag section and its movetext.
  For one game the reader extracts the seven tag values and cleans the
  movetext into the list of tokens the replay consumes:
  - comments `{...}` are cut out;
  - move numbers are removed;
  - the result token is dropped.
*/
module PgnFiles {
  import opened Wrappers
  import opened Text

  // ---------------------------------------------------------------------------
  // Splitting a file into blocks (lines 124-177)
  // ---------------------------------------------------------------------------

  /** The exception the reader raises (my_exceptions.py). */
  datatype PgnError = PossibleCorruptFile(message: string)

  /** The blocks gathered from `lines`, given the blocks `out` already collected
      and the text `acc` read since the last one: a line that is exactly "\n"
      closes the current block, and is dropped when no text precedes it. */
  function Gather(lines: seq<string>, out: seq<string>, acc: string): seq<string>
    decreases |lines|
  {
    if lines == [] then (if acc != "" then out + [acc] else out)
    else
      var a := acc + lines[0];
      if lines[0] == "\n" then
        if a == "\n" then Gather(lines[1..], out, "")
        else Gather(lines[1..], out + [a], "")
      else Gather(lines[1..], out, a)
  }

  function Blocks(lines: seq<string>): seq<string>
  {
    Gather(lines, [], "")
  }

  function CorruptMessage(n: nat): string
  {
    "Length of list should be even number, not " + NatToString(n)
  }

  /** `__split_files`, over the file's lines (each with its line break). */
  method SplitFiles(lines: seq<string>) returns (r: Result<seq<string>, PgnError>)
    ensures var blocks := Blocks(lines);
      r == if |blocks| % 2 == 0 then Success(blocks) else Failure(PossibleCorruptFile(CorruptMessage(|blocks|)))
  {
    var gameDataList: seq<string> := [];
    var gameData := "";
    var i := 0;
    while i < |lines|
      invariant 0 <= i <= |lines|
      invariant Gather(lines[i..], gameDataList, gameData) == Blocks(lines)
    {
      var line := lines[i];
      assert lines[i..][1..] == lines[i + 1..];
      gameData := gameData + line;
      if line == "\n" {
        if gameData == "\n" {
          gameData := "";
        } else {
          gameDataList := gameDataList + [gameData];
          gameData := "";
        }
      }
      i := i + 1;
    }
    if gameData != "" {
      gameDataList := gameDataList + [gameData];
    }
    if |gameDataList| % 2 != 0 {
      return Failure(PossibleCorruptFile(CorruptMessage(|gameDataList|)));
    }
    return Success(gameDataList);
  }

  /** No block is empty or a lone blank line. */
  predicate HoldText(blocks: seq<string>)
  {
    forall k :: 0 <= k < |blocks| ==> blocks[k] != "" && blocks[k] != "\n"
  }

  /** Every block holds text: none is empty and none is a lone blank line. */
  lemma BlocksHoldText(lines: seq<string>)
    ensures HoldText(Blocks(lines))
  {
    GatherHoldsText(lines, [], "");
  }

  lemma {:induction false} GatherHoldsText(lines: seq<string>, out: seq<string>, acc: string)
    requires HoldText(out) && acc != "\n"
    ensures HoldText(Gather(lines, out, acc))
    decreases |lines|
  {
    if lines == [] {
      if acc != "" {
        assert Gather(lines, out, acc) == out + [acc];
        assert (out + [acc])[|out|] == acc;
      }
    } else {
      var a := acc + lines[0];
      if lines[0] == "\n" {
        if a == "\n" {
          GatherHoldsText(lines[1..], out, "");
        } else {
          assert a != "";
          assert (out + [a])[|out|] == a;
          GatherHoldsText(lines[1..], out + [a], "");
        }
      } else {
        assert |a| == 1 ==> a == lines[0] || acc == a;
        GatherHoldsText(lines[1..], out, a);
      }
    }
  }

  lemma {:induction false} ConcatAppend(parts: seq<string>, s: string)
    ensures Concat(parts + [s]) == Concat(parts) + s
    decreases |parts|
  {
    if parts == [] {
      assert [] + [s] == [s];
    } else {
      assert (parts + [s])[1..] == parts[1..] + [s];
      ConcatAppend(parts[1..], s);
    }
  }

  /** The split loses nothing but blank lines: the blocks hold the visible
      characters of the file, in order. */
  lemma BlocksKeepText(lines: seq<string>)
    ensures Visible(Concat(Blocks(lines))) == Visible(Concat(lines))
  {
    GatherKeepsText(lines, [], "");
    assert Concat([]) + "" + Concat(lines) == Concat(lines);
  }

  lemma {:induction false} GatherKeepsText(lines: seq<string>, out: seq<string>, acc: string)
    ensures Visible(Concat(Gather(lines, out, acc))) == Visible(Concat(out) + acc + Concat(lines))
    decreases |lines|
  {
    if lines == [] {
      assert Concat(out) + acc + Concat(lines) == Concat(out) + acc;
      if acc != "" {
        ConcatAppend(out, acc);
      } else {
        assert Concat(out) + acc == Concat(out);
      }
    } else {
      var a := acc + lines[0];
      assert Concat(out) + acc + Concat(lines) == Concat(out) + a + Concat(lines[1..]);
      if lines[0] == "\n" {
        if a == "\n" {
          GatherKeepsText(lines[1..], out, "");
          assert acc == "" by {
            assert |a| == |acc| + 1;
          }
          var rest := Concat(lines[1..]);
          assert Concat(out) + acc + Concat(lines) == Concat(out) + ("\n" + rest);
          assert Concat(out) + "" + rest == Concat(out) + rest;
          VisibleAppend(Concat(out), "\n" + rest);
          assert Visible("\n" + rest) == Visible(rest) by {
            assert ("\n" + rest)[1..] == rest;
          }
          VisibleAppend(Concat(out), rest);
        } else {
          GatherKeepsText(lines[1..], out + [a], "");
          ConcatAppend(out, a);
          assert Concat(out + [a]) + "" + Concat(lines[1..]) == Concat(out) + a + Concat(lines[1..]);
        }
      } else {
        GatherKeepsText(lines[1..], out, a);
      }
    }
  }

  // ---------------------------------------------------------------------------
  // Game indexes (lines 179-196)
  // ---------------------------------------------------------------------------

  /** The even indexes below `n`, in order: where each game's tag block sits. */
  predicate GameIndexes(r: seq<int>, n: int)
  {
    |r| == (if n <= 0 then 0 else (n + 1) / 2)
    && (forall k :: 0 <= k < |r| ==> r[k] == 2 * k)
  }

  // ---------------------------------------------------------------------------
  // Tag values (lines 86-107)
  // ---------------------------------------------------------------------------

  /** The seven tags `get_info` reports, as the dictionary keys. */
  const Tags: seq<string> := ["Event", "Site", "Date", "Round", "White", "Black", "Result"]

  /** `string[1:1 + len(keyword)] == keyword`. */
  predicate Tagged(line: string, keyword: string)
  {
    Slice(line, 1, 1 + |keyword|) == keyword
  }

  /** The text between the first and the last double quote (Python's slice of
      `find('"') + 1` to `rfind('"')`). */
  function Quoted(line: string): string
  {
    Slice(line, Find(line, '"') + 1, RFind(line, '"'))
  }

  /** The value recorded for `keyword`: quoted text of the first tagged line,
      or "[no info]". */
  function TagValue(lines: seq<string>, keyword: string): (v: string)
    ensures (forall k :: 0 <= k < |lines| ==> !Tagged(lines[k], keyword)) ==> v == "[no info]"
  {
    if lines == [] then "[no info]"
    else if Tagged(lines[0], keyword) then Quoted(lines[0])
    else TagValue(lines[1..], keyword)
  }

  /** Reading from line `n`: that line decides if it is tagged, otherwise the rest. */
  lemma TagValueStep(lines: seq<string>, keyword: string, n: int)
    requires 0 <= n < |lines|
    ensures TagValue(lines[n..], keyword)
      == if Tagged(lines[n], keyword) then Quoted(lines[n]) else TagValue(lines[n + 1..], keyword)
  {
    assert lines[n..][0] == lines[n] && lines[n..][1..] == lines[n + 1..];
  }

  /** The first tagged line decides the value. */
  lemma {:induction false} TagValueIsFirstMatch(lines: seq<string>, keyword: string, j: int)
    requires 0 <= j < |lines| && Tagged(lines[j], keyword)
    requires forall k :: 0 <= k < j ==> !Tagged(lines[k], keyword)
    ensures TagValue(lines, keyword) == Quoted(lines[j])
  {
    if j > 0 {
      TagValueIsFirstMatch(lines[1..], keyword, j - 1);
    }
  }

  /** A tag pair written as `[Tag "value"]` reads back as its value. */
  lemma TagPairRoundTrip(tag: string, value: string)
    requires '"' !in tag && '"' !in value
    ensures var line := "[" + tag + " \"" + value + "\"]";
      Tagged(line, tag + " ") && Quoted(line) == value
  {
    var line := "[" + tag + " \"" + value + "\"]";
    var q := |tag| + 2;
    assert line[q] == '"';
    assert line[..q] == "[" + tag + " ";
    assert '"' !in line[..q];
    assert Find(line, '"') == q;
    var e := |line| - 2;
    assert line[e] == '"' && line[e + 1..] == "]";
    assert RFind(line, '"') == e;
    assert line[q + 1..e] == value;
    assert line[1..1 + |tag + " "|] == tag + " ";
  }

  // ---------------------------------------------------------------------------
  // Movetext cleaning (lines 198-261)
  // ---------------------------------------------------------------------------

  /** The comment loop of lines 219-229. Each pass cuts from the first `{`
      through the first `}`. The result is None where the loop never ends: the
      first `}` is missing or comes before the first `{`, and every later pass
      meets the same situation. */
  function StripComments(s: string): (r: Option<string>)
    ensures r.Some? ==> '{' !in r.value && |r.value| <= |s|
    ensures '{' !in s ==> r == Some(s)
    decreases |s|
  {
    var start := Find(s, '{');
    if start == -1 then Some(s)
    else
      var end := Find(s, '}') + 1;
      if end <= start then None
      else StripComments(s[..start] + s[end..])
  }

  /** `Find` is the first occurrence. */
  lemma FindAt(a: string, rest: string, c: char)
    requires c !in a && rest != [] && rest[0] == c
    ensures Find(a + rest, c) == |a|
  {
    var s := a + rest;
    assert s[|a|] == c;
    assert s[..|a|] == a;
  }

  /** Cutting one well-formed comment: a comment with no `}` inside, preceded by
      text with neither brace, leaves the rest to be cleaned as if the comment
      had never been there. */
  lemma CommentRemoved(a: string, c: string, d: string)
    requires '{' !in a && '}' !in a && '}' !in c
    ensures StripComments(a + "{" + c + "}" + d) == StripComments(a + d)
  {
    var s := a + "{" + c + "}" + d;
    assert s == a + ("{" + c + "}" + d);
    FindAt(a, "{" + c + "}" + d, '{');
    assert s == (a + "{" + c) + ("}" + d);
    assert '}' !in a + "{" + c;
    FindAt(a + "{" + c, "}" + d, '}');
    assert s[..|a|] == a;
    assert s[|a| + |c| + 2..] == d;
  }

  /** `item[-1] == "."`. */
  predicate EndsWithDot(t: string)
  {
    |t| > 0 && t[|t| - 1] == '.'
  }

  /** `item.split(".")[1]`. */
  function AfterDot(t: string): (r: string)
    requires '.' in t
    ensures '.' !in r
  {
    SplitOn(t, '.')[1]
  }

  /** `list.remove(x)`: drops the first element equal to `x`. */
  function RemoveFirst(l: seq<string>, x: string): (r: seq<string>)
    requires x in l
    ensures r == l[..Find(l, x)] + l[Find(l, x) + 1..]
  {
    var i := Find(l, x);
    l[..i] + l[i + 1..]
  }

  /** The loop of lines 235-255 from list position `i`, as Python's list
      iterator runs it over a list that the body changes. */
  function Sweep(l: seq<string>, i: nat): seq<string>
    decreases |l| - i
  {
    if i >= |l| then l
    else
      var item := l[i];
      if '.' in item then
        if EndsWithDot(item) then Sweep(RemoveFirst(l, item), i + 1)
        else Sweep(l[Find(l, item) := AfterDot(item)], i + 1)
      else Sweep(l, i + 1)
  }

  /** The evident intent of the loop: drop move numbers ("12.", "12..."), strip a
      move number glued to a move ("12.e4" becomes "e4"), keep everything else. */
  function Intended(ts: seq<string>): seq<string>
  {
    if ts == [] then []
    else
      var t := ts[0];
      (if '.' !in t then [t] else if EndsWithDot(t) then [] else [AfterDot(t)]) + Intended(ts[1..])
  }

  /** A move number is never directly followed by another token holding a dot. */
  predicate NumbersSeparated(ts: seq<string>)
  {
    forall k :: 0 <= k < |ts| - 1 && EndsWithDot(ts[k]) ==> '.' !in ts[k + 1]
  }

  /** On movetext where each move number is followed by a plain token, the
      loop does what it intends: the token it skips after a removal never
      needed examining. */
  lemma SweepIsIntended(ts: seq<string>)
    requires NumbersSeparated(ts)
    ensures Sweep(ts, 0) == Intended(ts)
  {
    SweepFrom(ts, 0);
  }

  lemma {:induction false} SweepFrom(l: seq<string>, i: nat)
    requires i <= |l|
    requires forall k :: 0 <= k < i ==> '.' !in l[k]
    requires NumbersSeparated(l[i..])
    ensures Sweep(l, i) == l[..i] + Intended(l[i..])
    decreases |l| - i, 1
  {
    if i == |l| {
      assert l[..i] == l;
    } else if '.' !in l[i] {
      SweepKeep(l, i);
    } else if EndsWithDot(l[i]) {
      SweepDrop(l, i);
    } else {
      SweepStrip(l, i);
    }
  }

  /** One step of `Intended`. */
  lemma IntendedStep(l: seq<string>, i: nat)
    requires i < |l|
    ensures Intended(l[i..]) == (if '.' !in l[i] then [l[i]] else if EndsWithDot(l[i]) then [] else [AfterDot(l[i])]) + Intended(l[i + 1..])
  {
    assert l[i..][1..] == l[i + 1..];
  }

  lemma SeparatedSuffix(l: seq<string>, i: nat)
    requires i < |l| && NumbersSeparated(l[i..])
    ensures NumbersSeparated(l[i + 1..])
    ensures EndsWithDot(l[i]) && i + 1 < |l| ==> '.' !in l[i + 1]
  {
    assert l[i + 1..] == l[i..][1..];
    if EndsWithDot(l[i]) && i + 1 < |l| {
      assert l[i..][0] == l[i] && l[i..][1] == l[i + 1];
    }
  }

  lemma {:induction false} SweepKeep(l: seq<string>, i: nat)
    requires i < |l| && '.' !in l[i]
    requires forall k :: 0 <= k < i ==> '.' !in l[k]
    requires NumbersSeparated(l[i..])
    ensures Sweep(l, i) == l[..i] + Intended(l[i..])
    decreases |l| - i, 0
  {
    IntendedStep(l, i);
    SeparatedSuffix(l, i);
    assert l[..i + 1] == l[..i] + [l[i]];
    SweepFrom(l, i + 1);
  }

  lemma {:induction false} SweepDrop(l: seq<string>, i: nat)
    requires i < |l| && '.' in l[i] && EndsWithDot(l[i])
    requires forall k :: 0 <= k < i ==> '.' !in l[k]
    requires NumbersSeparated(l[i..])
    ensures Sweep(l, i) == l[..i] + Intended(l[i..])
    decreases |l| - i, 0
  {
    IntendedStep(l, i);
    SeparatedSuffix(l, i);
    SweepDropStep(l, i);
    var l' := l[..i] + l[i + 1..];
    if i + 1 == |l| {
      assert l' == l[..i];
      assert l[i + 1..] == [];
    } else {
      SeparatedSuffix(l, i + 1);
      DropShift(l, i);
      SweepFrom(l', i + 1);
      DropAssemble(l, i, Sweep(l', i + 1));
    }
  }

  /** The result after a removal at `i`, put together from the result of the rest. */
  lemma DropAssemble(l: seq<string>, i: nat, w: seq<string>)
    requires i + 1 < |l| && EndsWithDot(l[i]) && '.' in l[i] && '.' !in l[i + 1]
    requires w == l[..i] + [l[i + 1]] + Intended(l[i + 2..])
    ensures w == l[..i] + Intended(l[i..])
  {
    IntendedStep(l, i);
    IntendedStep(l, i + 1);
  }

  /** After the removal at `i`, the plain token that followed sits at `i`. */
  lemma DropShift(l: seq<string>, i: nat)
    requires i + 1 < |l| && '.' !in l[i + 1]
    requires forall k :: 0 <= k < i ==> '.' !in l[k]
    ensures var l' := l[..i] + l[i + 1..];
      l'[i + 1..] == l[i + 2..] && l'[..i + 1] == l[..i] + [l[i + 1]]
      && forall k :: 0 <= k < i + 1 ==> '.' !in l'[k]
  {
    var l' := l[..i] + l[i + 1..];
    assert l'[..i + 1] == l[..i] + [l[i + 1]];
  }

  lemma {:induction false} SweepStrip(l: seq<string>, i: nat)
    requires i < |l| && '.' in l[i] && !EndsWithDot(l[i])
    requires forall k :: 0 <= k < i ==> '.' !in l[k]
    requires NumbersSeparated(l[i..])
    ensures Sweep(l, i) == l[..i] + Intended(l[i..])
    decreases |l| - i, 0
  {
    var item := l[i];
    IntendedStep(l, i);
    SeparatedSuffix(l, i);
    SweepStripStep(l, i);
    var l' := l[i := AfterDot(item)];
    assert l'[i + 1..] == l[i + 1..];
    assert l'[..i + 1] == l[..i] + [AfterDot(item)];
    SweepFrom(l', i + 1);
  }

  /** Before any token holding a dot, the token at `i` is its first occurrence. */
  lemma FirstDotted(l: seq<string>, i: nat)
    requires i < |l| && '.' in l[i]
    requires forall k :: 0 <= k < i ==> '.' !in l[k]
    ensures Find(l, l[i]) == i
  {
    FirstAt(l, l[i], i);
  }

  /** A move number at `i` is removed from the list and the loop moves on. */
  lemma SweepDropStep(l: seq<string>, i: nat)
    requires i < |l| && '.' in l[i] && EndsWithDot(l[i])
    requires forall k :: 0 <= k < i ==> '.' !in l[k]
    ensures Sweep(l, i) == Sweep(l[..i] + l[i + 1..], i + 1)
  {
    FirstDotted(l, i);
  }

  /** A move glued to its number at `i` is replaced by the move and the loop moves on. */
  lemma SweepStripStep(l: seq<string>, i: nat)
    requires i < |l| && '.' in l[i] && !EndsWithDot(l[i])
    requires forall k :: 0 <= k < i ==> '.' !in l[k]
    ensures Sweep(l, i) == Sweep(l[i := AfterDot(l[i])], i + 1)
  {
    FirstDotted(l, i);
  }

  /** Where two tokens holding dots follow each other, the second is not
      examined: "2." survives after "1." is removed. */
  lemma SweepSkipsAfterRemoval()
    ensures Sweep(["1.", "2.", "e4"], 0) == ["2.", "e4"]
  {
    var l := ["1.", "2.", "e4"];
    assert EndsWithDot(l[0]);
    assert Find(l, "1.") == 0;
    assert RemoveFirst(l, "1.") == ["2.", "e4"];
    assert Sweep(["2.", "e4"], 1) == ["2.", "e4"];
  }

  /** The end of `__get_moves_as_list` (lines 257-261): a lone token is the
      result alone and becomes the blank token " "; otherwise the result token
      is dropped. */
  function DropResult(l: seq<string>): (r: seq<string>)
    ensures |l| == 1 ==> r == [" "]
    ensures |l| != 1 ==> r == l[..if l == [] then 0 else |l| - 1]
  {
    if |l| == 1 then [" "] else if l == [] then [] else l[..|l| - 1]
  }

  /** `__get_moves_as_list`; None where the comment loop never ends. */
  function CleanMoves(gameMoves: string): (r: Option<seq<string>>)
    ensures gameMoves == "" ==> r == Some([])
    ensures r.None? <==> StripComments(gameMoves).None?
  {
    if gameMoves == "" then Some([])
    else
      match StripComments(gameMoves)
      case None => None
      case Some(text) => Some(DropResult(Sweep(SplitWords(text), 0)))
  }

  /** Movetext with one comment, numbers and a result, cleaned as intended. */
  lemma CleanMovesOfPlainMovetext(a: string, c: string, d: string)
    requires a != [] || d != []
    requires '{' !in a && '}' !in a && '}' !in c && '{' !in d
    requires NumbersSeparated(SplitWords(a + d))
    ensures CleanMoves(a + "{" + c + "}" + d) == Some(DropResult(Intended(SplitWords(a + d))))
  {
    CommentRemoved(a, c, d);
    assert '{' !in a + d;
    SweepIsIntended(SplitWords(a + d));
  }

  /** `__get_moves_as_list` (lines 199-261), in place of the loop's endless
      passes returning None. */
  method GetMovesAsList(gameMoves: string) returns (r: Option<seq<string>>)
    ensures r == CleanMoves(gameMoves)
  {
    if gameMoves == "" {
      return Some([]);
    }
    var s := gameMoves;
    while true
      invariant StripComments(s) == StripComments(gameMoves)
      decreases |s|
    {
      var commentStart := Find(s, '{');
      if commentStart == -1 {
        break;
      }
      var commentEnd := Find(s, '}') + 1;
      if commentEnd <= commentStart {
        return None;
      }
      s := s[..commentStart] + s[commentEnd..];
    }
    var movesList := SplitWords(s);
    var i := 0;
    while i < |movesList|
      invariant Sweep(movesList, i) == Sweep(SplitWords(s), 0)
      decreases |movesList| - i
    {
      var item := movesList[i];
      if '.' in item {
        if item[|item| - 1] == '.' {
          movesList := RemoveFirst(movesList, item);
        } else {
          var index := Find(movesList, item);
          movesList := movesList[index := AfterDot(item)];
        }
      }
      i := i + 1;
    }
    if |movesList| == 1 {
      return Some([" "]);
    }
    return Some(if movesList == [] then [] else movesList[..|movesList| - 1]);
  }

  /** `__get_total_rounds` (lines 264-284): the number of full moves, as text. */
  function TotalRounds(moves: seq<string>): (r: string)
    ensures forall k :: 0 <= k < |r| ==> IsDigit(r[k])
    ensures var n := ParseNat(r); 2 * n - 1 <= |moves| <= 2 * n
    ensures r != [] && (r[0] == '0' ==> r == "0")
  {
    var length := |moves|;
    var n := if length % 2 == 0 then length / 2 else length / 2 + 1;
    ParseNatToString(n);
    NatToString(n)
  }

  // ---------------------------------------------------------------------------
  // The reader object (lines 45-122)
  // ---------------------------------------------------------------------------

  /** What `get_info` returns: the seven tag values, the cleaned tokens and the
      round count. */
  datatype GameInfo = GameInfo(tags: map<string, string>, moves: seq<string>, roundsPlayed: string)

  class FilePGN {
    /** Blocks alternating tag section and movetext. */
    var gameData: seq<string>
    /** The positions of the tag sections in `gameData`. */
    var indexOfGames: seq<int>

    /** Lines 56-66, from the file's blocks. */
    constructor (gameData: seq<string>)
      ensures this.gameData == gameData && GameIndexes(indexOfGames, |gameData|)
    {
      this.gameData := gameData;
      new;
      indexOfGames := GetIndexOfGames();
    }

    /** `__get_index_of_games`. */
    method GetIndexOfGames() returns (r: seq<int>)
      ensures GameIndexes(r, |gameData|)
      ensures forall x :: x in r <==> 0 <= x < |gameData| && x % 2 == 0
    {
      r := [];
      var num := 0;
      while num < |gameData|
        invariant 0 <= num <= |gameData| + 1 && num % 2 == 0
        invariant |r| == num / 2 && forall k :: 0 <= k < |r| ==> r[k] == 2 * k
        decreases |gameData| - num
      {
        r := r + [num];
        num := num + 2;
      }
      forall x ensures x in r <==> 0 <= x < |gameData| && x % 2 == 0 {
        if 0 <= x < |gameData| && x % 2 == 0 {
          assert r[x / 2] == x;
        }
      }
    }

    /** `get_info(game_no)` (lines 68-122) for the index of a tag block; None
        where the comment loop never ends. */
    method GetInfo(gameNo: int) returns (r: Option<GameInfo>)
      requires 0 <= gameNo < |gameData|
      ensures r == InfoOf(gameData, gameNo)
    {
      var gameDict := ReadTags(SplitOn(gameData[gameNo], '\n'));
      var gameMoves := if gameNo + 1 < |gameData| then gameData[gameNo + 1] else "";
      var moves := GetMovesAsList(gameMoves);
      if moves.None? {
        return None;
      }
      return Some(GameInfo(gameDict, moves.value, TotalRounds(moves.value)));
    }
  }

  /** The outer loop of lines 95-107: one value per tag. */
  method ReadTags(gameInfo: seq<string>) returns (gameDict: map<string, string>)
    ensures gameDict == TagValues(gameInfo)
  {
    gameDict := map[];
    var j := 0;
    while j < |Tags|
      invariant 0 <= j <= |Tags|
      invariant gameDict == map t | t in Tags[..j] :: TagValue(gameInfo, t + " ")
    {
      var value := ReadTag(gameInfo, Tags[j] + " ");
      TagMapStep(gameInfo, j);
      gameDict := gameDict[Tags[j] := value];
      j := j + 1;
    }
    assert Tags[..j] == Tags;
  }

  /** Adding the next tag's value to the dictionary of the tags before it. */
  lemma TagMapStep(gameInfo: seq<string>, j: int)
    requires 0 <= j < |Tags|
    ensures (map t | t in Tags[..j] :: TagValue(gameInfo, t + " "))[Tags[j] := TagValue(gameInfo, Tags[j] + " ")]
      == map t | t in Tags[..j + 1] :: TagValue(gameInfo, t + " ")
  {
    assert Tags[..j + 1] == Tags[..j] + [Tags[j]];
  }

  /** The inner loop of lines 96-107: the first tagged line's quoted text. */
  method ReadTag(gameInfo: seq<string>, keyWord: string) returns (value: string)
    ensures value == TagValue(gameInfo, keyWord)
  {
    value := "[no info]";
    var n := 0;
    while n < |gameInfo|
      invariant 0 <= n <= |gameInfo|
      invariant value == "[no info]"
      invariant TagValue(gameInfo[n..], keyWord) == TagValue(gameInfo, keyWord)
    {
      var line := gameInfo[n];
      TagValueStep(gameInfo, keyWord, n);
      if Slice(line, 1, 1 + |keyWord|) == keyWord {
        var start := Find(line, '"') + 1;
        var end := RFind(line, '"');
        value := Slice(line, start, end);
        assert Tagged(line, keyWord) && value == Quoted(line);
        return;
      }
      n := n + 1;
    }
  }

  /** The tag dictionary of a tag block's lines. */
  function TagValues(gameInfo: seq<string>): (d: map<string, string>)
    ensures d.Keys == set t | t in Tags
    ensures forall t :: t in Tags ==> d[t] == TagValue(gameInfo, t + " ")
  {
    map t | t in Tags :: TagValue(gameInfo, t + " ")
  }

  /** What `get_info(gameNo)` returns for the blocks `gameData`: the tag values
      of block `gameNo`, the cleaned movetext of the block after it (of "" when
      there is none) and its round count; None where the comment loop never
      ends. */
  function InfoOf(gameData: seq<string>, gameNo: int): (r: Option<GameInfo>)
    requires 0 <= gameNo < |gameData|
    ensures r.Some? ==> r.value.tags.Keys == set t | t in Tags
    ensures r.Some? ==> forall t :: t in Tags ==>
      (r.value.tags[t] == TagValue(SplitOn(gameData[gameNo], '\n'), t + " "))
    ensures r.Some? ==> Some(r.value.moves) == CleanMoves(if gameNo + 1 < |gameData| then gameData[gameNo + 1] else "")
    ensures r.Some? ==> r.value.roundsPlayed == TotalRounds(r.value.moves)
    ensures r.None? <==> gameNo + 1 < |gameData| && StripComments(gameData[gameNo + 1]).None?
  {
    var tags := TagValues(SplitOn(gameData[gameNo], '\n'));
    var gameMoves := if gameNo + 1 < |gameData| then gameData[gameNo + 1] else "";
    match CleanMoves(gameMoves)
    case None => None
    case Some(moves) => Some(GameInfo(tags, moves, TotalRounds(moves)))
  }

  /** Opening a file (`FilePGN(file_path)`): the reader, or the exception its
      constructor raises. */
  method Open(lines: seq<string>) returns (r: Result<FilePGN, PgnError>)
    ensures r.Success? <==> |Blocks(lines)| % 2 == 0
    ensures r.Success? ==> (fresh(r.value) && r.value.gameData == Blocks(lines)
      && GameIndexes(r.value.indexOfGames, |Blocks(lines)|))
    ensures r.Failure? ==> r.error == PossibleCorruptFile(CorruptMessage(|Blocks(lines)|))
  {
    var data := SplitFiles(lines);
    if data.Failure? {
      return Failure(data.error);
    }
    var pgn := new FilePGN(data.value);
    return Success(pgn);
  }
}
