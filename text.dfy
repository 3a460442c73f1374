/**
  The Python string operations that the replay engine and the PGN reader rely on,
  with Python's semantics written out: `find`, `rfind`, slicing with negative and
  out-of-range bounds, `split()` on whitespace, `split(sep)`, `str(n)` for a
  natural number, `int(c)`, `islower()` and `lower()` for one character.
*/
module Text {

  /** The first index holding `c`, or -1: `s.find(c)` on a string, and
      `s.index(c)` on a list where `c` is present (Python raises otherwise). */
  function Find<T(==)>(s: seq<T>, c: T): (r: int)
    ensures -1 <= r < |s|
    ensures r == -1 <==> c !in s
    ensures r >= 0 ==> s[r] == c && c !in s[..r]
  {
    if s == [] then -1
    else if s[0] == c then 0
    else
      var k := Find(s[1..], c);
      if k == -1 then -1
      else
        assert s[..k + 1] == [s[0]] + s[1..][..k];
        k + 1
  }

  /** `s.rfind(c)`: the last index holding `c`, or -1. */
  function RFind(s: string, c: char): (r: int)
    ensures -1 <= r < |s|
    ensures r == -1 <==> c !in s
    ensures r >= 0 ==> s[r] == c && c !in s[r + 1..]
  {
    if s == [] then -1
    else if s[|s| - 1] == c then |s| - 1
    else
      var k := RFind(s[..|s| - 1], c);
      assert s == s[..|s| - 1] + [s[|s| - 1]];
      k
  }

  /** Python's normalisation of one slice bound against a length `n`. */
  function Bound(i: int, n: nat): (r: nat)
    ensures r <= n
    ensures 0 <= i <= n ==> r == i
    ensures i < 0 && -i <= n ==> r == n + i
  {
    if i < 0 then (if n + i < 0 then 0 else n + i)
    else if i > n then n
    else i
  }

  /** `s[lo:hi]`, negative bounds counting from the end, out-of-range bounds clamped. */
  function Slice(s: string, lo: int, hi: int): (r: string)
    ensures |r| <= |s|
    ensures 0 <= lo <= hi <= |s| ==> r == s[lo..hi]
    ensures 0 <= hi <= lo ==> r == []
  {
    var a, b := Bound(lo, |s|), Bound(hi, |s|);
    if a <= b then s[a..b] else []
  }

  /** The characters Python's `str.split()` treats as separators. */
  predicate IsSpace(c: char)
  {
    var n := c as int;
    (9 <= n <= 13) || (28 <= n <= 32) || n == 0x85 || n == 0xA0 || n == 0x1680
    || (0x2000 <= n <= 0x200A) || n == 0x2028 || n == 0x2029 || n == 0x202F
    || n == 0x205F || n == 0x3000
  }

  predicate NoSpace(s: string)
  {
    forall i :: 0 <= i < |s| ==> !IsSpace(s[i])
  }

  /** The length of the leading run of non-space characters. */
  function WordLength(s: string): (n: nat)
    ensures n <= |s|
    ensures NoSpace(s[..n])
    ensures n < |s| ==> IsSpace(s[n])
  {
    if s == [] || IsSpace(s[0]) then 0
    else
      var k := WordLength(s[1..]);
      assert s[..k + 1] == [s[0]] + s[1..][..k];
      k + 1
  }

  /** `s.split()`: the maximal runs of non-space characters, in order. */
  function SplitWords(s: string): (r: seq<string>)
    ensures forall k :: 0 <= k < |r| ==> r[k] != [] && NoSpace(r[k])
    decreases |s|
  {
    if s == [] then []
    else if IsSpace(s[0]) then SplitWords(s[1..])
    else
      var n := WordLength(s);
      [s[..n]] + SplitWords(s[n..])
  }

  /** The non-space characters of `s`, in order. */
  function Visible(s: string): string
  {
    if s == [] then []
    else if IsSpace(s[0]) then Visible(s[1..])
    else [s[0]] + Visible(s[1..])
  }

  function Concat(parts: seq<string>): string
  {
    if parts == [] then [] else parts[0] + Concat(parts[1..])
  }

  lemma {:induction false} VisibleAppend(a: string, b: string)
    ensures Visible(a + b) == Visible(a) + Visible(b)
  {
    if a == [] {
      assert a + b == b;
    } else {
      assert (a + b)[1..] == a[1..] + b;
      VisibleAppend(a[1..], b);
    }
  }

  lemma {:induction false} VisibleOfWord(s: string)
    requires NoSpace(s)
    ensures Visible(s) == s
  {
    if s != [] {
      VisibleOfWord(s[1..]);
    }
  }

  /** Splitting on whitespace loses exactly the whitespace: the words, glued
      back together, are the visible characters of the input. */
  lemma {:induction false} SplitWordsKeepsVisible(s: string)
    ensures Concat(SplitWords(s)) == Visible(s)
    decreases |s|
  {
    if s == [] {
    } else if IsSpace(s[0]) {
      SplitWordsKeepsVisible(s[1..]);
    } else {
      var n := WordLength(s);
      SplitWordsKeepsVisible(s[n..]);
      assert s == s[..n] + s[n..];
      VisibleAppend(s[..n], s[n..]);
      VisibleOfWord(s[..n]);
      assert SplitWords(s) == [s[..n]] + SplitWords(s[n..]);
      assert Concat(SplitWords(s)) == s[..n] + Concat(SplitWords(s[n..]));
    }
  }

  /** `s.split(c)`: the pieces between occurrences of `c`; never empty. */
  function SplitOn(s: string, c: char): (r: seq<string>)
    ensures |r| >= 1
    ensures forall k :: 0 <= k < |r| ==> c !in r[k]
    ensures c in s <==> |r| >= 2
    decreases |s|
  {
    var i := Find(s, c);
    if i == -1 then [s]
    else [s[..i]] + SplitOn(s[i + 1..], c)
  }

  /** `sep.join(parts)` for a one-character separator. */
  function JoinWith(parts: seq<string>, c: char): string
  {
    if |parts| == 0 then []
    else if |parts| == 1 then parts[0]
    else parts[0] + [c] + JoinWith(parts[1..], c)
  }

  /** Splitting on a character and joining on it again gives back the input. */
  lemma {:induction false} SplitOnJoin(s: string, c: char)
    ensures JoinWith(SplitOn(s, c), c) == s
    decreases |s|
  {
    var i := Find(s, c);
    if i == -1 {
      SplitOnWhole(s, c);
    } else {
      SplitOnJoin(s[i + 1..], c);
      SplitOnStep(s, c, i);
    }
  }

  /** The first index holding `c` is `i` when `s[i]` is `c` and no earlier one is. */
  lemma FirstAt<T>(s: seq<T>, c: T, i: int)
    requires 0 <= i < |s| && s[i] == c && forall k :: 0 <= k < i ==> s[k] != c
    ensures Find(s, c) == i
  {
    assert c !in s[..i];
  }

  /** Without the separator the text is one part, joined back unchanged. */
  lemma SplitOnWhole(s: string, c: char)
    requires c !in s
    ensures JoinWith(SplitOn(s, c), c) == s
  {
    assert Find(s, c) == -1;
    assert SplitOn(s, c) == [s];
  }

  /** One split step: the part before the first separator, the separator, then the rest. */
  lemma SplitOnStep(s: string, c: char, i: int)
    requires 0 <= i < |s| && i == Find(s, c)
    requires JoinWith(SplitOn(s[i + 1..], c), c) == s[i + 1..]
    ensures JoinWith(SplitOn(s, c), c) == s
  {
    var head, tail := s[..i], s[i + 1..];
    var rest := SplitOn(tail, c);
    assert Find(s, c) != -1;
    assert SplitOn(s, c) == [s[..Find(s, c)]] + SplitOn(s[Find(s, c) + 1..], c);
    JoinWithCons(head, rest, c);
    CutAt(s, i);
  }

  /** A text is the part before position `i`, the character there, and the part after it. */
  lemma CutAt(s: string, i: int)
    requires 0 <= i < |s|
    ensures s == s[..i] + [s[i]] + s[i + 1..]
  {
    assert s[..i + 1] == s[..i] + [s[i]];
  }

  lemma JoinWithCons(p: string, rest: seq<string>, c: char)
    requires |rest| >= 1
    ensures JoinWith([p] + rest, c) == p + [c] + JoinWith(rest, c)
  {
    var parts := [p] + rest;
    assert |parts| >= 2 && parts[0] == p && parts[1..] == rest;
  }

  predicate IsDigit(c: char)
  {
    '0' <= c <= '9'
  }

  /** `int(c)` for an ASCII decimal digit. */
  function DigitValue(c: char): (d: int)
    requires IsDigit(c)
    ensures 0 <= d <= 9
  {
    c as int - '0' as int
  }

  function DigitChar(d: int): (c: char)
    requires 0 <= d <= 9
    ensures IsDigit(c) && DigitValue(c) == d
  {
    ('0' as int + d) as char
  }

  /** `str(n)` for a natural number: decimal, no leading zero. */
  function NatToString(n: nat): (r: string)
    ensures r != []
    ensures forall i :: 0 <= i < |r| ==> IsDigit(r[i])
    ensures r[0] == '0' ==> n == 0 && r == "0"
    decreases n
  {
    if n < 10 then [DigitChar(n)]
    else NatToString(n / 10) + [DigitChar(n % 10)]
  }

  /** The value of a string of decimal digits. */
  function ParseNat(s: string): nat
    requires forall i :: 0 <= i < |s| ==> IsDigit(s[i])
  {
    if s == [] then 0
    else 10 * ParseNat(s[..|s| - 1]) + DigitValue(s[|s| - 1])
  }

  /** Reading back the decimal text of `n` gives `n`. */
  lemma {:induction false} ParseNatToString(n: nat)
    ensures ParseNat(NatToString(n)) == n
    decreases n
  {
    if n >= 10 {
      ParseNatToString(n / 10);
      var s := NatToString(n);
      assert s[..|s| - 1] == NatToString(n / 10);
    }
  }

  /** `c.islower()` for an ASCII character. */
  predicate IsLower(c: char)
  {
    'a' <= c <= 'z'
  }

  /** `c.lower()` for an ASCII character. */
  function Lower(c: char): (r: char)
    ensures 'A' <= c <= 'Z' ==> IsLower(r)
    ensures !('A' <= c <= 'Z') ==> r == c
  {
    if 'A' <= c <= 'Z' then (c as int + 32) as char else c
  }
}
