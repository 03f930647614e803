/**
 * Character and string helpers shared by the two touch-target analyzers and
 * the game modules: whitespace trimming, splitting at a separator, searching
 * for a character or a literal, decimal digits and ASCII case folding.
 *
 * Whitespace is the six ASCII characters that Python's `str.strip`/`\s` and
 * JavaScript's `trim`/`\s` both treat as whitespace: space, tab, line feed,
 * carriage return, vertical tab and form feed. Python also strips the
 * separators \x1c-\x1f, JavaScript does not, and both strip non-ASCII
 * spaces; those characters are not whitespace here.
 */
module Text {
  import opened Wrappers

  /** A prefix one element longer is the shorter prefix and that element. */
  lemma PrefixSnoc<T>(s: seq<T>, j: nat)
    requires j < |s|
    ensures s[..j + 1] == s[..j] + [s[j]]
  {
  }

  /** Storing under a key twice keeps only the second value. */
  lemma StoreTwice<K, V>(m: map<K, V>, k: K, a: V, b: V)
    ensures m[k := a][k := b] == m[k := b]
  {
  }

  predicate IsSpace(c: char) {
    c == ' ' || c == '\t' || c == '\n' || c == '\r' || c == '\U{000B}' || c == '\U{000C}'
  }

  predicate IsDigit(c: char) {
    '0' <= c <= '9'
  }

  /** `pat` occurs in `s` at index `i`. */
  predicate StartsAt(s: string, i: nat, pat: string) {
    i + |pat| <= |s| && s[i..i + |pat|] == pat
  }

  /** Drops leading whitespace; what is dropped is all whitespace, what is kept does not start with it. */
  function TrimStart(s: string): (r: string)
    ensures |r| <= |s| && r == s[|s| - |r|..]
    ensures r == [] || !IsSpace(r[0])
  {
    s[SkipSpaces(s, 0)..]
  }

  /** What `TrimStart` drops is all whitespace. */
  lemma TrimStartSpan(s: string)
    ensures forall i :: 0 <= i < |s| - |TrimStart(s)| ==> IsSpace(s[i])
  {
    SkipSpacesSpan(s, 0);
  }

  /** Where the whitespace run that ends at `j` begins. */
  function TrailingStart(s: string, j: nat): (i: nat)
    requires j <= |s|
    ensures i <= j
    ensures i == 0 || !IsSpace(s[i - 1])
  {
    if j > 0 && IsSpace(s[j - 1]) then TrailingStart(s, j - 1) else j
  }

  /** The run that `TrailingStart` goes back over is all whitespace. */
  lemma {:induction false} TrailingSpan(s: string, j: nat)
    requires j <= |s|
    ensures forall k :: TrailingStart(s, j) <= k < j ==> IsSpace(s[k])
  {
    if j > 0 && IsSpace(s[j - 1]) { TrailingSpan(s, j - 1); }
  }

  /** Drops trailing whitespace. */
  function TrimEnd(s: string): (r: string)
    ensures |r| <= |s| && r == s[..|r|]
    ensures r == [] || !IsSpace(r[|r| - 1])
  {
    s[..TrailingStart(s, |s|)]
  }

  /** What `TrimEnd` drops is all whitespace. */
  lemma TrimEndSpan(s: string)
    ensures forall i :: |TrimEnd(s)| <= i < |s| ==> IsSpace(s[i])
  {
    TrailingSpan(s, |s|);
  }

  /** `r` is `s` with the whitespace before index `a` and after `a + |r|` removed. */
  predicate StrippedAt(s: string, r: string, a: nat) {
    && a + |r| <= |s| && r == s[a..a + |r|]
    && (forall i :: 0 <= i < a ==> IsSpace(s[i]))
    && (forall i :: a + |r| <= i < |s| ==> IsSpace(s[i]))
    && (r == [] || (!IsSpace(r[0]) && !IsSpace(r[|r| - 1])))
  }

  /** Python's `str.strip()` and JavaScript's `String.prototype.trim()` (see `TrimIsStripped`). */
  function Trim(s: string): string
  {
    TrimEnd(TrimStart(s))
  }

  /** Trimming strips `s` at the offset where the part `TrimStart` kept begins. */
  lemma TrimIsStripped(s: string)
    ensures StrippedAt(s, Trim(s), |s| - |TrimStart(s)|)
  {
    var t := TrimStart(s);
    TrimStartSpan(s);
    TrimEndSpan(t);
    StripsBothEnds(s, t, TrimEnd(t), |s| - |t|);
  }

  /**
   * Dropping leading whitespace from `s` to get `t`, then trailing
   * whitespace from `t` to get `r`, strips `s` at the offset where `t` begins.
   */
  lemma StripsBothEnds(s: string, t: string, r: string, a: nat)
    requires a + |t| == |s| && t == s[a..]
    requires forall i :: 0 <= i < a ==> IsSpace(s[i])
    requires t == [] || !IsSpace(t[0])
    requires |r| <= |t| && r == t[..|r|]
    requires forall i :: |r| <= i < |t| ==> IsSpace(t[i])
    requires r == [] || !IsSpace(r[|r| - 1])
    ensures StrippedAt(s, r, a)
  {
    assert r == s[a..a + |r|] by {
      SliceOfSlice(s, a, |s|, 0, |r|);
    }
    forall i | a + |r| <= i < |s|
      ensures IsSpace(s[i])
    {
      assert s[i] == t[i - a];
    }
    if r != [] {
      assert r[0] == t[0];
    }
  }

  /** A slice of a slice is a slice of the whole. */
  lemma SliceOfSlice<T>(s: seq<T>, a: nat, b: nat, c: nat, d: nat)
    requires a <= b <= |s| && c <= d <= b - a
    ensures s[a..b][c..d] == s[a + c..a + d]
  {
    forall k | 0 <= k < d - c
      ensures s[a..b][c..d][k] == s[a + c..a + d][k]
    {
    }
  }

  /** The first index at or after `from` that holds `c`, or `|s|` when there is none. */
  function Find(s: string, c: char, from: nat): (k: nat)
    requires from <= |s|
    ensures from <= k <= |s|
    ensures k < |s| ==> s[k] == c
    ensures forall j :: from <= j < k ==> s[j] != c
    decreases |s| - from
  {
    if from == |s| || s[from] == c then from else Find(s, c, from + 1)
  }

  /** The first index at or after `from` where `pat` occurs. */
  function FindSub(s: string, pat: string, from: nat): (r: Option<nat>)
    requires from <= |s|
    ensures r.Some? ==> from <= r.value && StartsAt(s, r.value, pat)
    ensures r.Some? ==> forall j :: from <= j < r.value ==> !StartsAt(s, j, pat)
    ensures r.None? ==> forall j :: from <= j <= |s| ==> !StartsAt(s, j, pat)
    decreases |s| - from
  {
    if StartsAt(s, from, pat) then Some(from)
    else if from == |s| then None
    else FindSub(s, pat, from + 1)
  }

  /** JavaScript's `String.prototype.includes`. */
  predicate Contains(s: string, pat: string) {
    FindSub(s, pat, 0).Some?
  }

  /** Trimming keeps every occurrence of a pattern that neither starts nor ends with whitespace. */
  lemma TrimKeepsOccurrence(s: string, i: nat, pat: string)
    requires StartsAt(s, i, pat) && pat != [] && !IsSpace(pat[0]) && !IsSpace(pat[|pat| - 1])
    ensures Contains(Trim(s), pat)
  {
    var r := Trim(s);
    var a := |s| - |TrimStart(s)|;
    TrimIsStripped(s);
    OccurrenceInside(s, r, a, i, pat);
    OccurrenceFound(r, i - a, pat);
  }

  /** An occurrence without whitespace at either end lies inside the stripped part, shifted by `a`. */
  lemma OccurrenceInside(s: string, r: string, a: nat, i: nat, pat: string)
    requires StrippedAt(s, r, a)
    requires StartsAt(s, i, pat) && pat != [] && !IsSpace(pat[0]) && !IsSpace(pat[|pat| - 1])
    ensures a <= i && StartsAt(r, i - a, pat)
  {
    assert s[i] == pat[0];
    assert s[i + |pat| - 1] == pat[|pat| - 1];
    assert a <= i && i + |pat| <= a + |r|;
    SliceOfSlice(s, a, a + |r|, i - a, i - a + |pat|);
  }

  /** An occurrence anywhere is found by the search from the start. */
  lemma OccurrenceFound(s: string, k: nat, pat: string)
    requires StartsAt(s, k, pat)
    ensures Contains(s, pat)
  {
  }

  /** The end of the whitespace run that starts at `i` (the regex `\s*`). */
  function SkipSpaces(s: string, i: nat): (j: nat)
    requires i <= |s|
    ensures i <= j <= |s|
    ensures j == |s| || !IsSpace(s[j])
    decreases |s| - i
  {
    if i < |s| && IsSpace(s[i]) then SkipSpaces(s, i + 1) else i
  }

  /** The run that `SkipSpaces` skips is all whitespace. */
  lemma {:induction false} SkipSpacesSpan(s: string, i: nat)
    requires i <= |s|
    ensures forall k :: i <= k < SkipSpaces(s, i) ==> IsSpace(s[k])
    decreases |s| - i
  {
    if i < |s| && IsSpace(s[i]) { SkipSpacesSpan(s, i + 1); }
  }

  /** The end of the digit run that starts at `i` (the greedy regex `\d+`). */
  function DigitRunEnd(s: string, i: nat): (j: nat)
    requires i <= |s|
    ensures i <= j <= |s|
    ensures j == |s| || !IsDigit(s[j])
    decreases |s| - i
  {
    if i < |s| && IsDigit(s[i]) then DigitRunEnd(s, i + 1) else i
  }

  /** The run that `DigitRunEnd` skips holds only digits. */
  lemma {:induction false} DigitRunSpan(s: string, i: nat)
    requires i <= |s|
    ensures forall k :: i <= k < DigitRunEnd(s, i) ==> IsDigit(s[k])
    decreases |s| - i
  {
    if i < |s| && IsDigit(s[i]) { DigitRunSpan(s, i + 1); }
  }

  /** The number written by the digit run that starts at `i` (0 for an empty run). */
  function RunValue(s: string, i: nat): nat
    requires i <= |s|
  {
    DigitRunSpan(s, i);
    DigitsValue(s[i..DigitRunEnd(s, i)])
  }

  // ---------------------------------------------------------------------
  // Splitting
  // ---------------------------------------------------------------------

  /** Glues pieces back together with `sep` between them. */
  function Join(pieces: seq<string>, sep: char): string
  {
    if pieces == [] then []
    else if |pieces| == 1 then pieces[0]
    else pieces[0] + [sep] + Join(pieces[1..], sep)
  }

  /**
   * Python's `str.split(sep)` and JavaScript's `String.prototype.split(sep)`
   * for a one-character separator: the pieces between separators, empty ones
   * included (joining them back gives the input: `JoinSplit`).
   */
  function Split(s: string, sep: char): (r: seq<string>)
    ensures |r| >= 1
    ensures forall i :: 0 <= i < |r| ==> sep !in r[i]
    decreases |s|
  {
    var k := Find(s, sep, 0);
    if k == |s| then
      assert sep !in s;
      [s]
    else
      [s[..k]] + Split(s[k + 1..], sep)
  }

  /** Joining the pieces of a split with the separator gives the input back. */
  lemma {:induction false} JoinSplit(s: string, sep: char)
    ensures Join(Split(s, sep), sep) == s
    decreases |s|
  {
    var k := Find(s, sep, 0);
    if k < |s| {
      var rest := s[k + 1..];
      JoinSplit(rest, sep);
      JoinCons(s[..k], Split(rest, sep), sep);
      assert s == s[..k] + [sep] + rest;
    }
  }

  /** Joining a first piece and at least one more puts the separator after the first piece. */
  lemma JoinCons(w: string, pieces: seq<string>, sep: char)
    requires pieces != []
    ensures Join([w] + pieces, sep) == w + [sep] + Join(pieces, sep)
  {
    assert ([w] + pieces)[1..] == pieces;
  }

  /**
   * Python's `str.split()` without an argument: the maximal runs of
   * non-whitespace characters, in order.
   */
  function Words(s: string): seq<string> {
    WordsFrom(s, 0)
  }

  /** The maximal runs of non-whitespace characters at or after index `i`. */
  function WordsFrom(s: string, i: nat): seq<string>
    requires i <= |s|
    decreases |s| - i
  {
    var a := SkipSpaces(s, i);
    if a == |s| then []
    else
      var b := WordEnd(s, a);
      [s[a..b]] + WordsFrom(s, b)
  }

  /** A word: non-empty and free of whitespace. */
  predicate IsWord(w: string) {
    w != [] && forall k :: 0 <= k < |w| ==> !IsSpace(w[k])
  }

  /** Every word is non-empty and free of whitespace. */
  lemma {:induction false} WordsAreWords(s: string, i: nat)
    requires i <= |s|
    ensures var r := WordsFrom(s, i);
            forall j :: 0 <= j < |r| ==> IsWord(r[j])
    decreases |s| - i
  {
    var a := SkipSpaces(s, i);
    if a < |s| {
      var b := WordEnd(s, a);
      WordEndSpan(s, a);
      WordsAreWords(s, b);
      var r := WordsFrom(s, i);
      assert r == [s[a..b]] + WordsFrom(s, b);
      forall j | 0 <= j < |r|
        ensures IsWord(r[j])
      {
        if j == 0 {
          assert r[0] == s[a..b];
          assert forall k :: 0 <= k < b - a ==> s[a..b][k] == s[a + k];
        } else {
          assert r[j] == WordsFrom(s, b)[j - 1];
        }
      }
    }
  }

  /** The end of the non-whitespace run that starts at `i`. */
  function WordEnd(s: string, i: nat): (j: nat)
    requires i <= |s|
    ensures i <= j <= |s|
    ensures j == |s| || IsSpace(s[j])
    ensures i < |s| && !IsSpace(s[i]) ==> i < j
    decreases |s| - i
  {
    if i < |s| && !IsSpace(s[i]) then WordEnd(s, i + 1) else i
  }

  /** The run that `WordEnd` skips holds no whitespace. */
  lemma {:induction false} WordEndSpan(s: string, i: nat)
    requires i <= |s|
    ensures forall k :: i <= k < WordEnd(s, i) ==> !IsSpace(s[k])
    decreases |s| - i
  {
    if i < |s| && !IsSpace(s[i]) { WordEndSpan(s, i + 1); }
  }

  /** The first `sep` in a piece followed by `sep` is the one right after the piece. */
  lemma FindAfterPiece(w: string, sep: char, t: string)
    requires sep !in w
    ensures Find(w + [sep] + t, sep, 0) == |w|
  {
    var s := w + [sep] + t;
    assert forall j :: 0 <= j < |w| ==> s[j] == w[j];
    assert s[|w|] == sep;
  }

  /** Splitting pieces that were joined with a separator they do not contain gives the pieces back. */
  lemma {:induction false} SplitJoin(pieces: seq<string>, sep: char)
    requires |pieces| >= 1
    requires forall i :: 0 <= i < |pieces| ==> sep !in pieces[i]
    ensures Split(Join(pieces, sep), sep) == pieces
    decreases |pieces|
  {
    var s := Join(pieces, sep);
    if |pieces| == 1 {
      assert Find(s, sep, 0) == |s|;
    } else {
      var rest := Join(pieces[1..], sep);
      FindAfterPiece(pieces[0], sep, rest);
      assert s[..|pieces[0]|] == pieces[0];
      assert s[|pieces[0]| + 1..] == rest;
      SplitJoin(pieces[1..], sep);
      assert pieces == [pieces[0]] + pieces[1..];
    }
  }

  /** The word that starts a text runs up to the first whitespace character. */
  lemma WordEndIs(s: string, i: nat, j: nat)
    requires i <= j <= |s|
    requires forall k :: i <= k < j ==> !IsSpace(s[k])
    requires j == |s| || IsSpace(s[j])
    ensures WordEnd(s, i) == j
    decreases j - i
  {
    if i < j { WordEndIs(s, i + 1, j); }
  }

  /** Splitting at whitespace undoes joining non-empty, whitespace-free words with single spaces. */
  lemma WordsOfSpaced(ws: seq<string>)
    requires forall i :: 0 <= i < |ws| ==> IsWord(ws[i])
    ensures Words(Join(ws, ' ')) == ws
  {
    var s := Join(ws, ' ');
    assert s[0..] == s;
    JoinIsSpaced(s, 0, ws);
    AllWordsOf(ws);
    WordsAtSpaced(s, 0, ws);
  }

  /** From index `i` on, `s` is the pieces `ws` with a single space between each two. */
  predicate SpacedFrom(s: string, i: nat, ws: seq<string>)
    decreases |ws|
  {
    if ws == [] then i == |s|
    else
      var j := i + |ws[0]|;
      && j <= |s| && s[i..j] == ws[0]
      && if |ws| == 1 then j == |s| else j < |s| && s[j] == ' ' && SpacedFrom(s, j + 1, ws[1..])
  }

  /** Where the rest of a text is the pieces joined with spaces, the text is spaced that way from there on. */
  lemma {:induction false} JoinIsSpaced(s: string, i: nat, ws: seq<string>)
    requires i <= |s| && s[i..] == Join(ws, ' ')
    ensures SpacedFrom(s, i, ws)
    decreases |ws|
  {
    if ws == [] {
      assert |s[i..]| == 0;
    } else if |ws| == 1 {
      var j := i + |ws[0]|;
      assert s[i..] == ws[0];
      assert s[i..j] == ws[0];
      SpacedSingle(s, i, j, ws);
    } else {
      var j := i + |ws[0]|;
      var rest := Join(ws[1..], ' ');
      assert s[i..] == ws[0] + [' '] + rest;
      PieceThenRest(s, i, ws[0], rest);
      JoinIsSpaced(s, j + 1, ws[1..]);
      SpacedCons(s, i, j, ws);
    }
  }

  /** A suffix that is a piece, a space and a rest splits into those three parts. */
  lemma PieceThenRest(s: string, i: nat, w: string, rest: string)
    requires i <= |s| && s[i..] == w + [' '] + rest
    ensures i + |w| < |s| && s[i..i + |w|] == w && s[i + |w|] == ' ' && s[i + |w| + 1..] == rest
  {
    var t := w + [' '] + rest;
    assert forall k :: i <= k < |s| ==> s[k] == t[k - i];
    assert s[i..i + |w|] == w;
    assert s[i + |w| + 1..] == rest;
  }

  /** One piece that runs to the end of the text. */
  lemma SpacedSingle(s: string, i: nat, j: nat, ws: seq<string>)
    requires |ws| == 1 && j == i + |ws[0]| == |s| && s[i..j] == ws[0]
    ensures SpacedFrom(s, i, ws)
  {
  }

  /** A first piece, a space, and the other pieces spaced. */
  lemma SpacedCons(s: string, i: nat, j: nat, ws: seq<string>)
    requires |ws| > 1 && j == i + |ws[0]| && j < |s| && s[i..j] == ws[0] && s[j] == ' '
    requires SpacedFrom(s, j + 1, ws[1..])
    ensures SpacedFrom(s, i, ws)
  {
  }

  /** Each piece is a word. */
  predicate AllWords(ws: seq<string>) {
    ws == [] || (IsWord(ws[0]) && AllWords(ws[1..]))
  }

  /** Pieces that are each a word are all words. */
  lemma {:induction false} AllWordsOf(ws: seq<string>)
    requires forall i :: 0 <= i < |ws| ==> IsWord(ws[i])
    ensures AllWords(ws)
  {
    if ws != [] {
      assert forall i :: 0 <= i < |ws[1..]| ==> ws[1..][i] == ws[i + 1];
      AllWordsOf(ws[1..]);
    }
  }

  /** Where the text is the words spaced by single spaces from `i` on, those are the words from `i`. */
  lemma {:induction false} WordsAtSpaced(s: string, i: nat, ws: seq<string>)
    requires i <= |s| && SpacedFrom(s, i, ws) && AllWords(ws)
    ensures WordsFrom(s, i) == ws
    decreases |ws|
  {
    if ws == [] {
      NoMoreWords(s, i);
    } else {
      var j := i + |ws[0]|;
      WordAt(s, i, ws[0]);
      if |ws| == 1 {
        NoMoreWords(s, j);
      } else {
        SpaceSkipped(s, j);
        WordsAtSpaced(s, j + 1, ws[1..]);
      }
      HeadAndTail(WordsFrom(s, i), ws, WordsFrom(s, j));
    }
  }

  /** A sequence made of the head of a non-empty sequence and then its tail is that sequence. */
  lemma HeadAndTail<T>(xs: seq<T>, ys: seq<T>, tail: seq<T>)
    requires ys != [] && xs == [ys[0]] + tail && tail == ys[1..]
    ensures xs == ys
  {
    assert ys == [ys[0]] + ys[1..];
  }

  /** At the end of a text there are no more words. */
  lemma NoMoreWords(s: string, i: nat)
    requires i == |s|
    ensures WordsFrom(s, i) == []
  {
  }

  /** A space at `j` is skipped: the words from `j` are the words from `j + 1`. */
  lemma SpaceSkipped(s: string, j: nat)
    requires j < |s| && IsSpace(s[j])
    ensures WordsFrom(s, j) == WordsFrom(s, j + 1)
  {
    assert SkipSpaces(s, j) == SkipSpaces(s, j + 1);
  }

  /** A non-empty, whitespace-free word at `i`, followed by the end or by whitespace, is the next word. */
  lemma WordAt(s: string, i: nat, w: string)
    requires IsWord(w)
    requires i + |w| <= |s| && s[i..i + |w|] == w
    requires i + |w| == |s| || IsSpace(s[i + |w|])
    ensures WordsFrom(s, i) == [w] + WordsFrom(s, i + |w|)
  {
    assert forall k :: i <= k < i + |w| ==> s[k] == w[k - i];
    assert SkipSpaces(s, i) == i;
    WordEndIs(s, i, i + |w|);
  }

  // ---------------------------------------------------------------------
  // Decimal numbers
  // ---------------------------------------------------------------------

  function DigitValue(c: char): nat
    requires IsDigit(c)
  {
    (c - '0') as nat
  }

  /** Python's `int` and JavaScript's `parseInt` on a string of decimal digits. */
  function DigitsValue(s: string): nat
    requires forall i :: 0 <= i < |s| ==> IsDigit(s[i])
  {
    if s == [] then 0 else DigitsValue(s[..|s| - 1]) * 10 + DigitValue(s[|s| - 1])
  }

  function DigitChar(d: nat): (c: char)
    requires d < 10
    ensures IsDigit(c) && DigitValue(c) == d
  {
    ('0' as int + d) as char
  }

  /** The decimal rendering of a natural number, as `str(n)` and `String(n)` give it. */
  function NatToString(n: nat): (r: string)
    ensures r != [] && forall i :: 0 <= i < |r| ==> IsDigit(r[i])
    ensures DigitsValue(r) == n
  {
    var r := (if n < 10 then [] else NatToString(n / 10)) + [DigitChar(n % 10)];
    assert r[..|r| - 1] == (if n < 10 then [] else NatToString(n / 10));
    r
  }

  /** The decimal rendering of an integer, with a leading `-` when negative. */
  function IntToString(n: int): string
  {
    if n < 0 then "-" + NatToString(-n) else NatToString(n)
  }

  /** JavaScript's `s.padStart(2, '0')`. */
  function PadStart2(s: string): (r: string)
    ensures |r| == if |s| < 2 then 2 else |s|
    ensures r[|r| - |s|..] == s
    ensures forall i :: 0 <= i < |r| - |s| ==> r[i] == '0'
  {
    if |s| == 0 then "00" else if |s| == 1 then "0" + s else s
  }

  // ---------------------------------------------------------------------
  // Case folding
  // ---------------------------------------------------------------------

  function LowerChar(c: char): char {
    if 'A' <= c <= 'Z' then (c as int + 32) as char else c
  }

  /** `toLowerCase()`, restricted to the ASCII letters. */
  function Lower(s: string): (r: string)
    ensures |r| == |s|
    ensures forall i :: 0 <= i < |s| ==> r[i] == LowerChar(s[i])
  {
    seq(|s|, i requires 0 <= i < |s| => LowerChar(s[i]))
  }

  /** Lower-casing twice is lower-casing once, so a key stored lower-cased is found again under any case. */
  lemma LowerIdempotent(s: string)
    ensures Lower(Lower(s)) == Lower(s)
  {
    assert forall i :: 0 <= i < |s| ==> LowerChar(LowerChar(s[i])) == LowerChar(s[i]);
  }
}
