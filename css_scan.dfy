/**
 * The regular expressions that both touch-target analyzers
 * (test-touch-targets.py and test-touch-targets.js) apply to the page, as
 * deterministic scanners.
 *
 * Each pattern below is matched the way a backtracking engine matches it:
 * the leftmost start position that succeeds wins, and for these patterns
 * greedy repetition never has to give characters back (every repeated class
 * excludes the character that must follow it), so each start position has at
 * most one way to succeed.
 */
module CssScan {
  import opened Wrappers
  import opened Text

  // ---------------------------------------------------------------------
  // `<style>(.*?)</style>` (Python, DOTALL) and `<style>([\s\S]*?)<\/style>` (JS)
  // ---------------------------------------------------------------------

  const StyleOpen := "<style>"
  const StyleClose := "</style>"

  /**
   * The text between the first `<style>` and the first `</style>` after it.
   * A later `<style>` cannot succeed where the first failed, since it has
   * even less text after it in which to find the closing tag.
   */
  function StyleRegion(html: string): (r: Option<string>)
    ensures r.Some? ==>
      exists i: nat, k: nat :: && StartsAt(html, i, StyleOpen) && i + 7 <= k && StartsAt(html, k, StyleClose)
                     && r.value == html[i + 7..k]
                     && (forall j :: 0 <= j < i ==> !StartsAt(html, j, StyleOpen))
                     && (forall j :: i + 7 <= j < k ==> !StartsAt(html, j, StyleClose))
    ensures r.None? ==>
      forall i: nat, k: nat :: i + 7 <= k && StartsAt(html, i, StyleOpen) ==> !StartsAt(html, k, StyleClose)
  {
    match FindSub(html, StyleOpen, 0)
    case None => None
    case Some(i) =>
      match FindSub(html, StyleClose, i + 7)
      case None => None
      case Some(k) => Some(html[i + 7..k])
  }

  // ---------------------------------------------------------------------
  // `(\d+)px`, searched anywhere in a value
  // ---------------------------------------------------------------------

  /** `(\d+)px` matches at index `i`: a digit run starts there and `px` follows the whole run. */
  predicate PxAt(s: string, i: nat) {
    i < |s| && IsDigit(s[i]) && StartsAt(s, DigitRunEnd(s, i), "px")
  }

  /** The leftmost index at or after `from` where `(\d+)px` matches. */
  function FindPx(s: string, from: nat): (r: Option<nat>)
    requires from <= |s|
    ensures r.Some? ==> from <= r.value && PxAt(s, r.value)
    ensures r.Some? ==> forall j :: from <= j < r.value ==> !PxAt(s, j)
    ensures r.None? ==> forall j :: from <= j ==> !PxAt(s, j)
    decreases |s| - from
  {
    if from == |s| then None
    else if PxAt(s, from) then Some(from)
    else FindPx(s, from + 1)
  }

  /**
   * `parse_size` (Python) and `parseSize` (JavaScript): the integer written
   * by the leftmost `<digits>px` in the value, or nothing for an empty value
   * or a value without one. Signs and fractions are not part of the pattern.
   */
  function ParseSize(value: string): (r: Option<nat>)
    ensures r.None? <==> forall j :: !PxAt(value, j)
    ensures r.Some? ==>
      exists i: nat :: PxAt(value, i) && (forall j :: 0 <= j < i ==> !PxAt(value, j))
                  && r.value == RunValue(value, i)
  {
    if value == [] then None
    else
      match FindPx(value, 0)
      case None => None
      case Some(i) => Some(RunValue(value, i))
  }

  /** Every natural number written in decimal and followed by `px` parses back to itself. */
  lemma ParseSizeOfRendered(n: nat, suffix: string)
    ensures ParseSize(NatToString(n) + "px" + suffix) == Some(n)
  {
    var d := NatToString(n);
    var s := d + "px" + suffix;
    assert forall k :: 0 <= k < |d| ==> s[k] == d[k];
    assert s[|d|] == 'p';
    assert DigitRunEnd(s, |d|) == |d|;
    DigitRunEndIs(s, 0, |d|);
    assert s[|d|..|d| + 2] == "px";
    assert PxAt(s, 0);
    assert s[0..DigitRunEnd(s, 0)] == d;
  }

  /** The pieces of `prefix + d + "px" + suffix` at their offsets. */
  lemma SpliceSlices(prefix: string, d: string, suffix: string, t: string)
    requires t == prefix + d + "px" + suffix
    ensures |prefix| + |d| + 2 <= |t|
    ensures t[|prefix|..|prefix| + |d|] == d
    ensures StartsAt(t, |prefix| + |d|, "px")
  {
    assert t[|prefix| + |d|..|prefix| + |d| + 2] == "px";
  }

  /** Digits `d` at `a` followed by `px`: the digit run at `a` is exactly `d`, and `(\d+)px` matches there. */
  lemma DigitsThenPx(t: string, a: nat, d: string)
    requires d != [] && forall k :: 0 <= k < |d| ==> IsDigit(d[k])
    requires a + |d| + 2 <= |t| && t[a..a + |d|] == d && StartsAt(t, a + |d|, "px")
    ensures DigitRunEnd(t, a) == a + |d| && PxAt(t, a)
  {
    DigitsInside(t, a, d);
    assert t[a + |d|] == 'p' by { assert t[a + |d|] == t[a + |d|..a + |d| + 2][0]; }
    DigitRunEndIs(t, a, a + |d|);
    assert t[a] == d[0];
  }

  /** Where a slice of `t` equals a digit string, `t` holds digits. */
  lemma DigitsInside(t: string, a: nat, d: string)
    requires a + |d| <= |t| && t[a..a + |d|] == d
    requires forall k :: 0 <= k < |d| ==> IsDigit(d[k])
    ensures forall k :: a <= k < a + |d| ==> IsDigit(t[k])
  {
    forall k | a <= k < a + |d|
      ensures IsDigit(t[k])
    {
      assert t[k] == d[k - a];
    }
  }

  /** The digit run starting at `i` ends at the first non-digit `j`. */
  lemma DigitRunEndIs(s: string, i: nat, j: nat)
    requires i <= j <= |s|
    requires forall k :: i <= k < j ==> IsDigit(s[k])
    requires j == |s| || !IsDigit(s[j])
    ensures DigitRunEnd(s, i) == j
    decreases j - i
  {
    if i < j { DigitRunEndIs(s, i + 1, j); }
  }

  /** A minus sign is not part of the pattern: `-5px` reads as 5. */
  lemma ParseSizeDropsSign()
    ensures ParseSize("-5px") == Some(5)
  {
    var s := "-5px";
    assert !PxAt(s, 0);
    DigitRunEndIs(s, 1, 2);
    assert PxAt(s, 1);
    assert s[1..2] == "5";
    assert DigitsValue("5") == 5 by { assert "5"[..0] == ""; }
  }

  /** A fraction is not part of the pattern: `12.5px` reads as the digits after the point. */
  lemma ParseSizeDropsIntegerPartOfFraction()
    ensures ParseSize("12.5px") == Some(5)
  {
    var s := "12.5px";
    DigitRunEndIs(s, 0, 2);
    DigitRunEndIs(s, 1, 2);
    DigitRunEndIs(s, 3, 4);
    assert !PxAt(s, 0) && !PxAt(s, 1) && !PxAt(s, 2);
    assert PxAt(s, 3);
    assert s[3..4] == "5";
    assert DigitsValue("5") == 5 by { assert "5"[..0] == ""; }
  }

  // ---------------------------------------------------------------------
  // `([^{]+)\{([^}]+)\}`, applied repeatedly (finditer / exec with /g)
  // ---------------------------------------------------------------------

  /** One match of the rule pattern: the selector text and the declaration text, untrimmed. */
  datatype RuleMatch = RuleMatch(selector: string, body: string)

  /**
   * The rule pattern matches at index `i`: `s[i]` is not `{`, a `{` follows
   * somewhere after it, and the first `}` after that `{` is not directly
   * next to it.
   */
  predicate RuleAt(s: string, i: nat) {
    && i < |s| && s[i] != '{'
    && var b := Find(s, '{', i);
    && b < |s|
    && var c := Find(s, '}', b + 1);
    && c < |s| && b + 1 < c
  }

  /** The leftmost start at or after `from` where the rule pattern matches. */
  function NextRule(s: string, from: nat): (r: Option<nat>)
    requires from <= |s|
    ensures r.Some? ==> from <= r.value && RuleAt(s, r.value)
    ensures r.Some? ==> forall j :: from <= j < r.value ==> !RuleAt(s, j)
    ensures r.None? ==> forall j :: from <= j ==> !RuleAt(s, j)
    decreases |s| - from
  {
    if from == |s| then None
    else if RuleAt(s, from) then Some(from)
    else NextRule(s, from + 1)
  }

  /** Every match of the rule pattern from `from` on, in order; each search resumes after the previous match. */
  function RuleMatches(s: string, from: nat): (r: seq<RuleMatch>)
    requires from <= |s|
    ensures forall m :: m in r ==> '}' !in m.body && '{' !in m.selector && m.body != [] && m.selector != []
    decreases |s| - from
  {
    match NextRule(s, from)
    case None => []
    case Some(i) =>
      var b := Find(s, '{', i);
      var c := Find(s, '}', b + 1);
      [RuleMatch(s[i..b], s[b + 1..c])] + RuleMatches(s, c + 1)
  }

  /**
   * Text that opens with a selector-like run, a `{`, a non-empty body and a
   * `}` yields that run and that body as its first match, even when the body
   * holds another `{` (as the inside of a media block does).
   */
  lemma FirstRuleMatch(head: string, body: string, rest: string)
    requires head != [] && '{' !in head
    requires body != [] && '}' !in body
    ensures var s := head + "{" + body + "}" + rest;
            RuleMatches(s, 0) != [] && RuleMatches(s, 0)[0] == RuleMatch(head, body)
  {
    var s := head + "{" + body + "}" + rest;
    var b := |head|;
    var c := |head| + 1 + |body|;
    assert forall j :: 0 <= j < b ==> s[j] == head[j];
    assert s[b] == '{';
    assert forall j :: b + 1 <= j < c ==> s[j] == body[j - b - 1];
    assert s[c] == '}';
    assert Find(s, '{', 0) == b;
    assert Find(s, '}', b + 1) == c;
    assert RuleAt(s, 0);
    assert s[0..b] == head;
    assert s[b + 1..c] == body;
  }

  /** The rule pattern needs a `}`: text without one yields no rule at all. */
  lemma NoCloseBraceNoRules(s: string, from: nat)
    requires from <= |s|
    requires '}' !in s
    ensures RuleMatches(s, from) == []
  {
  }

  // ---------------------------------------------------------------------
  // Filling a dictionary in order: a later entry for a key replaces the earlier one
  // ---------------------------------------------------------------------

  /**
   * The dictionary left by running `d[k] = v` for each present pair in turn,
   * starting from an empty one; absent entries (`None`) are skipped.
   */
  function Collect<K, V>(kvs: seq<Option<(K, V)>>): map<K, V>
  {
    if kvs == [] then map[]
    else
      var m := Collect(kvs[..|kvs| - 1]);
      match kvs[|kvs| - 1]
      case None => m
      case Some(kv) => m[kv.0 := kv.1]
  }

  /** The keys are exactly those of the present pairs. */
  lemma {:induction false} CollectKeys<K, V>(kvs: seq<Option<(K, V)>>)
    ensures Collect(kvs).Keys == set i | 0 <= i < |kvs| && kvs[i].Some? :: kvs[i].value.0
  {
    if kvs != [] {
      var front := kvs[..|kvs| - 1];
      CollectKeys(front);
      assert forall i :: 0 <= i < |kvs| - 1 ==> front[i] == kvs[i];
    }
  }

  /** One more step of the filling loop: the dictionary so far, updated by the next entry if it is present. */
  lemma CollectStep<K, V>(kvs: seq<Option<(K, V)>>, i: nat, m: map<K, V>)
    requires i < |kvs| && m == Collect(kvs[..i])
    ensures Collect(kvs[..i + 1]) == match kvs[i] case None => m case Some(kv) => m[kv.0 := kv.1]
  {
    assert kvs[..i + 1][..i] == kvs[..i];
  }

  /** A key is bound to the value of its LAST pair: a later assignment replaces the earlier value outright. */
  lemma {:induction false} CollectLastWins<K, V>(kvs: seq<Option<(K, V)>>, i: nat)
    requires i < |kvs| && kvs[i].Some?
    requires forall j :: i < j < |kvs| && kvs[j].Some? ==> kvs[j].value.0 != kvs[i].value.0
    ensures kvs[i].value.0 in Collect(kvs) && Collect(kvs)[kvs[i].value.0] == kvs[i].value.1
  {
    if i < |kvs| - 1 {
      var front := kvs[..|kvs| - 1];
      assert forall j :: i < j < |front| ==> front[j] == kvs[j];
      CollectLastWins(front, i);
    }
  }

  /** Every value in the dictionary was assigned by some pair. */
  lemma {:induction false} CollectValueFrom<K, V>(kvs: seq<Option<(K, V)>>, k: K)
    requires k in Collect(kvs)
    ensures exists i :: 0 <= i < |kvs| && kvs[i] == Some((k, Collect(kvs)[k]))
  {
    var front := kvs[..|kvs| - 1];
    var last := kvs[|kvs| - 1];
    if last.Some? && last.value.0 == k {
      assert kvs[|kvs| - 1] == Some((k, Collect(kvs)[k]));
    } else {
      CollectValueFrom(front, k);
      var i :| 0 <= i < |front| && front[i] == Some((k, Collect(front)[k]));
      assert kvs[i] == front[i];
    }
  }

  /** Laid over an earlier dictionary, the collected entries decide every key they hold: the last entry with it wins. */
  lemma OverlayLastWins<K, V>(before: map<K, V>, kvs: seq<Option<(K, V)>>, i: nat)
    requires i < |kvs| && kvs[i].Some?
    requires forall j :: i < j < |kvs| && kvs[j].Some? ==> kvs[j].value.0 != kvs[i].value.0
    ensures kvs[i].value.0 in before + Collect(kvs)
    ensures (before + Collect(kvs))[kvs[i].value.0] == kvs[i].value.1
  {
    CollectLastWins(kvs, i);
  }

  /** A key that no entry holds keeps its earlier value. */
  lemma OverlayKeeps<K, V>(before: map<K, V>, kvs: seq<Option<(K, V)>>, k: K)
    requires k in before
    requires forall j :: 0 <= j < |kvs| && kvs[j].Some? ==> kvs[j].value.0 != k
    ensures k in before + Collect(kvs) && (before + Collect(kvs))[k] == before[k]
  {
    CollectKeys(kvs);
  }

  /** Overlaying one more entry is one more update of the overlaid dictionary. */
  lemma OverlayStep<K, V>(before: map<K, V>, kvs: seq<Option<(K, V)>>, i: nat)
    requires i < |kvs|
    ensures before + Collect(kvs[..i + 1])
            == match kvs[i] case None => before + Collect(kvs[..i]) case Some(kv) => (before + Collect(kvs[..i]))[kv.0 := kv.1]
  {
    CollectStep(kvs, i, Collect(kvs[..i]));
  }

  /** Collecting one more entry extends the prefix's dictionary by that entry. */
  lemma CollectSnoc<K, V>(kvs: seq<Option<(K, V)>>, e: Option<(K, V)>)
    ensures Collect(kvs + [e]) == match e case None => Collect(kvs) case Some(kv) => Collect(kvs)[kv.0 := kv.1]
  {
    assert (kvs + [e])[..|kvs|] == kvs;
  }
}
