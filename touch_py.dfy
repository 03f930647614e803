/**
 * The touch-target analyzer of test-touch-targets.py: it pulls the first
 * `<style>` region out of a page, splits it into base rules and rule sets
 * keyed by a `max-width` threshold (an emulation of the `max-width` media
 * feature of section 4.1 of Media Queries Level 3), resolves the effective
 * sizes and padding of a selector at a viewport width, and counts how many
 * targets pass the minimum size of the viewport.
 */
module TouchPy {
  import opened Wrappers
  import opened Text
  import opened CssScan
  import opened TouchTargets

  /** A declaration block: property name to value text. */
  type Properties = map<string, string>

  /** Selector text to its declaration block. */
  type RuleSet = map<string, Properties>

  /** What `parse_css` returns for a page with a style region. */
  datatype Stylesheet = Stylesheet(base: RuleSet, media: map<nat, RuleSet>)

  // ---------------------------------------------------------------------
  // parse_rules
  // ---------------------------------------------------------------------

  /** One `;`-separated piece, split at its first colon, both sides trimmed; nothing for a piece without a colon. */
  function DeclarationPy(decl: string): Option<(string, string)> {
    var k := Find(decl, ':', 0);
    if k == |decl| then None else Some((Trim(decl[..k]), Trim(decl[k + 1..])))
  }

  /**
   * A piece declares something exactly when it holds a colon; the name is
   * the trimmed text before the FIRST colon and the value the trimmed rest,
   * later colons included.
   */
  lemma DeclarationSplitsAtFirstColon(decl: string)
    ensures DeclarationPy(decl).None? <==> ':' !in decl
    ensures forall k :: 0 <= k < |decl| && decl[k] == ':' && ':' !in decl[..k] ==>
              DeclarationPy(decl) == Some((Trim(decl[..k]), Trim(decl[k + 1..])))
  {
    DeclarationIffColon(decl);
    forall k | 0 <= k < |decl| && decl[k] == ':' && ':' !in decl[..k]
      ensures DeclarationPy(decl) == Some((Trim(decl[..k]), Trim(decl[k + 1..])))
    {
      DeclarationAtColon(decl, k);
    }
  }

  lemma DeclarationIffColon(decl: string)
    ensures DeclarationPy(decl).None? <==> ':' !in decl
  {
    var f := Find(decl, ':', 0);
    if f == |decl| {
      assert ':' !in decl;
    } else {
      assert decl[f] == ':';
    }
  }

  lemma DeclarationAtColon(decl: string, k: nat)
    requires k < |decl| && decl[k] == ':' && ':' !in decl[..k]
    ensures DeclarationPy(decl) == Some((Trim(decl[..k]), Trim(decl[k + 1..])))
  {
    forall j | 0 <= j < k
      ensures decl[j] != ':'
    {
      assert decl[..k][j] == decl[j];
    }
    assert Find(decl, ':', 0) == k;
  }

  /** The declarations of each `;`-separated piece, in order. */
  function DeclarationEntriesPy(pieces: seq<string>): (r: seq<Option<(string, string)>>)
    ensures |r| == |pieces| && forall i :: 0 <= i < |pieces| ==> r[i] == DeclarationPy(pieces[i])
  {
    seq(|pieces|, i requires 0 <= i < |pieces| => DeclarationPy(pieces[i]))
  }

  /** The `;`-separated pieces of a declaration block. */
  function Pieces(declarations: string): seq<string> {
    Split(declarations, ';')
  }

  /** The property map of one declaration block; a later declaration of a property replaces an earlier one. */
  function DeclarationsPy(declarations: string): Properties {
    Collect(DeclarationEntriesPy(Pieces(declarations)))
  }

  /** The entry each rule match contributes: trimmed selector text to the trimmed block's declarations. */
  function RuleEntriesPy(ms: seq<RuleMatch>): (r: seq<Option<(string, Properties)>>)
    ensures |r| == |ms|
    ensures forall i :: 0 <= i < |ms| ==> r[i] == Some((Trim(ms[i].selector), DeclarationsPy(Trim(ms[i].body))))
  {
    seq(|ms|, i requires 0 <= i < |ms| => Some((Trim(ms[i].selector), DeclarationsPy(Trim(ms[i].body)))))
  }

  /** The rule set `parse_rules` builds from a text. */
  function RulesSpec(css: string): RuleSet {
    Collect(RuleEntriesPy(RuleMatches(css, 0)))
  }

  /** The declaration loop of `parse_rules`, for one block. */
  method ParseDeclarations(declarations: string) returns (properties: Properties)
    ensures properties == DeclarationsPy(declarations)
  {
    var pieces := Pieces(declarations);
    ghost var entries := DeclarationEntriesPy(pieces);
    properties := map[];
    for i := 0 to |pieces|
      invariant properties == Collect(entries[..i])
    {
      var declaration := DeclarationPy(pieces[i]);
      assert entries[i] == declaration;
      CollectStep(entries, i, properties);
      if declaration.Some? {
        properties := properties[declaration.value.0 := declaration.value.1];
      }
    }
    assert entries[..|pieces|] == entries;
  }

  /** `parse_rules`: every rule match, in order, stored under its trimmed selector text. */
  method ParseRules(css: string) returns (rules: RuleSet)
    ensures rules == RulesSpec(css)
  {
    var matches := RuleMatches(css, 0);
    ghost var entries := RuleEntriesPy(matches);
    rules := map[];
    for i := 0 to |matches|
      invariant rules == Collect(entries[..i])
    {
      CollectStep(entries, i, rules);
      var selector := Trim(matches[i].selector);
      var properties := ParseDeclarations(Trim(matches[i].body));
      rules := rules[selector := properties];
    }
    assert entries[..|matches|] == entries;
  }

  /**
   * A later block with the same selector text replaces the earlier property
   * map outright: the selector of the last block that has it is bound to
   * exactly that block's declarations, with nothing merged in from before.
   */
  lemma LastRuleReplaces(css: string, i: nat)
    requires i < |RuleMatches(css, 0)|
    requires forall j :: i < j < |RuleMatches(css, 0)| ==>
               Trim(RuleMatches(css, 0)[j].selector) != Trim(RuleMatches(css, 0)[i].selector)
    ensures var m := RuleMatches(css, 0)[i];
            Trim(m.selector) in RulesSpec(css) && RulesSpec(css)[Trim(m.selector)] == DeclarationsPy(Trim(m.body))
  {
    CollectLastWins(RuleEntriesPy(RuleMatches(css, 0)), i);
  }

  /** A property is bound to the value of its last declaration in the block. */
  lemma LastDeclarationWins(declarations: string, i: nat)
    requires i < |Pieces(declarations)| && DeclarationPy(Pieces(declarations)[i]).Some?
    requires forall j :: i < j < |Pieces(declarations)| && DeclarationPy(Pieces(declarations)[j]).Some? ==>
               DeclarationPy(Pieces(declarations)[j]).value.0 != DeclarationPy(Pieces(declarations)[i]).value.0
    ensures var (name, value) := DeclarationPy(Pieces(declarations)[i]).value;
            name in DeclarationsPy(declarations) && DeclarationsPy(declarations)[name] == value
  {
    CollectLastWins(DeclarationEntriesPy(Pieces(declarations)), i);
  }

  /** Every stored property comes from a piece with a colon, whose trimmed halves it holds. */
  lemma DeclarationOrigin(declarations: string, name: string)
    requires name in DeclarationsPy(declarations)
    ensures exists piece :: piece in Pieces(declarations) && DeclarationPy(piece) == Some((name, DeclarationsPy(declarations)[name]))
  {
    var entries := DeclarationEntriesPy(Pieces(declarations));
    CollectValueFrom(entries, name);
    var i :| 0 <= i < |entries| && entries[i] == Some((name, Collect(entries)[name]));
    assert Pieces(declarations)[i] in Pieces(declarations);
  }

  // ---------------------------------------------------------------------
  // parse_css: `@media\s*\([^)]+\)\s*\{([^}]*(?:\{[^}]*\}[^}]*)*)\}`
  // ---------------------------------------------------------------------

  /**
   * One match of the media pattern: `start` is the index of `@`, `open` the
   * index just after the `{`, `close` the index of the closing `}`.
   */
  datatype MediaMatch = MediaMatch(start: nat, open: nat, close: nat)

  /** The match lies inside `s`, ends at a `}` and holds no `}` in its content. */
  predicate WellPlaced(s: string, m: MediaMatch) {
    && m.start < m.open <= m.close < |s|
    && s[m.close] == '}'
    && forall j :: m.open <= j < m.close ==> s[j] != '}'
  }

  /**
   * The media pattern matched at index `i`. The greedy `[^}]*` runs up to the
   * first `}` after the `{`, the optional nested group then cannot start (it
   * needs a `{`), and the final `\}` takes that first `}`: so the content of a
   * match never holds a `}`.
   */
  function MediaAt(s: string, i: nat): (r: Option<MediaMatch>)
    requires i <= |s|
    ensures r.Some? ==> r.value.start == i && WellPlaced(s, r.value)
  {
    if !StartsAt(s, i, "@media") then None
    else
      var j := SkipSpaces(s, i + 6);
      if j == |s| || s[j] != '(' then None
      else
        var k := Find(s, ')', j + 1);
        if k == |s| || k == j + 1 then None
        else
          var m := SkipSpaces(s, k + 1);
          if m == |s| || s[m] != '{' then None
          else
            var f := Find(s, '}', m + 1);
            if f == |s| then None else Some(MediaMatch(i, m + 1, f))
  }

  /** The leftmost match of the media pattern at or after `from`. */
  function NextMedia(s: string, from: nat): (r: Option<MediaMatch>)
    requires from <= |s|
    ensures r.Some? ==> from <= r.value.start < |s| && WellPlaced(s, r.value)
    ensures r.Some? ==> MediaAt(s, r.value.start) == r
    ensures r.Some? ==> forall j :: from <= j < r.value.start ==> MediaAt(s, j).None?
    ensures r.None? ==> forall j :: from <= j <= |s| ==> MediaAt(s, j).None?
    decreases |s| - from
  {
    var m := MediaAt(s, from);
    if m.Some? then m
    else if from == |s| then None
    else NextMedia(s, from + 1)
  }

  /** `re.finditer` with the media pattern: every match in order, each search resuming after the previous match. */
  function MediaMatches(s: string, from: nat): (r: seq<MediaMatch>)
    requires from <= |s|
    ensures forall i :: 0 <= i < |r| ==> from <= r[i].start && WellPlaced(s, r[i])
    decreases |s| - from
  {
    match NextMedia(s, from)
    case None => []
    case Some(m) => [m] + MediaMatches(s, m.close + 1)
  }

  /** `re.sub` of the media pattern with the empty string: the text between the matches. */
  function BaseText(s: string, from: nat): (r: string)
    requires from <= |s|
    ensures |r| <= |s| - from
    ensures NextMedia(s, from).None? ==> r == s[from..]
    decreases |s| - from
  {
    match NextMedia(s, from)
    case None => s[from..]
    case Some(m) => s[from..m.start] + BaseText(s, m.close + 1)
  }

  // `max-width:\s*(\d+)px`, searched in the whole text of a media match

  const MaxWidthKey := "max-width:"

  /** `max-width:`, optional whitespace, then `<digits>px` at index `p`. */
  predicate MaxWidthAt(t: string, p: nat) {
    p + 10 <= |t| && StartsAt(t, p, MaxWidthKey) && PxAt(t, SkipSpaces(t, p + 10))
  }

  /** The number written in the match at `p`. */
  function MaxWidthValue(t: string, p: nat): nat
    requires MaxWidthAt(t, p)
  {
    RunValue(t, SkipSpaces(t, p + 10))
  }

  function FindMaxWidth(t: string, from: nat): (r: Option<nat>)
    requires from <= |t|
    ensures r.Some? ==> from <= r.value && MaxWidthAt(t, r.value)
    ensures r.Some? ==> forall j :: from <= j < r.value ==> !MaxWidthAt(t, j)
    ensures r.None? ==> forall j :: from <= j ==> !MaxWidthAt(t, j)
    decreases |t| - from
  {
    if from == |t| then None
    else if MaxWidthAt(t, from) then Some(from)
    else FindMaxWidth(t, from + 1)
  }

  /**
   * The threshold of a media block: the number of the first `max-width: Npx`
   * anywhere in the matched text, including the declarations inside it.
   */
  function MediaThreshold(t: string): Option<nat>
  {
    match FindMaxWidth(t, 0)
    case None => None
    case Some(p) => Some(MaxWidthValue(t, p))
  }

  /** The threshold is absent exactly when nothing matches, and otherwise read from the leftmost match. */
  lemma MediaThresholdIsLeftmost(t: string)
    ensures MediaThreshold(t).None? <==> forall p :: !MaxWidthAt(t, p)
    ensures MediaThreshold(t).Some? ==>
      exists p: nat :: MaxWidthAt(t, p) && (forall j :: 0 <= j < p ==> !MaxWidthAt(t, j))
                       && MediaThreshold(t).value == MaxWidthValue(t, p)
  {
  }

  const MaxWidthHeader := "@media (max-width: "

  /** In `@media (max-width: ` the key does not occur before index 8. */
  lemma HeaderKeyAt(t: string)
    requires |t| >= 19 && t[..19] == MaxWidthHeader
    ensures forall j :: 0 <= j < 8 ==> !StartsAt(t, j, MaxWidthKey)
  {
    assert t[0] == '@' && t[1] == 'm' && t[2] == 'e' && t[3] == 'd' by {
      assert t[0] == t[..19][0] && t[1] == t[..19][1] && t[2] == t[..19][2] && t[3] == t[..19][3];
    }
    assert t[4] == 'i' && t[5] == 'a' && t[6] == ' ' && t[7] == '(' by {
      assert t[4] == t[..19][4] && t[5] == t[..19][5] && t[6] == t[..19][6] && t[7] == t[..19][7];
    }
    NotKeyAt(t, 0); NotKeyAt(t, 1); NotKeyAt(t, 2); NotKeyAt(t, 3);
    NotKeyAt(t, 4); NotKeyAt(t, 5); NotKeyAt(t, 6); NotKeyAt(t, 7);
  }

  /** The key cannot start where the text does not read `ma`. */
  lemma NotKeyAt(t: string, j: nat)
    requires j + 1 < |t| && (t[j] != 'm' || t[j + 1] != 'a')
    ensures !StartsAt(t, j, MaxWidthKey)
  {
    if j + 10 <= |t| {
      assert t[j..j + 10][0] == t[j] && t[j..j + 10][1] == t[j + 1];
    }
  }

  /** The key at `p`, spaces up to `q`, then the digits of N and `px`: the match at `p` reads as N. */
  lemma ReadsMaxWidth(t: string, p: nat, q: nat, d: string)
    requires p + 10 <= |t| && StartsAt(t, p, MaxWidthKey) && SkipSpaces(t, p + 10) == q
    requires forall k :: 0 <= k < |d| ==> IsDigit(d[k])
    requires q + |d| <= |t| && DigitRunEnd(t, q) == q + |d|
    requires t[q..q + |d|] == d && PxAt(t, q)
    ensures MaxWidthAt(t, p) && MaxWidthValue(t, p) == DigitsValue(d)
  {
  }

  /** One space at `a - 1`, then digits and `px` at `a`: skipping spaces from the space lands on the digits. */
  lemma SpaceThenDigits(t: string, a: nat, d: string)
    requires 1 <= a && a + |d| + 2 <= |t| && t[a - 1] == ' '
    requires d != [] && forall k :: 0 <= k < |d| ==> IsDigit(d[k])
    requires t[a..a + |d|] == d && StartsAt(t, a + |d|, "px")
    ensures SkipSpaces(t, a - 1) == a && DigitRunEnd(t, a) == a + |d| && PxAt(t, a)
  {
    DigitsThenPx(t, a, d);
    assert t[a] == d[0] by { assert t[a] == t[a..a + |d|][0]; }
    assert !IsSpace(t[a]);
  }

  /** A block opened by `@media (max-width: Npx)` is keyed by N. */
  lemma ThresholdOfHeader(n: nat, rest: string)
    ensures MediaThreshold(MaxWidthHeader + NatToString(n) + "px)" + rest) == Some(n)
  {
    var d := NatToString(n);
    var t := MaxWidthHeader + d + "px)" + rest;
    HeaderPieces(d, rest, t);
    HeaderThreshold(t, n);
  }

  /** The header, the digits and `px` at their offsets in `@media (max-width: <digits>px)...`. */
  lemma HeaderPieces(d: string, rest: string, t: string)
    requires t == MaxWidthHeader + d + "px)" + rest
    ensures 19 + |d| + 2 <= |t| && t[..19] == MaxWidthHeader
    ensures t[19..19 + |d|] == d && StartsAt(t, 19 + |d|, "px")
  {
    assert t == MaxWidthHeader + d + "px" + (")" + rest);
    SpliceSlices(MaxWidthHeader, d, ")" + rest, t);
    assert t[..19] == MaxWidthHeader;
  }

  /** After the header come the digits of N and `px`: the first `max-width` match is at 8 and reads as N. */
  lemma HeaderThreshold(t: string, n: nat)
    requires 19 + |NatToString(n)| + 2 <= |t| && t[..19] == MaxWidthHeader
    requires t[19..19 + |NatToString(n)|] == NatToString(n) && StartsAt(t, 19 + |NatToString(n)|, "px")
    ensures MediaThreshold(t) == Some(n)
  {
    HeaderMatch(t, NatToString(n));
    HeaderKeyAt(t);
    FirstMatchAt(t, 8);
  }

  /** The `max-width` match at 8 reads as the digits after the header. */
  lemma HeaderMatch(t: string, d: string)
    requires 19 + |d| + 2 <= |t| && t[..19] == MaxWidthHeader
    requires d != [] && forall k :: 0 <= k < |d| ==> IsDigit(d[k])
    requires t[19..19 + |d|] == d && StartsAt(t, 19 + |d|, "px")
    ensures MaxWidthAt(t, 8) && MaxWidthValue(t, 8) == DigitsValue(d)
  {
    KeyAtEight(t);
    SpaceThenDigits(t, 19, d);
    ReadsMaxWidth(t, 8, 19, d);
  }

  /** In `@media (max-width: ` the key sits at 8 and a space at 18. */
  lemma KeyAtEight(t: string)
    requires |t| >= 19 && t[..19] == MaxWidthHeader
    ensures StartsAt(t, 8, MaxWidthKey) && t[18] == ' '
  {
    assert t[8..18] == t[..19][8..18] == MaxWidthHeader[8..18] == MaxWidthKey;
    assert t[18] == t[..19][18] == ' ';
  }

  /** A match with no match before it gives the threshold. */
  lemma FirstMatchAt(t: string, p: nat)
    requires MaxWidthAt(t, p) && forall j :: 0 <= j < p ==> !StartsAt(t, j, MaxWidthKey)
    ensures MediaThreshold(t) == Some(MaxWidthValue(t, p))
  {
    var r := FindMaxWidth(t, 0);
    assert r.Some? && r.value == p;
  }

  /** The entry a media match contributes: its threshold to its content's rules, or nothing without a threshold. */
  function MediaEntry(css: string, m: MediaMatch): Option<(nat, RuleSet)>
    requires WellPlaced(css, m)
  {
    match MediaThreshold(css[m.start..m.close + 1])
    case None => None
    case Some(t) => Some((t, RulesSpec(css[m.open..m.close])))
  }

  function MediaEntries(css: string, ms: seq<MediaMatch>): (r: seq<Option<(nat, RuleSet)>>)
    requires forall i :: 0 <= i < |ms| ==> WellPlaced(css, ms[i])
    ensures |r| == |ms| && forall i :: 0 <= i < |ms| ==> r[i] == MediaEntry(css, ms[i])
  {
    seq(|ms|, i requires 0 <= i < |ms| && WellPlaced(css, ms[i]) => MediaEntry(css, ms[i]))
  }

  /** What `parse_css` returns: nothing without a style region, else the base rules and the keyed media rule sets. */
  function ParseCssSpec(html: string): (r: Option<Stylesheet>)
    ensures r.None? <==> StyleRegion(html).None?
  {
    match StyleRegion(html)
    case None => None
    case Some(css) =>
      Some(Stylesheet(RulesSpec(BaseText(css, 0)), Collect(MediaEntries(css, MediaMatches(css, 0)))))
  }

  /** `parse_css`. */
  method ParseCss(html: string) returns (r: Option<Stylesheet>)
    ensures r == ParseCssSpec(html)
  {
    var region := StyleRegion(html);
    if region.None? {
      return None;
    }
    var css := region.value;
    var blocks := MediaMatches(css, 0);
    ghost var entries := MediaEntries(css, blocks);
    var media: map<nat, RuleSet> := map[];
    for i := 0 to |blocks|
      invariant media == Collect(entries[..i])
    {
      CollectStep(entries, i, media);
      var entry := ParseMediaBlock(css, blocks[i]);
      assert entry == entries[i];
      if entry.Some? {
        media := media[entry.value.0 := entry.value.1];
      }
    }
    assert entries[..|blocks|] == entries;
    var base := ParseRules(BaseText(css, 0));
    r := Some(Stylesheet(base, media));
  }

  /** One media block of `parse_css`: its threshold and its content's rules, when it has a threshold. */
  method ParseMediaBlock(css: string, b: MediaMatch) returns (entry: Option<(nat, RuleSet)>)
    requires WellPlaced(css, b)
    ensures entry == MediaEntry(css, b)
  {
    var threshold := MediaThreshold(css[b.start..b.close + 1]);
    if threshold.None? {
      return None;
    }
    var rules := ParseRules(css[b.open..b.close]);
    return Some((threshold.value, rules));
  }

  /** Text without a `}` holds no rule. */
  lemma NoRulesWithoutCloseBrace(css: string)
    requires '}' !in css
    ensures RulesSpec(css) == map[]
  {
    NoCloseBraceNoRules(css, 0);
    assert RuleEntriesPy(RuleMatches(css, 0)) == [];
  }

  /** The content of a media match holds no `}`, so it yields no rule at all. */
  lemma MediaEntryEmpty(css: string, m: MediaMatch)
    requires WellPlaced(css, m) && MediaEntry(css, m).Some?
    ensures MediaEntry(css, m).value.1 == map[]
  {
    ContentHasNoCloseBrace(css, m);
    NoRulesWithoutCloseBrace(css[m.open..m.close]);
  }

  lemma ContentHasNoCloseBrace(css: string, m: MediaMatch)
    requires WellPlaced(css, m)
    ensures '}' !in css[m.open..m.close]
  {
    var content := css[m.open..m.close];
    forall j | 0 <= j < |content| ensures content[j] != '}' {
      assert content[j] == css[m.open + j];
    }
  }

  /**
   * Every media rule set `parse_css` produces is empty: the content of a
   * media match never holds a `}`, and the rule pattern needs one.
   */
  lemma MediaRuleSetsEmpty(html: string)
    requires ParseCssSpec(html).Some?
    ensures forall k :: k in ParseCssSpec(html).value.media ==> ParseCssSpec(html).value.media[k] == map[]
  {
    var css := StyleRegion(html).value;
    var ms := MediaMatches(css, 0);
    var entries := MediaEntries(css, ms);
    assert ParseCssSpec(html).value.media == Collect(entries);
    forall k | k in Collect(entries) ensures Collect(entries)[k] == map[] {
      CollectValueFrom(entries, k);
      var i :| 0 <= i < |entries| && entries[i] == Some((k, Collect(entries)[k]));
      MediaEntryEmpty(css, ms[i]);
    }
  }

  // ---------------------------------------------------------------------
  // parse_padding, apply_styles
  // ---------------------------------------------------------------------

  /** `parse_padding`: nothing for an empty value, else the whitespace-separated px lengths, expanded. */
  function ParsePaddingPy(value: string): (r: Option<Sides>)
    ensures r.None? <==> value == []
  {
    if value == [] then None else Some(Expand(Lengths(Words(value))))
  }

  /** Whitespace splitting gives back the tokens of lengths joined with single spaces. */
  lemma WordsOfPxTokens(ns: seq<nat>)
    ensures Words(Join(PxTokens(ns), ' ')) == PxTokens(ns)
  {
    var tokens := PxTokens(ns);
    assert forall i :: 0 <= i < |tokens| ==> tokens[i] == PxToken(ns[i]);
    WordsOfSpaced(tokens);
  }

  /**
   * A shorthand written from lengths reads back as their expansion: one
   * length on all four sides, two as vertical/horizontal, four verbatim, and
   * three lengths as no padding at all.
   */
  lemma PaddingOfRenderedPy(ns: seq<nat>)
    requires ns != []
    ensures ParsePaddingPy(Join(PxTokens(ns), ' ')) == Some(Expand(ns))
    ensures |ns| == 1 ==> ParsePaddingPy(Join(PxTokens(ns), ' ')) == Some(Sides(ns[0], ns[0], ns[0], ns[0]))
    ensures |ns| == 2 ==> ParsePaddingPy(Join(PxTokens(ns), ' ')) == Some(Sides(ns[0], ns[1], ns[0], ns[1]))
    ensures |ns| == 4 ==> ParsePaddingPy(Join(PxTokens(ns), ' ')) == Some(Sides(ns[0], ns[1], ns[2], ns[3]))
    ensures |ns| == 3 ==> ParsePaddingPy(Join(PxTokens(ns), ' ')) == Some(NoPadding)
  {
    var tokens := PxTokens(ns);
    var value := Join(tokens, ' ');
    WordsOfPxTokens(ns);
    LengthsOfPxTokens(ns);
    JoinNonEmpty(tokens);
    assert ParsePaddingPy(value) == Some(Expand(ns));
  }

  lemma {:induction false} JoinNonEmpty(pieces: seq<string>)
    requires pieces != [] && pieces[0] != []
    ensures Join(pieces, ' ') != []
  {
    if |pieces| > 1 {
      assert Join(pieces, ' ') == pieces[0] + [' '] + Join(pieces[1..], ' ');
    }
  }

  /** The property declares a value this analyzer acts on; an empty padding is ignored. */
  predicate DeclaresPy(props: Properties, p: Property) {
    PropertyName(p) in props && (p == Padding ==> props[PropertyName(p)] != [])
  }

  /** The value a declared property sets: a parsed size (possibly none), or the expanded padding. */
  function ParsedPy(props: Properties, p: Property): FieldValue
    requires DeclaresPy(props, p)
  {
    if p == Padding then Box4(ParsePaddingPy(props["padding"]).value)
    else Length(ParseSize(props[PropertyName(p)]))
  }

  /** `apply_styles`, field by field in the order the source tests them. */
  function ApplyStylesPy(style: Style, props: Properties): Style {
    Style(
      if "min-width" in props then ParseSize(props["min-width"]) else style.minWidth,
      if "min-height" in props then ParseSize(props["min-height"]) else style.minHeight,
      if "width" in props then ParseSize(props["width"]) else style.width,
      if "height" in props then ParseSize(props["height"]) else style.height,
      if "padding" in props && props["padding"] != [] then ParsePaddingPy(props["padding"]).value else style.padding)
  }

  /**
   * Every declared property overwrites its field (a size that does not
   * parse overwrites it with none, a non-empty padding always overwrites the
   * padding); every other field keeps its value.
   */
  lemma ApplyStylesFields(style: Style, props: Properties, p: Property)
    ensures Field(ApplyStylesPy(style, props), p) == if DeclaresPy(props, p) then ParsedPy(props, p) else Field(style, p)
  {
    match p
    case MinWidth =>
    case MinHeight =>
    case Width =>
    case Height =>
    case Padding =>
  }

  // ---------------------------------------------------------------------
  // get_effective_style: base rules, then the media rule sets widest first
  // ---------------------------------------------------------------------

  /** `m` is the largest element of `ks`. */
  predicate IsMaxOf(ks: set<nat>, m: nat) {
    m in ks && forall k :: k in ks ==> k <= m
  }

  lemma {:induction false} MaxExists(ks: set<nat>)
    requires ks != {}
    ensures exists m :: IsMaxOf(ks, m)
    decreases |ks|
  {
    var x :| x in ks;
    if ks == {x} {
      assert IsMaxOf(ks, x);
    } else {
      var rest := ks - {x};
      MaxExists(rest);
      var m :| IsMaxOf(rest, m);
      var top := if x <= m then m else x;
      forall k | k in ks ensures k <= top {
        if k != x { assert k in rest; }
      }
      assert IsMaxOf(ks, top);
    }
  }

  ghost function MaxKey(ks: set<nat>): (m: nat)
    requires ks != {}
    ensures IsMaxOf(ks, m)
  {
    MaxExists(ks);
    var m :| IsMaxOf(ks, m); m
  }

  /** The media rule set applies to the selector at this width. */
  predicate Overrides(media: map<nat, RuleSet>, k: nat, selector: string, width: int)
    requires k in media
  {
    width <= k && selector in media[k]
  }

  /** Applying the rule sets under `keys` in descending threshold order, each only if it applies. */
  ghost function CascadeFrom(style: Style, media: map<nat, RuleSet>, keys: set<nat>, selector: string, width: int): Style
    requires keys <= media.Keys
    decreases keys
  {
    if keys == {} then style
    else
      var m := MaxKey(keys);
      var next := if Overrides(media, m, selector, width) then ApplyStylesPy(style, media[m][selector]) else style;
      CascadeFrom(next, media, keys - {m}, selector, width)
  }

  /** The style after the base rules alone. */
  function BaseStyle(base: RuleSet, selector: string): Style {
    if selector in base then ApplyStylesPy(InitialStyle, base[selector]) else InitialStyle
  }

  /** What `get_effective_style` returns; without a parsed stylesheet every field keeps its initial value. */
  ghost function EffectiveStylePy(css: Option<Stylesheet>, selector: string, width: int): Style {
    match css
    case None => InitialStyle
    case Some(ss) => CascadeFrom(BaseStyle(ss.base, selector), ss.media, ss.media.Keys, selector, width)
  }

  /** A property no applicable rule set declares keeps the value it had before the media rule sets. */
  lemma {:induction false} UndeclaredKeeps(style: Style, media: map<nat, RuleSet>, keys: set<nat>,
                                           selector: string, width: int, p: Property)
    requires keys <= media.Keys
    requires forall k :: k in keys && Overrides(media, k, selector, width) ==> !DeclaresPy(media[k][selector], p)
    ensures Field(CascadeFrom(style, media, keys, selector, width), p) == Field(style, p)
    decreases keys
  {
    if keys != {} {
      var m := MaxKey(keys);
      var next := if Overrides(media, m, selector, width) then ApplyStylesPy(style, media[m][selector]) else style;
      UndeclaredKeeps(next, media, keys - {m}, selector, width, p);
    }
  }

  /**
   * The narrowest applicable rule set that declares a property decides it:
   * it is applied after every wider one, and no narrower one declares it.
   */
  lemma {:induction false} NarrowestWins(style: Style, media: map<nat, RuleSet>, keys: set<nat>,
                                         selector: string, width: int, p: Property, k0: nat)
    requires keys <= media.Keys
    requires k0 in keys && Overrides(media, k0, selector, width) && DeclaresPy(media[k0][selector], p)
    requires forall k :: k in keys && Overrides(media, k, selector, width) && DeclaresPy(media[k][selector], p) ==> k0 <= k
    ensures Field(CascadeFrom(style, media, keys, selector, width), p) == ParsedPy(media[k0][selector], p)
    decreases keys
  {
    var m := MaxKey(keys);
    var next := if Overrides(media, m, selector, width) then ApplyStylesPy(style, media[m][selector]) else style;
    if m == k0 {
      UndeclaredKeeps(next, media, keys - {m}, selector, width, p);
    } else {
      NarrowestWins(next, media, keys - {m}, selector, width, p, k0);
    }
  }

  /** Rule sets that are all empty leave the style as it was. */
  lemma {:induction false} EmptyRuleSetsKeep(style: Style, media: map<nat, RuleSet>, keys: set<nat>,
                                             selector: string, width: int)
    requires keys <= media.Keys
    requires forall k :: k in keys ==> media[k] == map[]
    ensures CascadeFrom(style, media, keys, selector, width) == style
    decreases keys
  {
    if keys != {} {
      var m := MaxKey(keys);
      EmptyRuleSetsKeep(style, media, keys - {m}, selector, width);
    }
  }

  /**
   * For a stylesheet `parse_css` produced, the media rule sets never change
   * anything: the effective style at every width is the base style.
   */
  lemma ParsedStyleIsBase(html: string, selector: string, width: int)
    requires ParseCssSpec(html).Some?
    ensures EffectiveStylePy(ParseCssSpec(html), selector, width) == BaseStyle(ParseCssSpec(html).value.base, selector)
  {
    var ss := ParseCssSpec(html).value;
    MediaRuleSetsEmpty(html);
    EmptyRuleSetsKeep(BaseStyle(ss.base, selector), ss.media, ss.media.Keys, selector, width);
  }

  // ---------------------------------------------------------------------
  // analyze_target
  // ---------------------------------------------------------------------

  const WarningPy := "Below Google's recommended 48x48px for mobile (but meets WCAG 44x44px)"

  /** Some dimension misses the 48px recommendation while both reach the 44px minimum. */
  predicate WarnsPy(box: Box) {
    (box.width < GoogleMinSize || box.height < GoogleMinSize) && box.width >= WcagMinSize && box.height >= WcagMinSize
  }

  /**
   * The verdict on one box at one viewport: pass exactly when both
   * dimensions reach the viewport's minimum, one issue per failing
   * dimension, then the recommendation exactly when the box warns, whatever
   * the status.
   */
  function VerdictPy(target: Target, viewport: Viewport, box: Box): (v: Verdict)
    ensures v.selector == target.selector && v.name == target.name && v.viewport == viewport.name
    ensures v.expected == viewport.minSize && v.actual == box
    ensures v.status == Pass <==> Meets(box, viewport.minSize)
    ensures Recommendation(WarningPy) in v.issues <==> WarnsPy(box)
    ensures |v.issues| == (if box.width < viewport.minSize then 1 else 0)
                          + (if box.height < viewport.minSize then 1 else 0) + (if WarnsPy(box) then 1 else 0)
    ensures v.status == Pass ==> v.issues == [] || v.issues == [Recommendation(WarningPy)]
    ensures box.width < viewport.minSize ==> v.issues[0] == WidthBelow(box.width, viewport.minSize)
    ensures box.height < viewport.minSize ==>
              v.issues[if box.width < viewport.minSize then 1 else 0] == HeightBelow(box.height, viewport.minSize)
    ensures WarnsPy(box) ==> v.issues[|v.issues| - 1] == Recommendation(WarningPy)
  {
    var failures := SizeIssues(box, viewport.minSize);
    var issues := failures + (if WarnsPy(box) then [Recommendation(WarningPy)] else []);
    assert forall i :: 0 <= i < |failures| ==> !failures[i].Recommendation?;
    Verdict(target.selector, target.name, viewport.name, viewport.minSize, box,
            if Meets(box, viewport.minSize) then Pass else Fail, issues)
  }

  /** A 46 by 46 box at a 48px viewport fails on both dimensions and is also warned about. */
  lemma FailureAlsoWarns(target: Target, name: string, width: int)
    ensures var v := VerdictPy(target, Viewport(name, width, GoogleMinSize), Box(46, 46));
            v.status == Fail && |v.issues| == 3 && v.issues[2] == Recommendation(WarningPy)
  {
  }

  /** The box of a target at a viewport. */
  ghost function BoxPy(css: Option<Stylesheet>, selector: string, width: int): Box {
    TouchTargetBox(EffectiveStylePy(css, selector, width))
  }

  /** The tests recorded for one viewport. */
  ghost function ReportPy(css: Option<Stylesheet>, viewport: Viewport, targets: seq<Target>): ViewportReport {
    ViewportReport(viewport.width, viewport.minSize,
                   seq(|targets|, j requires 0 <= j < |targets| =>
                     VerdictPy(targets[j], viewport, BoxPy(css, targets[j].selector, viewport.width))))
  }

  /** Each viewport's report under its name, in the order `analyze` records them. */
  ghost function ReportEntriesPy(css: Option<Stylesheet>, viewports: seq<Viewport>, targets: seq<Target>)
    : (r: seq<Option<(string, ViewportReport)>>)
    ensures |r| == |viewports|
    ensures forall i :: 0 <= i < |viewports| ==> r[i] == Some((viewports[i].name, ReportPy(css, viewports[i], targets)))
  {
    seq(|viewports|, i requires 0 <= i < |viewports| => Some((viewports[i].name, ReportPy(css, viewports[i], targets))))
  }

  /** Every test of a run, viewport after viewport, in the order `analyze` makes them. */
  ghost function AllTestsPy(css: Option<Stylesheet>, viewports: seq<Viewport>, targets: seq<Target>): seq<Verdict> {
    if viewports == [] then []
    else AllTestsPy(css, viewports[..|viewports| - 1], targets) + ReportPy(css, viewports[|viewports| - 1], targets).tests
  }

  /** Every viewport contributes one test per target. */
  lemma {:induction false} AllTestsLength(css: Option<Stylesheet>, viewports: seq<Viewport>, targets: seq<Target>)
    ensures |AllTestsPy(css, viewports, targets)| == |viewports| * |targets|
  {
    if viewports != [] {
      AllTestsLength(css, viewports[..|viewports| - 1], targets);
      assert |viewports| * |targets| == (|viewports| - 1) * |targets| + |targets|;
    }
  }

  /**
   * One more viewport adds its report's tests to the counters: recording them
   * on top of the counters of the first `i` viewports gives the counters of
   * the first `i + 1`.
   */
  lemma CountsStep(start: Counters, now: Counters, css: Option<Stylesheet>, viewports: seq<Viewport>, targets: seq<Target>, i: nat)
    requires i < |viewports|
    requires now == Added(start, AllTestsPy(css, viewports[..i], targets), Recommendation(WarningPy))
    ensures Added(now, ReportPy(css, viewports[i], targets).tests, Recommendation(WarningPy)) ==
              Added(start, AllTestsPy(css, viewports[..i + 1], targets), Recommendation(WarningPy))
  {
    assert viewports[..i + 1][..i] == viewports[..i];
    AddedAppend(start, AllTestsPy(css, viewports[..i], targets), ReportPy(css, viewports[i], targets).tests, Recommendation(WarningPy));
  }

  /**
   * After a run, a viewport that no later one renames holds exactly its own
   * report, and a name no viewport carries keeps its old one.
   */
  lemma RecordedReports(before: map<string, ViewportReport>, css: Option<Stylesheet>, viewports: seq<Viewport>,
                        targets: seq<Target>, k: nat, name: string)
    requires k < |viewports|
    requires forall j :: k < j < |viewports| ==> viewports[j].name != viewports[k].name
    ensures var after := before + Collect(ReportEntriesPy(css, viewports, targets));
            viewports[k].name in after && after[viewports[k].name] == ReportPy(css, viewports[k], targets)
    ensures var after := before + Collect(ReportEntriesPy(css, viewports, targets));
            name in before && (forall j :: 0 <= j < |viewports| ==> viewports[j].name != name) ==>
              name in after && after[name] == before[name]
  {
    var entries := ReportEntriesPy(css, viewports, targets);
    OverlayLastWins(before, entries, k);
    if name in before && (forall j :: 0 <= j < |viewports| ==> viewports[j].name != name) {
      OverlayKeeps(before, entries, name);
    }
  }

  /** The analyzer: its parsed stylesheet, the summary counters and the per-viewport reports. */
  class Analyzer {
    var cssRules: Option<Stylesheet>
    var totalTests: nat
    var passed: nat
    var failed: nat
    var warnings: nat
    var reports: map<string, ViewportReport>

    /** Every test counts once, as a pass or as a failure, and at most once as a warning. */
    ghost predicate Valid()
      reads this
    {
      passed + failed == totalTests && warnings <= totalTests
    }

    /** The four summary counters together. */
    ghost function Counts(): Counters
      reads this
    {
      Counters(totalTests, passed, failed, warnings)
    }

    constructor()
      ensures Valid()
      ensures cssRules == None && reports == map[]
      ensures totalTests == 0 && passed == 0 && failed == 0 && warnings == 0
    {
      cssRules := None;
      totalTests, passed, failed, warnings := 0, 0, 0, 0;
      reports := map[];
    }

    /** `get_effective_style`: the base rules, then every media rule set, widest threshold first. */
    method GetEffectiveStyle(selector: string, viewport: Viewport) returns (style: Style)
      ensures style == EffectiveStylePy(cssRules, selector, viewport.width)
    {
      style := InitialStyle;
      if cssRules.None? {
        return;
      }
      var base := cssRules.value.base;
      var media := cssRules.value.media;
      if selector in base {
        style := ApplyStylesPy(style, base[selector]);
      }
      var remaining := media.Keys;
      while remaining != {}
        invariant remaining <= media.Keys
        invariant CascadeFrom(style, media, remaining, selector, viewport.width)
                  == EffectiveStylePy(cssRules, selector, viewport.width)
        decreases remaining
      {
        MaxExists(remaining);
        var maxWidth :| IsMaxOf(remaining, maxWidth);
        assert maxWidth == MaxKey(remaining);
        if viewport.width <= maxWidth && selector in media[maxWidth] {
          style := ApplyStylesPy(style, media[maxWidth][selector]);
        }
        remaining := remaining - {maxWidth};
      }
    }

    /** `analyze_target`: the verdict on one target, counted in the summary. */
    method AnalyzeTarget(target: Target, viewport: Viewport) returns (test: Verdict)
      requires Valid()
      modifies this
      ensures Valid()
      ensures test == VerdictPy(target, viewport, BoxPy(cssRules, target.selector, viewport.width))
      ensures totalTests == old(totalTests) + 1
      ensures test.status == Pass ==> passed == old(passed) + 1 && failed == old(failed)
      ensures test.status == Fail ==> failed == old(failed) + 1 && passed == old(passed)
      ensures warnings == old(warnings) + (if WarnsPy(test.actual) then 1 else 0)
      ensures Counts() == Added(old(Counts()), [test], Recommendation(WarningPy))
      ensures cssRules == old(cssRules) && reports == old(reports)
    {
      var style := GetEffectiveStyle(target.selector, viewport);
      test := Judge(target, viewport, TouchTargetBox(style));
    }

    /** The checks of `analyze_target` once the box is known: status, issues and counters. */
    method Judge(target: Target, viewport: Viewport, box: Box) returns (test: Verdict)
      requires Valid()
      modifies this
      ensures Valid()
      ensures test == VerdictPy(target, viewport, box)
      ensures totalTests == old(totalTests) + 1
      ensures test.status == Pass ==> passed == old(passed) + 1 && failed == old(failed)
      ensures test.status == Fail ==> failed == old(failed) + 1 && passed == old(passed)
      ensures warnings == old(warnings) + (if WarnsPy(box) then 1 else 0)
      ensures Counts() == Added(old(Counts()), [test], Recommendation(WarningPy))
      ensures cssRules == old(cssRules) && reports == old(reports)
    {
      var status: Status;
      if box.width >= viewport.minSize && box.height >= viewport.minSize {
        status := Pass;
        passed := passed + 1;
      } else {
        status := Fail;
        failed := failed + 1;
      }
      var issues := FailureIssues(box, viewport.minSize);
      if box.width < GoogleMinSize || box.height < GoogleMinSize {
        if box.width >= WcagMinSize && box.height >= WcagMinSize {
          issues := issues + [Recommendation(WarningPy)];
          warnings := warnings + 1;
        }
      }
      totalTests := totalTests + 1;
      test := Verdict(target.selector, target.name, viewport.name, viewport.minSize, box, status, issues);
      AddedOne(old(Counts()), test, Recommendation(WarningPy));
    }

    /**
     * One pass of the viewport loop of `analyze`: the viewport's report is
     * created empty, then every target's verdict is appended to it.
     */
    method AnalyzeViewport(viewport: Viewport, targets: seq<Target>)
      requires Valid()
      modifies this
      ensures Valid()
      ensures cssRules == old(cssRules)
      ensures totalTests == old(totalTests) + |targets|
      ensures reports == old(reports)[viewport.name := ReportPy(cssRules, viewport, targets)]
      ensures Counts() == Added(old(Counts()), ReportPy(cssRules, viewport, targets).tests, Recommendation(WarningPy))
    {
      ghost var expected := ReportPy(cssRules, viewport, targets).tests;
      var tests: seq<Verdict> := [];
      reports := reports[viewport.name := ViewportReport(viewport.width, viewport.minSize, tests)];
      for j := 0 to |targets|
        invariant Valid()
        invariant cssRules == old(cssRules)
        invariant reports == old(reports)[viewport.name := ViewportReport(viewport.width, viewport.minSize, tests)]
        invariant tests == expected[..j]
        invariant Counts() == Added(old(Counts()), tests, Recommendation(WarningPy))
      {
        var result := AnalyzeTarget(targets[j], viewport);
        PrefixSnoc(expected, j);
        AddedAppend(old(Counts()), tests, [result], Recommendation(WarningPy));
        StoreTwice(old(reports), viewport.name, ViewportReport(viewport.width, viewport.minSize, tests),
                   ViewportReport(viewport.width, viewport.minSize, tests + [result]));
        tests := tests + [result];
        reports := reports[viewport.name := ViewportReport(viewport.width, viewport.minSize, tests)];
      }
      assert expected[..|targets|] == expected;
    }

    /**
     * `analyze` on the text of a page: parse its stylesheet, then check every
     * target at every viewport, recording the tests per viewport name.
     */
    method Analyze(html: string, viewports: seq<Viewport>, targets: seq<Target>)
      requires Valid()
      modifies this
      ensures Valid()
      ensures cssRules == ParseCssSpec(html)
      ensures totalTests == old(totalTests) + |viewports| * |targets|
      ensures reports == old(reports) + Collect(ReportEntriesPy(cssRules, viewports, targets))
      ensures passed == old(passed) + CountStatus(AllTestsPy(cssRules, viewports, targets), Pass)
      ensures failed == old(failed) + CountStatus(AllTestsPy(cssRules, viewports, targets), Fail)
      ensures warnings == old(warnings) + CountIssue(AllTestsPy(cssRules, viewports, targets), Recommendation(WarningPy))
    {
      cssRules := ParseCss(html);
      AnalyzeViewports(viewports, targets);
    }

    /** The viewport loop of `analyze`, over the stylesheet already parsed. */
    method AnalyzeViewports(viewports: seq<Viewport>, targets: seq<Target>)
      requires Valid()
      modifies this
      ensures Valid()
      ensures cssRules == old(cssRules)
      ensures totalTests == old(totalTests) + |viewports| * |targets|
      ensures reports == old(reports) + Collect(ReportEntriesPy(cssRules, viewports, targets))
      ensures Counts() == Added(old(Counts()), AllTestsPy(cssRules, viewports, targets), Recommendation(WarningPy))
    {
      ghost var entries := ReportEntriesPy(cssRules, viewports, targets);
      for i := 0 to |viewports|
        invariant Valid()
        invariant cssRules == old(cssRules)
        invariant reports == old(reports) + Collect(entries[..i])
        invariant Counts() == Added(old(Counts()), AllTestsPy(cssRules, viewports[..i], targets), Recommendation(WarningPy))
      {
        OverlayStep(old(reports), entries, i);
        ghost var before := Counts();
        AnalyzeViewport(viewports[i], targets);
        CountsStep(old(Counts()), before, cssRules, viewports, targets, i);
      }
      assert entries[..|viewports|] == entries;
      assert viewports[..|viewports|] == viewports;
      AllTestsLength(cssRules, viewports, targets);
    }
  }
}
