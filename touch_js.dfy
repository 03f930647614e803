/**
 * The JavaScript touch-target analyzer of test-touch-targets.js. It shares
 * the box computation and the size checks with the Python analyzer, but
 * parses differently: every rule block (media blocks included) is keyed by
 * its trimmed selector text, a declaration keeps only the text between its
 * first and second colon, and padding is split on single spaces. Its
 * `getEffectiveStyle` calls a `parseMediaQuery` helper the class never
 * defines, so resolving a style at a viewport no wider than 768px (or
 * 480px) throws as soon as some rule key mentions the matching media
 * header; `analyze` then stops.
 */
module TouchJs {
  import opened Wrappers
  import opened Text
  import opened CssScan
  import opened TouchTargets

  /** A declaration block: property name to value text. */
  type Properties = map<string, string>

  /** Trimmed selector text (or media header) to its declaration block. */
  type RuleSet = map<string, Properties>

  // ---------------------------------------------------------------------
  // parseCSS
  // ---------------------------------------------------------------------

  /**
   * One `;`-separated piece: split at every colon, the first two pieces
   * trimmed; kept only when both are non-empty.
   */
  function DeclarationJs(decl: string): (r: Option<(string, string)>)
    ensures r.Some? ==> r.value.0 != [] && r.value.1 != []
  {
    var parts := Split(decl, ':');
    if |parts| < 2 then None
    else
      var prop := Trim(parts[0]);
      var value := Trim(parts[1]);
      if prop != [] && value != [] then Some((prop, value)) else None
  }

  /** A piece without a colon declares nothing; with one colon, its trimmed halves when both are non-empty. */
  lemma DeclarationJsOneColon(a: string, b: string)
    requires ':' !in a && ':' !in b
    ensures DeclarationJs(a) == None
    ensures DeclarationJs(a + ":" + b) == if Trim(a) != [] && Trim(b) != [] then Some((Trim(a), Trim(b))) else None
  {
    SplitJoin([a], ':');
    SplitJoin([a, b], ':');
    assert Join([a, b], ':') == a + ":" + b;
  }

  /**
   * Everything from the second colon on is lost: `background: url(http://x)`
   * declares `url(http` (Python keeps the whole text after the first colon).
   */
  lemma DeclarationJsDropsAfterSecondColon(a: string, b: string, c: string)
    requires ':' !in a && ':' !in b
    ensures DeclarationJs(a + ":" + b + ":" + c) == if Trim(a) != [] && Trim(b) != [] then Some((Trim(a), Trim(b))) else None
  {
    var rest := Split(c, ':');
    var pieces := [a, b] + rest;
    JoinSplit(c, ':');
    assert Join(pieces, ':') == a + [':'] + Join([b] + rest, ':') by {
      assert pieces[1..] == [b] + rest;
    }
    assert Join([b] + rest, ':') == b + [':'] + Join(rest, ':') by {
      assert ([b] + rest)[1..] == rest;
    }
    assert Join(pieces, ':') == a + ":" + b + ":" + c;
    SplitJoin(pieces, ':');
  }

  function DeclarationEntriesJs(pieces: seq<string>): (r: seq<Option<(string, string)>>)
    ensures |r| == |pieces| && forall i :: 0 <= i < |pieces| ==> r[i] == DeclarationJs(pieces[i])
  {
    seq(|pieces|, i requires 0 <= i < |pieces| => DeclarationJs(pieces[i]))
  }

  /** The property map of one block's declaration text. */
  function DeclarationsJs(declarations: string): Properties {
    Collect(DeclarationEntriesJs(Split(declarations, ';')))
  }

  /** Only non-empty names with non-empty values are ever stored. */
  lemma DeclarationsNonEmpty(declarations: string, name: string)
    requires name in DeclarationsJs(declarations)
    ensures name != [] && DeclarationsJs(declarations)[name] != []
  {
    var pieces := Split(declarations, ';');
    var entries := DeclarationEntriesJs(pieces);
    CollectValueFrom(entries, name);
    var i :| 0 <= i < |entries| && entries[i] == Some((name, Collect(entries)[name]));
    assert DeclarationJs(pieces[i]).Some?;
  }

  function RuleEntriesJs(ms: seq<RuleMatch>): (r: seq<Option<(string, Properties)>>)
    ensures |r| == |ms|
    ensures forall i :: 0 <= i < |ms| ==> r[i] == Some((Trim(ms[i].selector), DeclarationsJs(Trim(ms[i].body))))
  {
    seq(|ms|, i requires 0 <= i < |ms| => Some((Trim(ms[i].selector), DeclarationsJs(Trim(ms[i].body)))))
  }

  /** The rules of a style text: every rule match, in order, stored under its trimmed selector text. */
  function RulesJs(css: string): RuleSet {
    Collect(RuleEntriesJs(RuleMatches(css, 0)))
  }

  /** What `parseCSS` returns for a page: no rules without a style region. */
  function CssRulesJs(html: string): RuleSet {
    match StyleRegion(html)
    case None => map[]
    case Some(css) => RulesJs(css)
  }

  /** The `forEach` over one block's declarations. */
  method ParseDeclarations(declarations: string) returns (properties: Properties)
    ensures properties == DeclarationsJs(declarations)
  {
    var pieces := Split(declarations, ';');
    ghost var entries := DeclarationEntriesJs(pieces);
    properties := map[];
    for i := 0 to |pieces|
      invariant properties == Collect(entries[..i])
    {
      var declaration := DeclarationJs(pieces[i]);
      assert entries[i] == declaration;
      CollectStep(entries, i, properties);
      if declaration.Some? {
        properties := properties[declaration.value.0 := declaration.value.1];
      }
    }
    assert entries[..|pieces|] == entries;
  }

  /** One step of the rule loop: the trimmed selector text and the parsed trimmed block. */
  method ParseRule(m: RuleMatch) returns (selector: string, properties: Properties)
    ensures selector == Trim(m.selector) && properties == DeclarationsJs(Trim(m.body))
  {
    selector := Trim(m.selector);
    properties := ParseDeclarations(Trim(m.body));
  }

  /** `parseCSS`: the rule loop over the first style region. */
  method ParseCss(html: string) returns (rules: RuleSet)
    ensures rules == CssRulesJs(html)
  {
    var region := StyleRegion(html);
    if region.None? {
      return map[];
    }
    var css := region.value;
    var matches := RuleMatches(css, 0);
    ghost var entries := RuleEntriesJs(matches);
    rules := map[];
    var i := 0;
    while i < |matches|
      invariant i <= |matches|
      invariant rules == Collect(entries[..i])
    {
      CollectStep(entries, i, rules);
      var selector, properties := ParseRule(matches[i]);
      assert entries[i] == Some((selector, properties));
      rules := rules[selector := properties];
      i := i + 1;
    }
    assert entries[..|matches|] == entries;
  }

  // ---------------------------------------------------------------------
  // parsePadding, applyStyles
  // ---------------------------------------------------------------------

  /** `parsePadding`: nothing for an empty value, else the single-space-separated px lengths, expanded. */
  function ParsePaddingJs(value: string): (r: Option<Sides>)
    ensures r.None? <==> value == []
  {
    if value == [] then None else Some(Expand(Lengths(Split(value, ' '))))
  }

  /**
   * A shorthand written from lengths with single spaces reads back as their
   * expansion: one length on all sides, two as vertical/horizontal, four
   * verbatim, three as no padding.
   */
  lemma PaddingOfRenderedJs(ns: seq<nat>)
    requires ns != []
    ensures ParsePaddingJs(Join(PxTokens(ns), ' ')) == Some(Expand(ns))
    ensures |ns| == 1 ==> ParsePaddingJs(Join(PxTokens(ns), ' ')) == Some(Sides(ns[0], ns[0], ns[0], ns[0]))
    ensures |ns| == 2 ==> ParsePaddingJs(Join(PxTokens(ns), ' ')) == Some(Sides(ns[0], ns[1], ns[0], ns[1]))
    ensures |ns| == 4 ==> ParsePaddingJs(Join(PxTokens(ns), ' ')) == Some(Sides(ns[0], ns[1], ns[2], ns[3]))
    ensures |ns| == 3 ==> ParsePaddingJs(Join(PxTokens(ns), ' ')) == Some(NoPadding)
  {
    var tokens := PxTokens(ns);
    var value := Join(tokens, ' ');
    assert forall i :: 0 <= i < |tokens| ==> ' ' !in tokens[i] by {
      forall i | 0 <= i < |tokens| ensures ' ' !in tokens[i] {
        assert tokens[i] == PxToken(ns[i]);
      }
    }
    SplitJoin(tokens, ' ');
    LengthsOfPxTokens(ns);
    assert value != [] by {
      if |tokens| > 1 {
        assert value == tokens[0] + [' '] + Join(tokens[1..], ' ');
      }
    }
  }

  /** A property this analyzer acts on: present with a non-empty (truthy) value. */
  predicate DeclaresJs(props: Properties, p: Property) {
    PropertyName(p) in props && props[PropertyName(p)] != []
  }

  /** The value a declared property sets: a parsed size (possibly none), or the expanded padding. */
  function ParsedJs(props: Properties, p: Property): FieldValue
    requires DeclaresJs(props, p)
  {
    if p == Padding then Box4(ParsePaddingJs(props["padding"]).value)
    else Length(ParseSize(props[PropertyName(p)]))
  }

  function SizeOf(props: Properties, name: string, old_: Option<nat>): Option<nat> {
    if name in props && props[name] != [] then ParseSize(props[name]) else old_
  }

  /** `applyStyles`. */
  function ApplyStylesJs(style: Style, props: Properties): Style {
    Style(
      SizeOf(props, "min-width", style.minWidth),
      SizeOf(props, "min-height", style.minHeight),
      SizeOf(props, "width", style.width),
      SizeOf(props, "height", style.height),
      if "padding" in props && props["padding"] != [] then ParsePaddingJs(props["padding"]).value else style.padding)
  }

  /**
   * Every declared property overwrites its field (a size that does not
   * parse overwrites it with none); a missing or empty one leaves it alone.
   */
  lemma ApplyStylesFields(style: Style, props: Properties, p: Property)
    ensures Field(ApplyStylesJs(style, props), p) == if DeclaresJs(props, p) then ParsedJs(props, p) else Field(style, p)
  {
    match p
    case MinWidth =>
    case MinHeight =>
    case Width =>
    case Height =>
    case Padding =>
  }

  // ---------------------------------------------------------------------
  // getEffectiveStyle
  // ---------------------------------------------------------------------

  const Header768 := "@media (max-width: 768px)"
  const Header480 := "@media (max-width: 480px)"

  /** The `TypeError` the missing `parseMediaQuery` raises. */
  const ParseMediaQueryMissing := "this.parseMediaQuery is not a function"

  /** Some rule key contains the media header. */
  predicate MentionsMedia(rules: RuleSet, header: string) {
    exists k :: k in rules && Contains(k, header)
  }

  /** Resolving any style at this width reaches the missing helper. */
  predicate RaisesJs(rules: RuleSet, width: int) {
    || (width <= 768 && MentionsMedia(rules, Header768))
    || (width <= 480 && MentionsMedia(rules, Header480))
  }

  /** The base rules of the selector applied to the initial style. */
  function BaseStyleJs(rules: RuleSet, selector: string): Style {
    if selector in rules then ApplyStylesJs(InitialStyle, rules[selector]) else InitialStyle
  }

  /** The style `getEffectiveStyle` returns, or the error it throws. */
  function EffectiveStyleJs(rules: RuleSet, selector: string, width: int): Result<Style, string> {
    if RaisesJs(rules, width) then Err(ParseMediaQueryMissing) else Ok(BaseStyleJs(rules, selector))
  }

  /** A viewport wider than 768px never reaches the media branches, so it sees the base style. */
  lemma WideViewportSeesBase(rules: RuleSet, selector: string, width: int)
    requires width > 768
    ensures EffectiveStyleJs(rules, selector, width) == Ok(BaseStyleJs(rules, selector))
  {
  }

  /**
   * A stylesheet that opens with a non-empty `max-width: 768px` media block
   * makes every viewport up to 768px wide throw, whatever follows; the same
   * holds for a 480px block and viewports up to 480px.
   */
  lemma MediaBlockRaises(header: string, body: string, rest: string, width: int)
    requires (header == Header768 && width <= 768) || (header == Header480 && width <= 480)
    requires body != [] && '}' !in body
    ensures RaisesJs(RulesJs(header + " {" + body + "}" + rest), width)
  {
    var head := header + " ";
    var css := header + " {" + body + "}" + rest;
    assert css == head + "{" + body + "}" + rest;
    HeaderHasNoBrace(header);
    FirstBlockKey(head, body, rest);
    HeaderSurvivesTrim(header);
    assert Trim(head) in RulesJs(css) && Contains(Trim(head), header);
  }

  lemma HeaderHasNoBrace(header: string)
    requires header == Header768 || header == Header480
    ensures '{' !in header + " "
  {
    var head := header + " ";
    forall i | 0 <= i < |head| ensures head[i] != '{' {
      assert head[i] == if i < |header| then header[i] else ' ';
    }
  }

  lemma HeaderSurvivesTrim(header: string)
    requires header == Header768 || header == Header480
    ensures Contains(Trim(header + " "), header)
  {
    var head := header + " ";
    assert head[0..|header|] == header;
    TrimKeepsOccurrence(head, 0, header);
  }

  /** The trimmed head of the first block of a style text is one of its rule keys. */
  lemma FirstBlockKey(head: string, body: string, rest: string)
    requires head != [] && '{' !in head
    requires body != [] && '}' !in body
    ensures Trim(head) in RulesJs(head + "{" + body + "}" + rest)
  {
    var css := head + "{" + body + "}" + rest;
    FirstRuleMatch(head, body, rest);
    var entries := RuleEntriesJs(RuleMatches(css, 0));
    assert entries[0] == Some((Trim(head), DeclarationsJs(Trim(body))));
    CollectKeys(entries);
  }

  /** `rules.includes(header)` over every rule key, in whatever order the keys come. */
  method ScanKeys(rules: RuleSet, header: string) returns (found: bool)
    ensures found <==> MentionsMedia(rules, header)
  {
    var keys := rules.Keys;
    while keys != {}
      invariant keys <= rules.Keys
      invariant forall k :: k in rules && k !in keys ==> !Contains(k, header)
      decreases keys
    {
      var k :| k in keys;
      if Contains(k, header) {
        return true;
      }
      keys := keys - {k};
    }
    return false;
  }

  // ---------------------------------------------------------------------
  // analyzeTarget
  // ---------------------------------------------------------------------

  const WarningJs := "Below Google's recommended 48x48px for mobile"

  /** Some dimension misses the 48px recommendation. */
  predicate WarnsJs(box: Box) {
    box.width < GoogleMinSize || box.height < GoogleMinSize
  }

  /**
   * The verdict on one box at one viewport: pass exactly when both
   * dimensions reach the viewport's minimum, one issue per failing
   * dimension, then the recommendation exactly when some dimension is below
   * 48px.
   */
  function VerdictJs(target: Target, viewport: Viewport, box: Box): (v: Verdict)
    ensures v.selector == target.selector && v.name == target.name && v.viewport == viewport.name
    ensures v.expected == viewport.minSize && v.actual == box
    ensures v.status == Pass <==> Meets(box, viewport.minSize)
    ensures Recommendation(WarningJs) in v.issues <==> WarnsJs(box)
    ensures |v.issues| == (if box.width < viewport.minSize then 1 else 0)
                          + (if box.height < viewport.minSize then 1 else 0) + (if WarnsJs(box) then 1 else 0)
    ensures box.width < viewport.minSize ==> v.issues[0] == WidthBelow(box.width, viewport.minSize)
    ensures box.height < viewport.minSize ==>
              v.issues[if box.width < viewport.minSize then 1 else 0] == HeightBelow(box.height, viewport.minSize)
    ensures WarnsJs(box) ==> v.issues[|v.issues| - 1] == Recommendation(WarningJs)
  {
    var failures := SizeIssues(box, viewport.minSize);
    var issues := failures + (if WarnsJs(box) then [Recommendation(WarningJs)] else []);
    assert forall i :: 0 <= i < |failures| ==> !failures[i].Recommendation?;
    Verdict(target.selector, target.name, viewport.name, viewport.minSize, box,
            if Meets(box, viewport.minSize) then Pass else Fail, issues)
  }

  /** At a 48px viewport the recommendation accompanies exactly the failures. */
  lemma WarnsExactlyOnFailureAt48(target: Target, viewport: Viewport, box: Box)
    requires viewport.minSize == GoogleMinSize
    ensures Recommendation(WarningJs) in VerdictJs(target, viewport, box).issues
            <==> VerdictJs(target, viewport, box).status == Fail
  {
  }

  /** At a 44px viewport a 46 by 46 box passes and is still warned about. */
  lemma PassWithWarningAt44(target: Target, name: string, width: int)
    ensures var v := VerdictJs(target, Viewport(name, width, WcagMinSize), Box(46, 46));
            v.status == Pass && v.issues == [Recommendation(WarningJs)]
  {
  }

  /** The box of a target at a viewport that does not throw. */
  function BoxJs(rules: RuleSet, selector: string): Box {
    TouchTargetBox(BaseStyleJs(rules, selector))
  }

  /** The tests recorded for a viewport that does not throw. */
  function ReportJs(rules: RuleSet, viewport: Viewport, targets: seq<Target>): ViewportReport {
    ViewportReport(viewport.width, viewport.minSize,
                   seq(|targets|, j requires 0 <= j < |targets| =>
                     VerdictJs(targets[j], viewport, BoxJs(rules, targets[j].selector))))
  }

  /**
   * How many viewports `analyze` gets through, counting from `from`: all of
   * them when there are no targets, else those before the first one that
   * throws.
   */
  function Reached(rules: RuleSet, viewports: seq<Viewport>, targets: seq<Target>, from: nat := 0): (r: nat)
    requires from <= |viewports|
    ensures from <= r <= |viewports|
    ensures forall i :: from <= i < r ==> targets == [] || !RaisesJs(rules, viewports[i].width)
    ensures r < |viewports| ==> targets != [] && RaisesJs(rules, viewports[r].width)
    decreases |viewports| - from
  {
    if from == |viewports| then from
    else if targets != [] && RaisesJs(rules, viewports[from].width) then from
    else Reached(rules, viewports, targets, from + 1)
  }

  /** Each viewport's report under its name, in the order `analyze` records them. */
  function ReportEntriesJs(rules: RuleSet, viewports: seq<Viewport>, targets: seq<Target>): (r: seq<Option<(string, ViewportReport)>>)
    ensures |r| == |viewports|
    ensures forall i :: 0 <= i < |viewports| ==> r[i] == Some((viewports[i].name, ReportJs(rules, viewports[i], targets)))
  {
    seq(|viewports|, i requires 0 <= i < |viewports| => Some((viewports[i].name, ReportJs(rules, viewports[i], targets))))
  }

  /** Every test of the viewports, viewport after viewport, in the order `analyze` makes them. */
  function AllTestsJs(rules: RuleSet, viewports: seq<Viewport>, targets: seq<Target>): seq<Verdict> {
    if viewports == [] then []
    else AllTestsJs(rules, viewports[..|viewports| - 1], targets) + ReportJs(rules, viewports[|viewports| - 1], targets).tests
  }

  /** Every viewport contributes one test per target. */
  lemma {:induction false} AllTestsLength(rules: RuleSet, viewports: seq<Viewport>, targets: seq<Target>)
    ensures |AllTestsJs(rules, viewports, targets)| == |viewports| * |targets|
  {
    if viewports != [] {
      AllTestsLength(rules, viewports[..|viewports| - 1], targets);
      assert |viewports| * |targets| == (|viewports| - 1) * |targets| + |targets|;
    }
  }

  /**
   * One more viewport adds its report's tests to the counters: recording them
   * on top of the counters of the first `i` viewports gives the counters of
   * the first `i + 1`.
   */
  lemma CountsStep(start: Counters, now: Counters, rules: RuleSet, viewports: seq<Viewport>, targets: seq<Target>, i: nat)
    requires i < |viewports|
    requires now == Added(start, AllTestsJs(rules, viewports[..i], targets), Recommendation(WarningJs))
    ensures Added(now, ReportJs(rules, viewports[i], targets).tests, Recommendation(WarningJs)) ==
              Added(start, AllTestsJs(rules, viewports[..i + 1], targets), Recommendation(WarningJs))
  {
    assert viewports[..i + 1][..i] == viewports[..i];
    AddedAppend(start, AllTestsJs(rules, viewports[..i], targets), ReportJs(rules, viewports[i], targets).tests, Recommendation(WarningJs));
  }

  /**
   * After a run without a throw, a viewport that no later one renames holds
   * exactly its own report, and a name no viewport carries keeps its old one.
   */
  lemma RecordedReports(before: map<string, ViewportReport>, rules: RuleSet, viewports: seq<Viewport>,
                        targets: seq<Target>, k: nat, name: string)
    requires k < |viewports|
    requires forall j :: k < j < |viewports| ==> viewports[j].name != viewports[k].name
    ensures var after := before + Collect(ReportEntriesJs(rules, viewports, targets));
            viewports[k].name in after && after[viewports[k].name] == ReportJs(rules, viewports[k], targets)
    ensures var after := before + Collect(ReportEntriesJs(rules, viewports, targets));
            name in before && (forall j :: 0 <= j < |viewports| ==> viewports[j].name != name) ==>
              name in after && after[name] == before[name]
  {
    var entries := ReportEntriesJs(rules, viewports, targets);
    OverlayLastWins(before, entries, k);
    if name in before && (forall j :: 0 <= j < |viewports| ==> viewports[j].name != name) {
      OverlayKeeps(before, entries, name);
    }
  }

  /** The analyzer: the summary counters and the per-viewport reports. */
  class Analyzer {
    var totalTests: nat
    var passed: nat
    var failed: nat
    var warnings: nat
    var reports: map<string, ViewportReport>

    /** Every test counts once, as a pass or as a failure, and at most once as a warning. */
    ghost predicate Valid()
      reads this
    {
      passed + failed == totalTests && warnings <= totalTests
    }

    /** The four summary counters together. */
    ghost function Counts(): Counters
      reads this
    {
      Counters(totalTests, passed, failed, warnings)
    }

    constructor()
      ensures Valid()
      ensures reports == map[]
      ensures totalTests == 0 && passed == 0 && failed == 0 && warnings == 0
    {
      totalTests, passed, failed, warnings := 0, 0, 0, 0;
      reports := map[];
    }

    /** `getEffectiveStyle`: the base rules, then the two media scans, which throw on a mentioned header. */
    method GetEffectiveStyle(selector: string, rules: RuleSet, viewport: Viewport) returns (r: Result<Style, string>)
      ensures r == EffectiveStyleJs(rules, selector, viewport.width)
    {
      var style := InitialStyle;
      if selector in rules {
        style := ApplyStylesJs(style, rules[selector]);
      }
      if viewport.width <= 768 {
        var mentioned := ScanKeys(rules, Header768);
        if mentioned {
          return Err(ParseMediaQueryMissing);
        }
      }
      if viewport.width <= 480 {
        var mentioned := ScanKeys(rules, Header480);
        if mentioned {
          return Err(ParseMediaQueryMissing);
        }
      }
      return Ok(style);
    }

    /** `analyzeTarget`: the verdict on one target, counted in the summary; a throw counts nothing. */
    method AnalyzeTarget(target: Target, rules: RuleSet, viewport: Viewport) returns (r: Result<Verdict, string>)
      requires Valid()
      modifies this
      ensures Valid()
      ensures r.Err? <==> RaisesJs(rules, viewport.width)
      ensures r.Err? ==> r.error == ParseMediaQueryMissing
      ensures r.Ok? ==> r.value == VerdictJs(target, viewport, BoxJs(rules, target.selector))
      ensures r.Err? ==> totalTests == old(totalTests) && passed == old(passed)
                         && failed == old(failed) && warnings == old(warnings)
      ensures r.Ok? ==> totalTests == old(totalTests) + 1
      ensures r.Ok? && r.value.status == Pass ==> passed == old(passed) + 1 && failed == old(failed)
      ensures r.Ok? && r.value.status == Fail ==> failed == old(failed) + 1 && passed == old(passed)
      ensures r.Ok? ==> warnings == old(warnings) + (if WarnsJs(r.value.actual) then 1 else 0)
      ensures r.Ok? ==> Counts() == Added(old(Counts()), [r.value], Recommendation(WarningJs))
      ensures reports == old(reports)
    {
      var style := GetEffectiveStyle(target.selector, rules, viewport);
      if style.Err? {
        return Err(style.error);
      }
      var test := Judge(target, viewport, TouchTargetBox(style.value));
      return Ok(test);
    }

    /** The checks of `analyzeTarget` once the box is known: status, issues and counters. */
    method Judge(target: Target, viewport: Viewport, box: Box) returns (test: Verdict)
      requires Valid()
      modifies this
      ensures Valid()
      ensures test == VerdictJs(target, viewport, box)
      ensures totalTests == old(totalTests) + 1
      ensures test.status == Pass ==> passed == old(passed) + 1 && failed == old(failed)
      ensures test.status == Fail ==> failed == old(failed) + 1 && passed == old(passed)
      ensures warnings == old(warnings) + (if WarnsJs(box) then 1 else 0)
      ensures Counts() == Added(old(Counts()), [test], Recommendation(WarningJs))
      ensures reports == old(reports)
    {
      var status: Status;
      if box.width >= viewport.minSize && box.height >= viewport.minSize {
        status := Pass;
        passed := passed + 1;
      } else {
        status := Fail;
        failed := failed + 1;
      }
      var issues := FailureIssues(box, viewport.minSize);
      if box.width < GoogleMinSize || box.height < GoogleMinSize {
        issues := issues + [Recommendation(WarningJs)];
        warnings := warnings + 1;
      }
      totalTests := totalTests + 1;
      test := Verdict(target.selector, target.name, viewport.name, viewport.minSize, box, status, issues);
      AddedOne(old(Counts()), test, Recommendation(WarningJs));
    }

    /**
     * One pass of the viewport loop of `analyze`: the viewport's report is
     * created empty, then every target's verdict is appended to it; the first
     * throw leaves it as it is and stops.
     */
    method AnalyzeViewport(rules: RuleSet, viewport: Viewport, targets: seq<Target>) returns (raised: Option<string>)
      requires Valid()
      modifies this
      ensures Valid()
      ensures raised.Some? <==> targets != [] && RaisesJs(rules, viewport.width)
      ensures raised.Some? ==> raised.value == ParseMediaQueryMissing && totalTests == old(totalTests)
                               && reports == old(reports)[viewport.name := ViewportReport(viewport.width, viewport.minSize, [])]
      ensures raised.None? ==> totalTests == old(totalTests) + |targets|
                               && reports == old(reports)[viewport.name := ReportJs(rules, viewport, targets)]
      ensures raised.Some? ==> Counts() == old(Counts())
      ensures raised.None? ==> Counts() == Added(old(Counts()), ReportJs(rules, viewport, targets).tests, Recommendation(WarningJs))
    {
      ghost var expected := ReportJs(rules, viewport, targets).tests;
      ghost var start := Counts();
      var tests: seq<Verdict> := [];
      reports := reports[viewport.name := ViewportReport(viewport.width, viewport.minSize, tests)];
      for j := 0 to |targets|
        invariant Valid()
        invariant j > 0 ==> !RaisesJs(rules, viewport.width)
        invariant reports == old(reports)[viewport.name := ViewportReport(viewport.width, viewport.minSize, tests)]
        invariant tests == expected[..j]
        invariant Counts() == Added(start, tests, Recommendation(WarningJs))
      {
        var result := AnalyzeTarget(targets[j], rules, viewport);
        if result.Err? {
          assert j == 0 && tests == [];
          return Some(result.error);
        }
        PrefixSnoc(expected, j);
        AddedAppend(start, tests, [result.value], Recommendation(WarningJs));
        StoreTwice(old(reports), viewport.name, ViewportReport(viewport.width, viewport.minSize, tests),
                   ViewportReport(viewport.width, viewport.minSize, tests + [result.value]));
        tests := tests + [result.value];
        reports := reports[viewport.name := ViewportReport(viewport.width, viewport.minSize, tests)];
      }
      assert expected[..|targets|] == expected;
      return None;
    }

    /**
     * `analyze` on the text of a page: parse its rules, then check every
     * target at every viewport, creating each viewport's report before its
     * targets; the first throw ends the run with that error.
     */
    method Analyze(html: string, viewports: seq<Viewport>, targets: seq<Target>) returns (error: Option<string>)
      requires Valid()
      modifies this
      ensures Valid()
      ensures error.Some? <==> Reached(CssRulesJs(html), viewports, targets) < |viewports|
      ensures error.Some? ==> error.value == ParseMediaQueryMissing
      ensures totalTests == old(totalTests) + Reached(CssRulesJs(html), viewports, targets) * |targets|
      ensures error.None? ==> reports == old(reports) + Collect(ReportEntriesJs(CssRulesJs(html), viewports, targets))
      ensures var n := Reached(CssRulesJs(html), viewports, targets);
              error.Some? ==> reports == (old(reports) + Collect(ReportEntriesJs(CssRulesJs(html), viewports, targets)[..n]))
                                           [viewports[n].name := ViewportReport(viewports[n].width, viewports[n].minSize, [])]
      ensures var n := Reached(CssRulesJs(html), viewports, targets);
              passed == old(passed) + CountStatus(AllTestsJs(CssRulesJs(html), viewports[..n], targets), Pass)
      ensures var n := Reached(CssRulesJs(html), viewports, targets);
              failed == old(failed) + CountStatus(AllTestsJs(CssRulesJs(html), viewports[..n], targets), Fail)
      ensures var n := Reached(CssRulesJs(html), viewports, targets);
              warnings == old(warnings) + CountIssue(AllTestsJs(CssRulesJs(html), viewports[..n], targets), Recommendation(WarningJs))
    {
      var rules := ParseCss(html);
      error := AnalyzeViewports(rules, viewports, targets);
    }

    /** The viewport loop of `analyze`, over the rules already parsed. */
    method AnalyzeViewports(rules: RuleSet, viewports: seq<Viewport>, targets: seq<Target>) returns (error: Option<string>)
      requires Valid()
      modifies this
      ensures Valid()
      ensures error.Some? <==> Reached(rules, viewports, targets) < |viewports|
      ensures error.Some? ==> error.value == ParseMediaQueryMissing
      ensures totalTests == old(totalTests) + Reached(rules, viewports, targets) * |targets|
      ensures error.None? ==> reports == old(reports) + Collect(ReportEntriesJs(rules, viewports, targets))
      ensures var n := Reached(rules, viewports, targets);
              error.Some? ==> reports == (old(reports) + Collect(ReportEntriesJs(rules, viewports, targets)[..n]))
                                           [viewports[n].name := ViewportReport(viewports[n].width, viewports[n].minSize, [])]
      ensures Counts() == Added(old(Counts()), AllTestsJs(rules, viewports[..Reached(rules, viewports, targets)], targets),
                                Recommendation(WarningJs))
    {
      ghost var n := Reached(rules, viewports, targets);
      ghost var entries := ReportEntriesJs(rules, viewports, targets);
      for i := 0 to |viewports|
        invariant Valid()
        invariant i <= n
        invariant reports == old(reports) + Collect(entries[..i])
        invariant Counts() == Added(old(Counts()), AllTestsJs(rules, viewports[..i], targets), Recommendation(WarningJs))
      {
        OverlayStep(old(reports), entries, i);
        ghost var before := Counts();
        var raised := AnalyzeViewport(rules, viewports[i], targets);
        if raised.Some? {
          assert targets != [] && RaisesJs(rules, viewports[i].width);
          assert i == n;
          AllTestsLength(rules, viewports[..n], targets);
          return raised;
        }
        assert targets == [] || !RaisesJs(rules, viewports[i].width);
        CountsStep(old(Counts()), before, rules, viewports, targets, i);
        assert i < n;
      }
      assert n == |viewports|;
      AllTestsLength(rules, viewports[..n], targets);
      assert entries[..|viewports|] == entries;
      assert viewports[..n] == viewports;
      return None;
    }
  }
}
