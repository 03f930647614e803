/**
 * What the Python analyzer (test-touch-targets.py) and its older JavaScript
 * sibling (test-touch-targets.js) have in common: the configuration records,
 * the effective-style record, the box computation and the size checks.
 *
 * The minimum sizes are those of success criterion 2.5.5 (Target Size) of
 * WCAG 2.1, 44 by 44 CSS pixels, and the 48 by 48 pixels that Google's
 * Material Design recommends for mobile.
 */
module TouchTargets {
  import opened Wrappers
  import opened Text
  import opened CssScan

  const WcagMinSize: nat := 44
  const GoogleMinSize: nat := 48

  /** A screen-width scenario; `minSize` is the minimum it requires (44 or 48). */
  datatype Viewport = Viewport(name: string, width: int, minSize: nat)

  /** An interactive element class to check, identified by its exact selector text. */
  datatype Target = Target(selector: string, name: string)

  /** Padding on the four sides, in CSS order. */
  datatype Sides = Sides(top: nat, right: nat, bottom: nat, left: nat)

  const NoPadding := Sides(0, 0, 0, 0)

  /** The effective-style accumulator: absent lengths are `None`, padding defaults to zero. */
  datatype Style = Style(minWidth: Option<nat>, minHeight: Option<nat>,
                         width: Option<nat>, height: Option<nat>, padding: Sides)

  const InitialStyle := Style(None, None, None, None, NoPadding)

  /** The five properties the analyzers read. */
  datatype Property = MinWidth | MinHeight | Width | Height | Padding

  function PropertyName(p: Property): string {
    match p
    case MinWidth => "min-width"
    case MinHeight => "min-height"
    case Width => "width"
    case Height => "height"
    case Padding => "padding"
  }

  /** The value one property holds in a style. */
  datatype FieldValue = Length(size: Option<nat>) | Box4(sides: Sides)

  function Field(s: Style, p: Property): FieldValue {
    match p
    case MinWidth => Length(s.minWidth)
    case MinHeight => Length(s.minHeight)
    case Width => Length(s.width)
    case Height => Length(s.height)
    case Padding => Box4(s.padding)
  }

  // ---------------------------------------------------------------------
  // The padding shorthand (section 8.4 of CSS 2.1, 1-, 2- and 4-value forms only)
  // ---------------------------------------------------------------------

  /** The lengths of the tokens that hold a `<digits>px`, in order; the other tokens are dropped. */
  function Lengths(tokens: seq<string>): (r: seq<nat>)
    ensures |r| <= |tokens|
  {
    if tokens == [] then []
    else
      var rest := Lengths(tokens[1..]);
      match ParseSize(tokens[0])
      case None => rest
      case Some(n) => [n] + rest
  }

  /**
   * The shorthand expansion: one length applies to all sides, two lengths
   * are vertical then horizontal, four are top, right, bottom, left; any
   * other count leaves no padding at all.
   */
  function Expand(parts: seq<nat>): (r: Sides)
  {
    if |parts| == 1 then Sides(parts[0], parts[0], parts[0], parts[0])
    else if |parts| == 2 then Sides(parts[0], parts[1], parts[0], parts[1])
    else if |parts| == 4 then Sides(parts[0], parts[1], parts[2], parts[3])
    else NoPadding
  }

  /** `<n>px`, the way a length is written in a stylesheet. */
  function PxToken(n: nat): (r: string)
    ensures ParseSize(r) == Some(n)
    ensures r != [] && forall k :: 0 <= k < |r| ==> !IsSpace(r[k]) && r[k] != ' '
  {
    ParseSizeOfRendered(n, "");
    PxTokenHasNoSpace(n);
    NatToString(n) + "px"
  }

  /** The token is digits, then `p` and `x`: no whitespace. */
  lemma PxTokenHasNoSpace(n: nat)
    ensures NatToString(n) + "px" + "" == NatToString(n) + "px"
    ensures forall k :: 0 <= k < |NatToString(n) + "px"| ==> !IsSpace((NatToString(n) + "px")[k])
  {
    var d := NatToString(n);
    var r := d + "px";
    assert r + "" == r;
    forall k | 0 <= k < |r| ensures !IsSpace(r[k]) {
      if k < |d| {
        assert r[k] == d[k] && IsDigit(d[k]);
      } else {
        assert r[k] == "px"[k - |d|];
      }
    }
  }

  /** The tokens of a shorthand written from the given lengths, one `<n>px` token per length. */
  function PxTokens(ns: seq<nat>): (r: seq<string>)
    ensures |r| == |ns| && forall i :: 0 <= i < |ns| ==> r[i] == PxToken(ns[i])
  {
    seq(|ns|, i requires 0 <= i < |ns| => PxToken(ns[i]))
  }

  /** Every token of a written length parses back to that length, so none is dropped. */
  lemma LengthsOfPxTokens(ns: seq<nat>)
    ensures Lengths(PxTokens(ns)) == ns
  {
    LengthsOfParsed(PxTokens(ns), ns);
  }

  /** Tokens that each parse to a length give back exactly those lengths. */
  lemma {:induction false} LengthsOfParsed(tokens: seq<string>, ns: seq<nat>)
    requires |tokens| == |ns| && forall i :: 0 <= i < |ns| ==> ParseSize(tokens[i]) == Some(ns[i])
    ensures Lengths(tokens) == ns
  {
    if ns != [] {
      LengthsOfParsed(tokens[1..], ns[1..]);
      assert Lengths(tokens) == [ns[0]] + Lengths(tokens[1..]);
      assert ns == [ns[0]] + ns[1..];
    }
  }

  /** The rendered touch-target size in pixels. */
  datatype Box = Box(width: nat, height: nat)

  /** Python's `a or b or 0` and JavaScript's `a || b || 0`: an absent or zero length does not count. */
  function FirstSet(a: Option<nat>, b: Option<nat>): nat {
    if a.Some? && a.value != 0 then a.value
    else if b.Some? then b.value
    else 0
  }

  /**
   * `calculate_touch_target` / `calculateTouchTarget`: the minimum dimension
   * if it is set and non-zero, else the plain dimension, else 0; then the
   * padding on both sides of that axis is added.
   */
  function TouchTargetBox(style: Style): (b: Box)
    ensures b.width >= style.padding.left + style.padding.right
    ensures b.height >= style.padding.top + style.padding.bottom
    ensures style.minWidth.Some? && style.minWidth.value > 0 ==>
              b.width == style.minWidth.value + style.padding.right + style.padding.left
    ensures (style.minWidth.None? || style.minWidth == Some(0)) && style.width.Some? ==>
              b.width == style.width.value + style.padding.right + style.padding.left
    ensures (style.minWidth.None? || style.minWidth == Some(0)) && style.width.None? ==>
              b.width == style.padding.right + style.padding.left
    ensures style.minHeight.Some? && style.minHeight.value > 0 ==>
              b.height == style.minHeight.value + style.padding.top + style.padding.bottom
    ensures (style.minHeight.None? || style.minHeight == Some(0)) && style.height.Some? ==>
              b.height == style.height.value + style.padding.top + style.padding.bottom
    ensures (style.minHeight.None? || style.minHeight == Some(0)) && style.height.None? ==>
              b.height == style.padding.top + style.padding.bottom
  {
    var width := FirstSet(style.minWidth, style.width);
    var height := FirstSet(style.minHeight, style.height);
    Box(width + style.padding.right + style.padding.left,
        height + style.padding.top + style.padding.bottom)
  }

  /** `calculate_touch_target` on a button with a 48px minimum height and 18px/40px padding gives an 80 by 84 box. */
  lemma BoxOfPaddedButton()
    ensures TouchTargetBox(Style(None, Some(48), None, None, Sides(18, 40, 18, 40))) == Box(80, 84)
  {
  }

  datatype Status = Pass | Fail

  /** One entry of a verdict's issue list. */
  datatype Issue =
    | WidthBelow(width: nat, minimum: nat)
    | HeightBelow(height: nat, minimum: nat)
    | Recommendation(text: string)

  /** The text each issue is reported with. */
  function IssueMessage(i: Issue): string {
    match i
    case WidthBelow(w, m) => "Width " + NatToString(w) + "px is less than minimum " + NatToString(m) + "px"
    case HeightBelow(h, m) => "Height " + NatToString(h) + "px is less than minimum " + NatToString(m) + "px"
    case Recommendation(t) => t
  }

  /** The result of checking one target at one viewport. */
  datatype Verdict = Verdict(selector: string, name: string, viewport: string, expected: nat,
                             actual: Box, status: Status, issues: seq<Issue>)

  /** The per-viewport section of the results. */
  datatype ViewportReport = ViewportReport(width: int, minSize: nat, tests: seq<Verdict>)

  /** Both dimensions reach the viewport's minimum. */
  predicate Meets(box: Box, minSize: nat) {
    box.width >= minSize && box.height >= minSize
  }

  /** The failure issues: one per dimension below the minimum, width first. */
  function SizeIssues(box: Box, minSize: nat): (r: seq<Issue>)
    ensures r == [] <==> Meets(box, minSize)
    ensures |r| == (if box.width < minSize then 1 else 0) + (if box.height < minSize then 1 else 0)
    ensures box.width < minSize ==> r[0] == WidthBelow(box.width, minSize)
    ensures box.height < minSize ==> r[|r| - 1] == HeightBelow(box.height, minSize)
  {
    (if box.width < minSize then [WidthBelow(box.width, minSize)] else [])
    + (if box.height < minSize then [HeightBelow(box.height, minSize)] else [])
  }

  /** The failure issues built one dimension at a time, as both analyzers do: width first, then height. */
  method FailureIssues(box: Box, minSize: nat) returns (issues: seq<Issue>)
    ensures issues == SizeIssues(box, minSize)
  {
    issues := [];
    if box.width < minSize {
      issues := issues + [WidthBelow(box.width, minSize)];
    }
    if box.height < minSize {
      issues := issues + [HeightBelow(box.height, minSize)];
    }
  }

  // ---------------------------------------------------------------------
  // The summary counters
  // ---------------------------------------------------------------------

  /** How many of the tests have the status: the summary's `passed` or `failed`. */
  function CountStatus(tests: seq<Verdict>, s: Status): (n: nat)
    ensures n <= |tests|
  {
    if tests == [] then 0
    else CountStatus(tests[..|tests| - 1], s) + (if tests[|tests| - 1].status == s then 1 else 0)
  }

  /** How many of the tests carry the issue: the summary's `warnings`, for the recommendation. */
  function CountIssue(tests: seq<Verdict>, issue: Issue): (n: nat)
    ensures n <= |tests|
  {
    if tests == [] then 0
    else CountIssue(tests[..|tests| - 1], issue) + (if issue in tests[|tests| - 1].issues then 1 else 0)
  }

  /** One more test adds one to the count of its status and of each issue it carries. */
  lemma CountSnoc(tests: seq<Verdict>, t: Verdict, s: Status, x: Issue)
    ensures CountStatus(tests + [t], s) == CountStatus(tests, s) + (if t.status == s then 1 else 0)
    ensures CountIssue(tests + [t], x) == CountIssue(tests, x) + (if x in t.issues then 1 else 0)
  {
    assert (tests + [t])[..|tests|] == tests;
  }

  /** The counts of two runs of tests add up. */
  lemma {:induction false} CountAppend(a: seq<Verdict>, b: seq<Verdict>, s: Status, x: Issue)
    ensures CountStatus(a + b, s) == CountStatus(a, s) + CountStatus(b, s)
    ensures CountIssue(a + b, x) == CountIssue(a, x) + CountIssue(b, x)
  {
    if b != [] {
      var init := b[..|b| - 1];
      var last := b[|b| - 1];
      assert b == init + [last];
      assert a + b == (a + init) + [last];
      CountAppend(a, init, s, x);
      CountSnoc(a + init, last, s, x);
      CountSnoc(init, last, s, x);
    } else {
      assert a + b == a;
    }
  }

  /** The summary counters of an analyzer: `totalTests`, `passed`, `failed` and `warnings`. */
  datatype Counters = Counters(totalTests: int, passed: int, failed: int, warnings: int)

  /**
   * The counters once the tests are recorded on top of `c`: one more test
   * each, one more pass or failure by status, one more warning per test
   * carrying the analyzer's recommendation `warning`.
   */
  function Added(c: Counters, tests: seq<Verdict>, warning: Issue): Counters {
    Counters(c.totalTests + |tests|, c.passed + CountStatus(tests, Pass), c.failed + CountStatus(tests, Fail),
             c.warnings + CountIssue(tests, warning))
  }

  /** Recording one test moves each counter by what that test contributes. */
  lemma AddedOne(c: Counters, t: Verdict, warning: Issue)
    ensures Added(c, [t], warning) ==
              Counters(c.totalTests + 1, c.passed + (if t.status == Pass then 1 else 0),
                       c.failed + (if t.status == Fail then 1 else 0), c.warnings + (if warning in t.issues then 1 else 0))
  {
    assert [] + [t] == [t];
    CountSnoc([], t, Pass, warning);
    CountSnoc([], t, Fail, warning);
  }

  /** Recording two runs one after the other is recording them together. */
  lemma AddedAppend(c: Counters, a: seq<Verdict>, b: seq<Verdict>, warning: Issue)
    ensures Added(Added(c, a, warning), b, warning) == Added(c, a + b, warning)
  {
    CountAppend(a, b, Pass, warning);
    CountAppend(a, b, Fail, warning);
  }

  /** No test is counted as failed exactly when every test passed. */
  lemma {:induction false} NoneFailedAllPassed(tests: seq<Verdict>)
    ensures CountStatus(tests, Fail) == 0 <==> forall i :: 0 <= i < |tests| ==> tests[i].status == Pass
  {
    if tests != [] {
      var init := tests[..|tests| - 1];
      NoneFailedAllPassed(init);
      assert forall i :: 0 <= i < |init| ==> init[i] == tests[i];
    }
  }

  /** The passes and the failures make up all the tests. */
  lemma {:induction false} PassedPlusFailed(tests: seq<Verdict>)
    ensures CountStatus(tests, Pass) + CountStatus(tests, Fail) == |tests|
  {
    if tests != [] {
      PassedPlusFailed(tests[..|tests| - 1]);
    }
  }
}
