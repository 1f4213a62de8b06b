// The pager view of the demo (tui/viewport.go): the viewport wrapper with its
// `ready` flag, its lazy construction on the first resize, and the header and
// footer rules drawn around it.
module Pager {
  import opened Bubbles

  /** A constant of the program; every branch that depends on it is dead. */
  const UseHighPerformanceRenderer: bool := false

  /** viewportModel: the widget, whether it has been sized yet, and the text it shows. */
  datatype ViewportModel = ViewportModel(mod: Viewport, ready: bool, content: string)

  /** What setViewportViewSize leaves behind: the new wrapper and the command it returns. */
  datatype Sized = Sized(viewport: ViewportModel, cmd: Option<Cmd>)

  /** The measurements and renderings the header and footer borrow from lipgloss. */
  datatype Chrome = Chrome(
    title: string,                      // titleStyle.Render("Mr. Pager")
    info: Viewport -> string,           // infoStyle.Render of the scroll percentage
    width: string -> int,               // lipgloss.Width
    joinH: (string, string) -> string)  // lipgloss.JoinHorizontal(lipgloss.Center, ...)

  /** max: the larger of two integers. */
  function Max(a: int, b: int): (r: int)
    ensures r >= a && r >= b
    ensures r == a || r == b
  {
    if a > b then a else b
  }

  /** How many rule segments fill a line of `width` columns beside a label. */
  function RuleLength(width: int, labelWidth: int): (n: nat)
    ensures labelWidth <= width ==> n == width - labelWidth
    ensures width <= labelWidth ==> n == 0
  {
    Max(0, width - labelWidth)
  }

  /** strings.Repeat: n copies of unit, one after another. */
  function Repeat(unit: string, n: nat): (r: string)
    ensures |r| == n * |unit|
    ensures |unit| > 0 ==> forall i :: 0 <= i < |r| ==> r[i] == unit[i % |unit|]
  {
    if n == 0 then "" else
      var prefix := Repeat(unit, n - 1);
      assert |prefix| == (n - 1) * |unit|;
      var r := prefix + unit;
      assert |unit| > 0 ==> forall i :: |prefix| <= i < |r| ==> r[i] == unit[i % |unit|] by {
        if |unit| > 0 {
          forall i | |prefix| <= i < |r|
            ensures r[i] == unit[i % |unit|]
          {
            ModAfterCopies(n - 1, |unit|, i - |prefix|);
          }
        }
      }
      r
  }

  /** Past q whole copies of a k-character unit, position q * k + j is at offset j. */
  lemma ModAfterCopies(q: nat, k: nat, j: nat)
    requires j < k
    ensures (q * k + j) % k == j
  {
    var x := q * k + j;
    var d, m := x / k, x % k;
    assert x == d * k + m;
    if d > q {
      assert (d - q) * k >= k by { MulAtLeast(d - q, k); }
      assert false;
    } else if d < q {
      assert (q - d) * k >= k by { MulAtLeast(q - d, k); }
      assert false;
    }
  }

  /** A positive multiple of k is at least k. */
  lemma MulAtLeast(a: int, k: nat)
    requires a >= 1
    ensures a * k >= k
  {
  }

  /** The box-drawing segment "─" that the rules are meant to repeat. */
  const RuleSegment: string := "\U{2500}"

  /**
   * The segment the source text actually repeats: the three characters that
   * the UTF-8 bytes of "─" read as under Windows-1252.
   */
  const WrittenRuleSegment: string := "\U{00E2}\U{201D}\U{20AC}"

  /**
   * The rule beside a label of `labelWidth` columns, as intended: one
   * single-column "─" per free column, so label and rule fill the width.
   */
  function Rule(width: int, labelWidth: int): (line: string)
    ensures |line| == Max(0, width - labelWidth)
    ensures forall i :: 0 <= i < |line| ==> line[i] == '\U{2500}'
    ensures 0 <= labelWidth <= width ==> labelWidth + |line| == width
  {
    Repeat(RuleSegment, RuleLength(width, labelWidth))
  }

  /** The rule as written: three single-column characters per free column. */
  function WrittenRule(width: int, labelWidth: int): (line: string)
    ensures |line| == 3 * Max(0, width - labelWidth)
    ensures forall i :: 0 <= i < |line| ==> line[i] == WrittenRuleSegment[i % 3]
    ensures labelWidth < width ==> line[0] == '\U{00E2}' != Rule(width, labelWidth)[0]
  {
    Repeat(WrittenRuleSegment, RuleLength(width, labelWidth))
  }

  /** As written, a label and its rule overrun any width wider than the label. */
  lemma WrittenRuleOverruns(width: int, labelWidth: int)
    requires 0 <= labelWidth < width
    ensures labelWidth + |WrittenRule(width, labelWidth)| > width
    ensures labelWidth + |WrittenRule(width, labelWidth)| == width + 2 * (width - labelWidth)
  {
  }

  /** On an 80-column terminal with a 13-column title the written header is 214 columns wide. */
  lemma WrittenHeaderAt80Columns()
    ensures 13 + |WrittenRule(80, 13)| == 214
    ensures 13 + |Rule(80, 13)| == 80
  {
  }

  /**
   * What lipgloss guarantees about widths: JoinHorizontal puts its blocks side
   * by side, so their widths add, and a rule of n segments is n columns wide
   * (3n for the as-written segment, whose three characters are one column each).
   */
  ghost predicate Measured(c: Chrome)
  {
    (forall a, b :: c.width(c.joinH(a, b)) == c.width(a) + c.width(b)) &&
    (forall n: nat :: c.width(Repeat(RuleSegment, n)) == n) &&
    (forall n: nat :: c.width(Repeat(WrittenRuleSegment, n)) == 3 * n)
  }

  /**
   * headerView: the title, then a rule to the right edge. It is exactly as
   * wide as the viewport, or as the title alone when that is wider.
   */
  function HeaderView(v: Viewport, c: Chrome): (header: string)
    ensures Measured(c) ==> c.width(header) == Max(v.width, c.width(c.title))
  {
    var line := Rule(v.width, c.width(c.title));
    c.joinH(c.title, line)
  }

  /**
   * footerView: a rule from the left edge, then the scroll indicator. It is
   * exactly as wide as the viewport, or as the indicator alone when that is wider.
   */
  function FooterView(v: Viewport, c: Chrome): (footer: string)
    ensures Measured(c) ==> c.width(footer) == Max(v.width, c.width(c.info(v)))
  {
    var info := c.info(v);
    var line := Rule(v.width, c.width(info));
    c.joinH(line, info)
  }

  /** headerView as written, with the three-character segment. */
  function WrittenHeaderView(v: Viewport, c: Chrome): (header: string)
    ensures Measured(c) ==>
      c.width(header) == c.width(c.title) + 3 * Max(0, v.width - c.width(c.title))
  {
    var line := WrittenRule(v.width, c.width(c.title));
    c.joinH(c.title, line)
  }

  /** footerView as written, with the three-character segment. */
  function WrittenFooterView(v: Viewport, c: Chrome): (footer: string)
    ensures Measured(c) ==>
      c.width(footer) == 3 * Max(0, v.width - c.width(c.info(v))) + c.width(c.info(v))
  {
    var info := c.info(v);
    var line := WrittenRule(v.width, c.width(info));
    c.joinH(line, info)
  }

  /**
   * As written, the header and footer of a viewport wider than the title or
   * indicator are wider than the viewport; as intended they fill it exactly.
   */
  lemma WrittenChromeOverruns(v: Viewport, c: Chrome)
    requires Measured(c)
    ensures c.width(c.title) < v.width ==>
      c.width(WrittenHeaderView(v, c)) == v.width + 2 * (v.width - c.width(c.title)) &&
      c.width(HeaderView(v, c)) == v.width
    ensures c.width(c.info(v)) < v.width ==>
      c.width(WrittenFooterView(v, c)) == v.width + 2 * (v.width - c.width(c.info(v))) &&
      c.width(FooterView(v, c)) == v.width
  {
  }

  /**
   * setViewportViewSize: the first resize builds the viewport and marks it
   * ready; later resizes only set its width and height.
   */
  function SetViewportViewSize(
    vm: ViewportModel, width: int, height: int, headerHeight: int, verticalMarginHeight: int): (r: Sized)
    ensures r.cmd == None
    ensures r.viewport.ready && r.viewport.content == vm.content
    ensures r.viewport.mod.width == width && r.viewport.mod.height == height - verticalMarginHeight
    ensures !vm.ready ==>
      r.viewport.mod.content == vm.content && r.viewport.mod.yPosition == headerHeight + 1 &&
      !r.viewport.mod.highPerformanceRendering && r.viewport.mod.received == []
    ensures vm.ready ==> r.viewport == vm.(mod := vm.mod.(width := width, height := height - verticalMarginHeight))
  {
    var built :=
      if !vm.ready then
        var made := NewViewport(width, height - verticalMarginHeight);
        var placed := made.(yPosition := headerHeight);
        var plain := placed.(highPerformanceRendering := UseHighPerformanceRenderer);
        var filled := SetContent(plain, vm.content);
        vm.(mod := filled.(yPosition := headerHeight + 1), ready := true)
      else
        vm.(mod := vm.mod.(width := width, height := height - verticalMarginHeight));
    Sized(built, if UseHighPerformanceRenderer then Some(Sync) else None)
  }
}
