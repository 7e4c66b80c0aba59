/**
 * The two property extractors: `get_font_properties` (one run's character
 * format) and `get_paragraph_format` (one paragraph's layout).  Both turn
 * library values into JSON values and turn anything unset, falsy or
 * unreadable into null.
 */
module Properties {
  import opened Wrappers
  import opened Docx
  import Hex

  /**
   * `str(v) if v else None`: a present, non-zero value becomes its
   * rendering; `None` and every falsy value become null.
   */
  function StrIfTruthy(v: Option<Scalar>): (r: Option<string>)
    ensures r.None? <==> (v.None? || v.value.isZero)
    ensures r.Some? ==> r.value == v.value.rendered
  {
    match v
    case Some(x) => if x.isZero then None else Some(x.rendered)
    case None => None
  }

  /**
   * The colour entry.  It is set only when the colour object exists and its
   * RGB value is truthy (an `int` other than 0, or any other object); an
   * `int` is written as '#' and `06x` digits, which for a 24-bit value are
   * exactly six lowercase hex digits denoting it.  An exception while
   * reading leaves the entry null.
   */
  function ColorEntry(c: ColorAccess): (r: Option<string>)
    ensures r.Some? <==> c.ColorObject? && c.rgb.Some? && c.rgb.value != RgbInt(0)
    ensures c.ColorObject? && c.rgb.Some? && c.rgb.value.RgbInt? && 0 < c.rgb.value.n < 0x100_0000 ==>
              var s := r.value;
              |s| == 7 && s[0] == '#' && Hex.AllHexDigits(s[1..]) && Hex.HexValue(s[1..]) == c.rgb.value.n
    ensures c.ColorObject? && c.rgb.Some? && c.rgb.value.RgbOther? ==> r == Some(c.rgb.value.rendered)
  {
    match c
    case NoColor => None
    case ColorRaises => None
    case ColorObject(rgb) =>
      match rgb
      case None => None
      case Some(RgbOther(s)) => Some(s)
      case Some(RgbInt(n)) =>
        if n == 0 then None
        else
          var s := "#" + Hex.Format06x(n);
          assert s[1..] == Hex.Format06x(n);
          if 0 < n < 0x100_0000 then Hex.SixDigits(n); Some(s) else Some(s)
  }

  /**
   * `str(font.highlight_color) if hasattr(font, 'highlight_color') else None`:
   * no truthiness test, so an unset highlight that the font does expose is
   * rendered as the string "None" rather than null.
   */
  function HighlightEntry(h: HighlightAccess): (r: Option<string>)
    ensures r.None? <==> h.NoHighlightAttr?
    ensures h == HighlightOf(None) ==> r == Some("None")
    ensures h.HighlightOf? && h.value.Some? ==> r == Some(h.value.value.rendered)
  {
    match h
    case NoHighlightAttr => None
    case HighlightOf(None) => Some("None")
    case HighlightOf(Some(x)) => Some(x.rendered)
  }

  /**
   * `get_font_properties(run)`: the tri-state flags are copied as they are
   * (unset stays null, an explicit false stays false); the size is coerced
   * by truthiness; the colour and the highlight follow their own rules.
   */
  function GetFontProperties(run: Run): (p: FontProperties)
    ensures p.bold == run.bold && p.italic == run.italic && p.underline == run.underline
    ensures p.allCaps == run.font.allCaps && p.subscript == run.font.subscript
    ensures p.superscript == run.font.superscript && p.fontName == run.font.name
    ensures p.fontSize.None? <==> (run.font.size.None? || run.font.size.value.isZero)
    ensures p.color.None? <==> !(run.font.color.ColorObject? && run.font.color.rgb.Some? && run.font.color.rgb.value != RgbInt(0))
    ensures p.highlightColor.None? <==> run.font.highlight.NoHighlightAttr?
    ensures p.fontSize == StrIfTruthy(run.font.size)
    ensures p.color == ColorEntry(run.font.color)
    ensures p.highlightColor == HighlightEntry(run.font.highlight)
  {
    FontProperties(
      bold := run.bold,
      italic := run.italic,
      underline := run.underline,
      fontSize := StrIfTruthy(run.font.size),
      fontName := run.font.name,
      allCaps := run.font.allCaps,
      color := ColorEntry(run.font.color),
      highlightColor := HighlightEntry(run.font.highlight),
      subscript := run.font.subscript,
      superscript := run.font.superscript)
  }

  /**
   * A colour that raises while being read yields the same record as a run
   * with no colour at all: the failure is not observable in the output.
   */
  lemma ColorFailureLooksUnset(run: Run)
    ensures GetFontProperties(run.(font := run.font.(color := ColorRaises)))
         == GetFontProperties(run.(font := run.font.(color := NoColor)))
  {
  }

  /**
   * `get_paragraph_format(paragraph)`: the seven measurements and the
   * alignment are rendered when truthy and null otherwise; the four layout
   * flags are copied without coercion, so an explicit false is kept.
   */
  function GetParagraphFormat(fmt: ParagraphFormatIn): (r: ParagraphFormat)
    ensures r.alignment == StrIfTruthy(fmt.alignment)
    ensures r.firstLineIndent == StrIfTruthy(fmt.firstLineIndent)
    ensures r.leftIndent == StrIfTruthy(fmt.leftIndent)
    ensures r.rightIndent == StrIfTruthy(fmt.rightIndent)
    ensures r.lineSpacing == StrIfTruthy(fmt.lineSpacing)
    ensures r.spaceBefore == StrIfTruthy(fmt.spaceBefore)
    ensures r.spaceAfter == StrIfTruthy(fmt.spaceAfter)
    ensures r.keepTogether == fmt.keepTogether && r.keepWithNext == fmt.keepWithNext
    ensures r.pageBreakBefore == fmt.pageBreakBefore && r.widowControl == fmt.widowControl
  {
    ParagraphFormat(
      alignment := StrIfTruthy(fmt.alignment),
      firstLineIndent := StrIfTruthy(fmt.firstLineIndent),
      leftIndent := StrIfTruthy(fmt.leftIndent),
      rightIndent := StrIfTruthy(fmt.rightIndent),
      lineSpacing := StrIfTruthy(fmt.lineSpacing),
      spaceBefore := StrIfTruthy(fmt.spaceBefore),
      spaceAfter := StrIfTruthy(fmt.spaceAfter),
      keepTogether := fmt.keepTogether,
      keepWithNext := fmt.keepWithNext,
      pageBreakBefore := fmt.pageBreakBefore,
      widowControl := fmt.widowControl)
  }
}
