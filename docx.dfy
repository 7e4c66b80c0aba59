/**
 * The document the extractor reads and the record it produces.
 *
 * The input side stands for the parsed document-model objects: every
 * attribute the extractor probes is a field here, an attribute that may be
 * missing or `None` is an `Option`, and a library value whose `str()` form
 * is copied into the output is a `Scalar`.  The output side is the nested
 * dictionary the extractor returns, one datatype per kind of record.
 */
module Docx {
  import opened Wrappers

  // ---------------------------------------------------------------- input

  /**
   * A library value that is copied as its `str()` rendering: a length, an
   * enumeration member or a float.  Python truthiness of such a value is
   * "not equal to zero" (an enumeration member with value 0, such as left
   * alignment, is falsy too).
   */
  datatype Scalar = Scalar(isZero: bool, rendered: string)

  /** The value of `font.color.rgb` once the colour object has been reached. */
  datatype Rgb =
    | RgbInt(n: int)              // an `int`, rendered with `06x`
    | RgbOther(rendered: string)  // any other object, e.g. an RGB triple; truthy, rendered with `str()`

  /** What probing `font.color` and then `font.color.rgb` finds. */
  datatype ColorAccess =
    | NoColor                     // no `color` attribute, or a falsy colour object
    | ColorRaises                 // reading the colour or its RGB value raises
    | ColorObject(rgb: Option<Rgb>)  // `rgb` is `None` or a value

  /** What probing `font.highlight_color` finds. */
  datatype HighlightAccess =
    | NoHighlightAttr
    | HighlightOf(value: Option<Scalar>)

  datatype Font = Font(
    size: Option<Scalar>,
    name: Option<string>,
    allCaps: Option<bool>,
    color: ColorAccess,
    highlight: HighlightAccess,
    subscript: Option<bool>,
    superscript: Option<bool>)

  /** A run: a span of text with one character format; the three tri-states are read off the run. */
  datatype Run = Run(
    text: string,
    bold: Option<bool>,
    italic: Option<bool>,
    underline: Option<bool>,
    font: Font)

  /** `paragraph.paragraph_format` */
  datatype ParagraphFormatIn = ParagraphFormatIn(
    alignment: Option<Scalar>,
    firstLineIndent: Option<Scalar>,
    leftIndent: Option<Scalar>,
    rightIndent: Option<Scalar>,
    lineSpacing: Option<Scalar>,
    spaceBefore: Option<Scalar>,
    spaceAfter: Option<Scalar>,
    keepTogether: Option<bool>,
    keepWithNext: Option<bool>,
    pageBreakBefore: Option<bool>,
    widowControl: Option<bool>)

  /**
   * A paragraph.  `numbered` is whether the paragraph object has a
   * `numbering` attribute; `level` is the value at the end of the
   * `pPr.numPr.ilvl.val` chain, `None` when a link of it is missing.
   */
  datatype Para = Para(
    text: string,
    style: string,
    format: ParagraphFormatIn,
    runs: seq<Run>,
    numbered: bool,
    level: Option<int>)

  /** A table cell: its own text (as the library reports it) and its paragraphs. */
  datatype Cell = Cell(text: string, paragraphs: seq<Para>)

  /** A table; `style` is the name of its style, `None` when it has none. */
  datatype Table = Table(style: Option<string>, rows: seq<seq<Cell>>)

  /** A section; `header` is `None` when the section's header is falsy. */
  datatype Section = Section(header: Option<seq<Para>>)

  datatype Document = Document(
    sections: seq<Section>,
    paragraphs: seq<Para>,
    tables: seq<Table>)

  // --------------------------------------------------------------- output

  /** `get_font_properties(run)`; `None` is JSON null. */
  datatype FontProperties = FontProperties(
    bold: Option<bool>,
    italic: Option<bool>,
    underline: Option<bool>,
    fontSize: Option<string>,
    fontName: Option<string>,
    allCaps: Option<bool>,
    color: Option<string>,
    highlightColor: Option<string>,
    subscript: Option<bool>,
    superscript: Option<bool>)

  /** `get_paragraph_format(paragraph)` */
  datatype ParagraphFormat = ParagraphFormat(
    alignment: Option<string>,
    firstLineIndent: Option<string>,
    leftIndent: Option<string>,
    rightIndent: Option<string>,
    lineSpacing: Option<string>,
    spaceBefore: Option<string>,
    spaceAfter: Option<string>,
    keepTogether: Option<bool>,
    keepWithNext: Option<bool>,
    pageBreakBefore: Option<bool>,
    widowControl: Option<bool>)

  datatype RunRecord = RunRecord(text: string, fontProperties: FontProperties)

  /** A header or table-cell paragraph. */
  datatype ParagraphRecord = ParagraphRecord(
    text: string,
    styleName: string,
    formatting: ParagraphFormat,
    runs: seq<RunRecord>)

  /** A body paragraph: a paragraph record with its list classification. */
  datatype BodyRecord = BodyRecord(
    para: ParagraphRecord,
    isListItem: bool,
    listLevel: Option<int>)

  datatype CellRecord = CellRecord(text: string, paragraphs: seq<ParagraphRecord>)

  datatype TableRecord = TableRecord(style: string, rows: seq<seq<CellRecord>>)

  /** The dictionary returned for one document. */
  datatype Content = Content(
    paragraphs: seq<BodyRecord>,
    tables: seq<TableRecord>,
    headers: seq<ParagraphRecord>,
    documentName: string,
    lists: seq<seq<BodyRecord>>)
}
