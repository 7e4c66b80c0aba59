# docx-to-json: the extraction pass, modelled in Dafny

The repository is one script, `app.py`. It opens word-processing documents
with the python-docx library and turns each one into a JSON tree. The tree
holds the section headers, the body paragraphs, the lists and the tables,
each with its formatting. This project models the part of that script that
decides what goes into the tree: `extract_docx_content` and its two property
extractors, `get_font_properties` and `get_paragraph_format`.

The parsed document is an input datatype (`Docx.Document`). Sections carry
header paragraphs. Paragraphs carry a style name, text, runs, a paragraph
format, a numbering flag and an optional list level. Tables carry an
optional style and rows of cells. Every attribute the script probes with
`getattr`/`hasattr` is an `Option` field. A library value that the script
copies as its `str()` form is a `Scalar`: its rendering plus whether it is
falsy. The output is the nested record `Docx.Content`.

Modules:

- `Text`: Python's `str.strip()` (`Trim`) over the characters `str.isspace()`
  accepts.
- `Hex`: the `06x` format specifier used for an integer RGB colour.
- `Seqs`: the list-building patterns of the loops, as functions on sequences.
- `Properties`: `get_font_properties` and `get_paragraph_format`.
- `ListGroups`: the reference definition of list grouping (`Groups`) and its
  properties.
- `Extraction`: the record the pass produces, as functions (`Extract`). Also
  the pass itself, as methods with loops that are proved to build exactly
  that record. The body loop keeps the script's `current_list`/`list_items`
  accumulator.
- `ExtractionFacts`: what the produced record says about the document.

## Model

| member | source | states |
|---|---|---|
| `Text.TrimSlice` | app.py:79 | the stripped text is the slice of the original that starts after the leading whitespace |
| `Text.TrimRemovesSpace` | app.py:79 | every character `strip()` removes, at either end, is whitespace |
| `Text.TrimEdges` | app.py:79 | non-empty stripped text neither starts nor ends with whitespace |
| `Text.TrimEmpty` | app.py:77 | `text.strip()` is falsy exactly when the text is all whitespace (or empty) |
| `Text.TrimIdempotent` | app.py:144 | stripping twice gives the same text as stripping once |
| `Text.AlphanumericNotSpace` | app.py:77 | ASCII letters and digits are never stripped |
| `Hex.ToHexRoundTrip` | app.py:28 | reading back the hex digits gives the number |
| `Hex.SixDigits` | app.py:28 | an integer in [0, 2^24) is rendered as exactly six lowercase hex digits that denote it |
| `Hex.WiderThanSix` | app.py:28 | an integer of 2^24 or more is not padded: exactly the digits of its value, more than six, the first not a zero |
| `Hex.Negative` | app.py:28 | a negative integer is rendered as '-' then the digits of its magnitude zero-padded to five, so its width is one plus the larger of five and the magnitude's digit count |
| `Properties.StrIfTruthy` | app.py:40-46 | an absent or falsy value becomes null; any other value becomes its rendering |
| `Properties.ColorEntry` | app.py:24-30 | the colour is set iff a colour object exists and its RGB value is truthy; an integer in (0, 2^24) gives '#' plus six lowercase hex digits denoting it; a non-integer value gives its rendering; a raised error gives null |
| `Properties.HighlightEntry` | app.py:19 | the highlight is null iff the font has no such attribute; a present but unset highlight gives the string "None" |
| `Properties.GetFontProperties` | app.py:7-32 | the tri-state flags, font name, caps and sub/superscript are copied unchanged; the size, colour and highlight entries are exactly `StrIfTruthy`, `ColorEntry` and `HighlightEntry` of the font's values, so size is null iff absent or falsy and the colour and highlight rules above hold |
| `Properties.ColorFailureLooksUnset` | app.py:25-30 | a colour that raises yields the same record as no colour at all |
| `Properties.GetParagraphFormat` | app.py:34-51 | the alignment, indents and spacings are null when falsy and rendered otherwise; the four layout flags are copied without coercion |
| `Extraction.TableRecordOf` | app.py:134-168 | a table record keeps every row and every cell in row-major order, with each cell's stripped text and its kept paragraphs; a table with no style gets "Normal" |
| `Extraction.CollectRuns` | app.py:85-90 | the run loop builds exactly the kept runs |
| `Extraction.BuildParagraph` | app.py:78-90 | builds exactly a header or cell paragraph's record |
| `Extraction.CollectParagraphs` | app.py:149-165 | the cell-paragraph loop, also used for header paragraphs, builds exactly the records of the non-empty paragraphs |
| `Extraction.ExtractHeaders` | app.py:74-92 | the header loop builds exactly the header records of all sections, in order |
| `Extraction.BuildBodyRecord` | app.py:100-115 | builds exactly a body paragraph's record with its list classification and level |
| `Extraction.ListItemStep` | app.py:118-121 | a list item joins the pending group and keeps the accumulator in step with `Groups` |
| `Extraction.PlainStep` | app.py:122-126 | a non-list record closes the pending group and keeps the accumulator in step with `Groups` |
| `Extraction.HandleRecord` | app.py:117-127 | one record through the accumulator preserves the loop state: `paragraphs` are the non-list records so far, closed plus pending groups are `Groups` of the records so far, and `current_list` is None exactly when `list_items` is empty |
| `Extraction.ExtractBody` | app.py:95-131 | the body loop with its accumulator yields the non-list records, in order, as `paragraphs` and exactly `Groups` of the kept records as `lists` |
| `Extraction.BuildRow` | app.py:140-168 | the cell loop builds exactly one record per cell, in order |
| `Extraction.BuildTable` | app.py:134-168 | the row loop builds exactly the table record |
| `Extraction.ExtractTables` | app.py:133-171 | the table loop appends exactly the tables with a non-empty cell, in order |
| `Extraction.ExtractDocxContent` | app.py:53-173 | the whole pass returns `Extract(doc, name)` |
| `ListGroups.GroupsAreListRuns` | app.py:118-121 | every group is non-empty and holds only list items |
| `ListGroups.GroupsFlatten` | app.py:118-131 | the groups concatenated are exactly the list items, in document order |
| `ListGroups.GroupsSeparated` | app.py:122-126 | records on either side of a non-list record are grouped independently |
| `ListGroups.GroupsJoined` | app.py:118-121 | list items that meet across a split point merge into one group |
| `ListGroups.GroupsOfRun` | app.py:118-121 | a run of list items alone forms a single group |
| `ListGroups.MaximalRunIsGroup` | app.py:98-131 | every maximal run of consecutive list items is one group, in place between the groups before and after it |
| `ListGroups.TwoRunsTwoGroups` | app.py:122-131 | one non-list paragraph between two list runs gives exactly two groups |
| `ExtractionFacts.ParagraphRecordsExact` | app.py:76-79 | header and cell paragraphs: the k-th record comes from the k-th paragraph with text and holds its stripped text, style, format and kept runs |
| `ExtractionFacts.RunsExact` | app.py:85-90 | the k-th run record comes from the k-th run with text and keeps that run's unstripped text and font properties |
| `ExtractionFacts.BodyRecordsExact` | app.py:98-115 | body paragraphs: the k-th record comes from the k-th paragraph with text and holds its stripped text, style, format, kept runs, list classification, and its level only when it is numbered |
| `ExtractionFacts.WhitespaceDropped` | app.py:98-99 | whitespace-only paragraphs leave no header, cell or body record |
| `ExtractionFacts.BlankParagraphSkipped` | app.py:98-99 | a whitespace-only body paragraph changes nothing, so it never splits a list group |
| `ExtractionFacts.HeadersAppend` | app.py:74-92 | header records of consecutive sections follow one another |
| `ExtractionFacts.BodyPlacement` | app.py:117-131 | each non-empty body paragraph lands in exactly one place: non-list ones in `paragraphs`, list items in `lists`, both in document order |
| `ExtractionFacts.ListItemTest` | app.py:105 | a paragraph is a list item iff its style name is "List" followed by anything (case-sensitive: "list bullet" is not one) or it carries the numbering flag |
| `ExtractionFacts.TableKeptIff` | app.py:170 | a table is kept iff some cell in some row has non-whitespace text |
| `ExtractionFacts.TablesExact` | app.py:133-171 | the k-th table record is the whole record of the k-th table that has text |
| `ExtractionFacts.BlankTablesDropped` | app.py:170-171 | tables whose cells are all whitespace leave no record |
| `ExtractionFacts.EmptyDocument` | app.py:65-71 | a document with nothing in it gives four empty collections and its name |
| `ExtractionFacts.HelloParagraph` | app.py:98-127 | one paragraph "Hello" with one bold run and an unset highlight gives one non-list record whose run has bold set, highlight colour "None" and every other property null |

## Left out

- `process_docx_files` (app.py:175-199): listing the directory, writing files, printing and catching per-file errors are I/O.
- `Document(docx_path)`, `json.dump` and `os.path.basename`: the parsed document and the document name are parameters of `ExtractDocxContent`.
- The `str()` renderings of lengths, enumeration members, floats and RGB objects are opaque strings in the input (`Scalar`, `RgbOther`). Whether a `Scalar` is falsy is an input flag. An `RgbOther` value is always treated as truthy.
- The `getattr`/`hasattr` probing is replaced by `Option` fields. An attribute that exists with value `None` and a missing attribute are the same input.
- `hasattr(para, 'numbering')` is the input flag `numbered`. The `pPr.numPr.ilvl.val` chain is the optional `level`. The model does not capture the case where that chain raises because `ilvl` is `None`: it treats that as `None`.
- `Properties.GetFontProperties`: underline is modelled as a tri-state boolean, so the underline-style enumeration values python-docx can also return are not modelled.
- `Extraction.CellRecordOf` and `Extraction.BuildRow`: a cell's own `text` is an input field. The model does not tie it to the text of the cell's paragraphs.
- `Para.text` and `Para.runs` are independent inputs. python-docx derives a paragraph's text from its runs and hyperlinks; the model does not tie the two together.
- The intended behaviour and the code differ on the highlight colour. An unset font property is meant to serialise as null. The code renders a present but unset highlight as the string "None". The model follows the code (`Properties.HighlightEntry`).
- The colour's integer branch follows the code (`#` and `06x`). python-docx usually returns an RGB object rather than an `int`, and the model renders that object with its opaque `str()` form.
- The unused level stored in `current_list` is kept in the model (`Extraction.OpenList`). It never reaches the output.
