/**
 * What the record `extract_docx_content` returns says about the document:
 * which paragraphs, runs and tables appear in it and in what order, where
 * each body paragraph ends up, and how the list groups are cut.
 */
module ExtractionFacts {
  import opened Wrappers
  import opened Text
  import opened Seqs
  import opened Docx
  import opened Properties
  import opened ListGroups
  import opened Extraction

  /**
   * Header and cell paragraphs: the k-th record comes from the k-th
   * paragraph with non-whitespace text (the positions in `KeptIndices` are
   * increasing and are exactly the paragraphs with text), and it holds that
   * paragraph's stripped text, its style and its kept runs.
   */
  lemma ParagraphRecordsExact(ps: seq<Para>)
    ensures var ix := KeptIndices(ps, ParaHasText);
      var r := ParagraphRecords(ps);
      |r| == |ix| &&
      forall k | 0 <= k < |ix| ::
        r[k].text == Trim(ps[ix[k]].text) && r[k].text != [] &&
        r[k].styleName == ps[ix[k]].style &&
        r[k].formatting == GetParagraphFormat(ps[ix[k]].format) &&
        r[k].runs == KeptRuns(ps[ix[k]].runs)
  {
    FilterMapByIndex(ps, ParaHasText, ParagraphRecordOf);
  }

  /**
   * Runs: the k-th kept run is the k-th run with non-whitespace text, and
   * its record holds the run's text as it is, not stripped.
   */
  lemma RunsExact(runs: seq<Run>)
    ensures var ix := KeptIndices(runs, RunHasText);
      var r := KeptRuns(runs);
      |r| == |ix| &&
      forall k | 0 <= k < |ix| ::
        r[k].text == runs[ix[k]].text && HasText(r[k].text) &&
        r[k].fontProperties == GetFontProperties(runs[ix[k]])
  {
    FilterMapByIndex(runs, RunHasText, RunRecordOf);
  }

  /**
   * Body paragraphs: the k-th body record comes from the k-th paragraph with
   * non-whitespace text and holds its stripped text, style, format and kept
   * runs, its list classification and, for a numbered paragraph only, its
   * list level.
   */
  lemma BodyRecordsExact(ps: seq<Para>)
    ensures var ix := KeptIndices(ps, ParaHasText);
      var r := BodyRecords(ps);
      |r| == |ix| &&
      forall k | 0 <= k < |ix| ::
        r[k].para.text == Trim(ps[ix[k]].text) && r[k].para.text != [] &&
        r[k].para.styleName == ps[ix[k]].style &&
        r[k].para.formatting == GetParagraphFormat(ps[ix[k]].format) &&
        r[k].para.runs == KeptRuns(ps[ix[k]].runs) &&
        r[k].isListItem == IsListItem(ps[ix[k]]) &&
        r[k].listLevel == (if ps[ix[k]].numbered then ps[ix[k]].level else None)
  {
    FilterMapByIndex(ps, ParaHasText, BodyRecordOf);
  }

  /** A paragraph made only of whitespace leaves no header, cell or body record. */
  lemma {:induction false} WhitespaceDropped(ps: seq<Para>)
    requires forall i | 0 <= i < |ps| :: AllSpace(ps[i].text)
    ensures ParagraphRecords(ps) == [] && BodyRecords(ps) == []
  {
    if ps != [] {
      WhitespaceDropped(ps[..|ps| - 1]);
      TrimEmpty(ps[|ps| - 1].text);
    }
  }

  /**
   * A whitespace-only body paragraph is skipped entirely: the body records,
   * and so the paragraphs and the list groups built from them, are those of
   * the document without it.  In particular it does not split a list group.
   */
  lemma BlankParagraphSkipped(a: seq<Para>, w: Para, b: seq<Para>)
    requires AllSpace(w.text)
    ensures BodyRecords(a + [w] + b) == BodyRecords(a + b)
  {
    TrimEmpty(w.text);
    assert [w][..0] == [];
    FilterMapAppend(a, [w], ParaHasText, BodyRecordOf);
    FilterMapAppend(a + [w], b, ParaHasText, BodyRecordOf);
    FilterMapAppend(a, b, ParaHasText, BodyRecordOf);
  }

  /** The header records of consecutive sections follow one another. */
  lemma HeadersAppend(a: seq<Section>, b: seq<Section>)
    ensures HeaderRecords(a + b) == HeaderRecords(a) + HeaderRecords(b)
  {
    MapAppend(a, b, SectionHeaders);
    FlattenAppend(Map(a, SectionHeaders), Map(b, SectionHeaders));
  }

  /**
   * Body paragraphs: every non-empty body paragraph lands in exactly one
   * place.  Non-list records go to `paragraphs` only, list items to `lists`
   * only; both keep document order, and the groups concatenated are the
   * list items in order.
   */
  lemma BodyPlacement(doc: Document, name: string)
    ensures var c := Extract(doc, name);
      var body := BodyRecords(doc.paragraphs);
      (forall r | r in c.paragraphs :: !r.isListItem) &&
      (forall k | 0 <= k < |c.lists| :: IsListRun(c.lists[k])) &&
      c.paragraphs == Filter(body, IsPlainRecord) &&
      Flatten(c.lists) == Filter(body, IsListRecord) &&
      multiset(c.paragraphs) + multiset(Flatten(c.lists)) == multiset(body)
  {
    var body := BodyRecords(doc.paragraphs);
    GroupsAreListRuns(body);
    GroupsFlatten(body);
    FilterPartition(body, IsPlainRecord, IsListRecord);
  }

  /** The list-item test: a "List" prefix on the style name, case-sensitive, or the numbering flag. */
  lemma ListItemTest(p: Para)
    ensures IsListItem(p) <==> (exists t: string :: p.style == "List" + t) || p.numbered
    ensures !p.numbered ==> (IsListItem(p.(style := "List Bullet")) && !IsListItem(p.(style := "list bullet")))
  {
    if StartsWith(p.style, "List") {
      assert p.style == "List" + p.style[4..];
    }
    forall t: string | p.style == "List" + t ensures StartsWith(p.style, "List") {
      assert p.style[..4] == "List";
    }
    assert "List Bullet"[..4] == "List";
    assert "list bullet"[..4] != "List" by { assert "list bullet"[0] != "List"[0]; }
  }

  /**
   * Tables: a table is kept exactly when one of its cells has
   * non-whitespace text; a kept table keeps every row and cell.
   */
  lemma TableKeptIff(t: Table)
    ensures KeepTable(t) <==> exists i, j | 0 <= i < |t.rows| && 0 <= j < |t.rows[i]| :: HasText(t.rows[i][j].text)
  {
    var r := TableRecordOf(t);
    if KeepTable(t) {
      var i, j :| 0 <= i < |r.rows| && 0 <= j < |r.rows[i]| && r.rows[i][j].text != [];
      assert HasText(t.rows[i][j].text);
    } else {
      forall i, j | 0 <= i < |t.rows| && 0 <= j < |t.rows[i]|
        ensures !HasText(t.rows[i][j].text)
      {
        assert r.rows[i][j].text == Trim(t.rows[i][j].text);
      }
    }
  }

  /** The k-th table record is the k-th table with some text, converted whole. */
  lemma TablesExact(ts: seq<Table>)
    ensures var ix := KeptIndices(ts, KeepTable);
      var r := TableRecords(ts);
      |r| == |ix| && forall k | 0 <= k < |ix| :: r[k] == TableRecordOf(ts[ix[k]])
  {
    FilterMapByIndex(ts, KeepTable, TableRecordOf);
  }

  /** A table whose cells are all whitespace leaves no record. */
  lemma {:induction false} BlankTablesDropped(ts: seq<Table>)
    requires forall k, i, j | 0 <= k < |ts| && 0 <= i < |ts[k].rows| && 0 <= j < |ts[k].rows[i]| ::
               AllSpace(ts[k].rows[i][j].text)
    ensures TableRecords(ts) == []
  {
    if ts != [] {
      var init := ts[..|ts| - 1];
      assert forall k | 0 <= k < |init| :: init[k] == ts[k];
      BlankTablesDropped(init);
      TableKeptIff(ts[|ts| - 1]);
      var rows: seq<seq<Cell>> := ts[|ts| - 1].rows;
      forall i, j | 0 <= i < |rows| && 0 <= j < |rows[i]| ensures !HasText(rows[i][j].text) {
        TrimEmpty(rows[i][j].text);
      }
    }
  }

  /** A document with no sections, paragraphs or tables gives empty collections. */
  lemma EmptyDocument(name: string)
    ensures Extract(Document([], [], []), name) == Content([], [], [], name, [])
  {
  }

  /** A font with nothing set; python-docx always exposes `highlight_color`, here unset. */
  const NoFont := Font(None, None, None, NoColor, HighlightOf(None), None, None)

  const NoFormat := ParagraphFormatIn(None, None, None, None, None, None, None, None, None, None, None)

  /** One paragraph with text gives one body record. */
  lemma SingleParagraph(p: Para)
    requires HasText(p.text)
    ensures BodyRecords([p]) == [BodyRecordOf(p)]
  {
    assert [p][..0] == [];
  }

  /** One run with text gives one run record. */
  lemma SingleRun(r: Run)
    requires HasText(r.text)
    ensures KeptRuns([r]) == [RunRecordOf(r)]
  {
    assert [r][..0] == [];
  }

  /** A single non-list record forms no list group and stays a paragraph. */
  lemma SinglePlainRecord(rec: BodyRecord)
    requires !rec.isListItem
    ensures Filter([rec], IsPlainRecord) == [rec] && Groups([rec]) == []
  {
    assert [rec][..0] == [];
  }

  /**
   * One paragraph "Hello", in a style whose name does not start with
   * "List", with one bold run and no other formatting: one non-list
   * paragraph record whose only run has bold set, the highlight colour
   * rendered as the string "None" (the library exposes the attribute, unset)
   * and every other property null, and no list group.
   */
  lemma HelloParagraph(style: string, name: string)
    requires !StartsWith(style, "List")
    ensures var run := Run("Hello", Some(true), None, None, NoFont);
      var doc := Document([], [Para("Hello", style, NoFormat, [run], false, None)], []);
      Extract(doc, name).paragraphs ==
        [BodyRecord(
          ParagraphRecord("Hello", style,
            ParagraphFormat(None, None, None, None, None, None, None, None, None, None, None),
            [RunRecord("Hello", FontProperties(Some(true), None, None, None, None, None, None, Some("None"), None, None))]),
          false, None)]
      && Extract(doc, name).lists == []
  {
    AlphanumericNotSpace('H');
    AlphanumericNotSpace('o');
    TrimUnpadded("Hello");
    var run := Run("Hello", Some(true), None, None, NoFont);
    var para := Para("Hello", style, NoFormat, [run], false, None);
    assert GetFontProperties(run) == FontProperties(Some(true), None, None, None, None, None, None, Some("None"), None, None);
    assert GetParagraphFormat(NoFormat) == ParagraphFormat(None, None, None, None, None, None, None, None, None, None, None);
    SingleRun(run);
    SingleParagraph(para);
    SinglePlainRecord(BodyRecordOf(para));
  }
}
