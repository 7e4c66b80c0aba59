/**
 * `extract_docx_content`: one pass over a parsed document that collects the
 * section headers, the body paragraphs (grouping consecutive list items) and
 * the tables.  The functions give the record the pass produces; the methods
 * are the pass itself, a loop per collection, each proved to build exactly
 * that record.
 */
module Extraction {
  import opened Wrappers
  import opened Text
  import opened Seqs
  import opened Docx
  import opened Properties
  import opened ListGroups

  // ------------------------------------------------ the record, as functions

  predicate RunHasText(r: Run) { HasText(r.text) }

  /** A run's record keeps its text unstripped. */
  function RunRecordOf(r: Run): RunRecord {
    RunRecord(r.text, GetFontProperties(r))
  }

  function KeptRuns(runs: seq<Run>): seq<RunRecord> {
    FilterMap(runs, RunHasText, RunRecordOf)
  }

  predicate ParaHasText(p: Para) { HasText(p.text) }

  /** A paragraph's record holds its stripped text. */
  function ParagraphRecordOf(p: Para): ParagraphRecord {
    ParagraphRecord(Trim(p.text), p.style, GetParagraphFormat(p.format), KeptRuns(p.runs))
  }

  function ParagraphRecords(ps: seq<Para>): seq<ParagraphRecord> {
    FilterMap(ps, ParaHasText, ParagraphRecordOf)
  }

  /** Python's `s.startswith(prefix)`. */
  predicate StartsWith(s: string, prefix: string) {
    |prefix| <= |s| && s[..|prefix|] == prefix
  }

  predicate IsListItem(p: Para) {
    StartsWith(p.style, "List") || p.numbered
  }

  function ListLevel(p: Para): Option<int> {
    if p.numbered then p.level else None
  }

  function BodyRecordOf(p: Para): BodyRecord {
    BodyRecord(ParagraphRecordOf(p), IsListItem(p), ListLevel(p))
  }

  /** The non-empty body paragraphs, in document order. */
  function BodyRecords(ps: seq<Para>): seq<BodyRecord> {
    FilterMap(ps, ParaHasText, BodyRecordOf)
  }

  function SectionHeaders(s: Section): seq<ParagraphRecord> {
    match s.header
    case None => []
    case Some(ps) => ParagraphRecords(ps)
  }

  function HeaderRecords(sections: seq<Section>): seq<ParagraphRecord> {
    Flatten(Map(sections, SectionHeaders))
  }

  /** A cell's record holds its stripped text, even when that is empty. */
  function CellRecordOf(c: Cell): CellRecord {
    CellRecord(Trim(c.text), ParagraphRecords(c.paragraphs))
  }

  function RowRecordOf(row: seq<Cell>): seq<CellRecord> {
    Map(row, CellRecordOf)
  }

  /** Every row and every cell of the table, in row-major order; the style defaults to "Normal". */
  function TableRecordOf(t: Table): (r: TableRecord)
    ensures r.style == if t.style.None? then "Normal" else t.style.value
    ensures |r.rows| == |t.rows|
    ensures forall i | 0 <= i < |t.rows| :: |r.rows[i]| == |t.rows[i]|
    ensures forall i, j | 0 <= i < |t.rows| && 0 <= j < |t.rows[i]| ::
              r.rows[i][j].text == Trim(t.rows[i][j].text) &&
              r.rows[i][j].paragraphs == ParagraphRecords(t.rows[i][j].paragraphs)
  {
    TableRecord(t.style.GetOr("Normal"), Map(t.rows, RowRecordOf))
  }

  /** `any(any(cell["text"] for cell in row) for row in rows)` */
  predicate HasNonEmptyCell(rows: seq<seq<CellRecord>>) {
    exists i, j | 0 <= i < |rows| && 0 <= j < |rows[i]| :: rows[i][j].text != []
  }

  predicate KeepTable(t: Table) {
    HasNonEmptyCell(TableRecordOf(t).rows)
  }

  function TableRecords(ts: seq<Table>): seq<TableRecord> {
    FilterMap(ts, KeepTable, TableRecordOf)
  }

  /** The dictionary `extract_docx_content` returns for a document named `name`. */
  function Extract(doc: Document, name: string): Content {
    var body := BodyRecords(doc.paragraphs);
    Content(
      paragraphs := Filter(body, IsPlainRecord),
      tables := TableRecords(doc.tables),
      headers := HeaderRecords(doc.sections),
      documentName := name,
      lists := Groups(body))
  }

  // ------------------------------------------------ the pass, as methods

  method CollectRuns(runs: seq<Run>) returns (records: seq<RunRecord>)
    ensures records == KeptRuns(runs)
  {
    records := [];
    for i := 0 to |runs|
      invariant records == KeptRuns(runs[..i])
    {
      assert runs[..i + 1][..i] == runs[..i];
      var run := runs[i];
      if Trim(run.text) != [] {
        records := records + [RunRecord(run.text, GetFontProperties(run))];
      }
    }
    assert runs[..|runs|] == runs;
  }

  method BuildParagraph(p: Para) returns (record: ParagraphRecord)
    ensures record == ParagraphRecordOf(p)
  {
    var runs := CollectRuns(p.runs);
    record := ParagraphRecord(Trim(p.text), p.style, GetParagraphFormat(p.format), runs);
  }

  /** The header and cell paragraph loops: one record per non-empty paragraph. */
  method CollectParagraphs(ps: seq<Para>) returns (records: seq<ParagraphRecord>)
    ensures records == ParagraphRecords(ps)
  {
    records := [];
    for i := 0 to |ps|
      invariant records == ParagraphRecords(ps[..i])
    {
      assert ps[..i + 1][..i] == ps[..i];
      if Trim(ps[i].text) != [] {
        var record := BuildParagraph(ps[i]);
        records := records + [record];
      }
    }
    assert ps[..|ps|] == ps;
  }

  method ExtractHeaders(sections: seq<Section>) returns (headers: seq<ParagraphRecord>)
    ensures headers == HeaderRecords(sections)
  {
    headers := [];
    for i := 0 to |sections|
      invariant headers == HeaderRecords(sections[..i])
    {
      assert sections[..i + 1][..i] == sections[..i];
      if sections[i].header.Some? {
        var records := CollectParagraphs(sections[i].header.value);
        headers := headers + records;
      }
    }
    assert sections[..|sections|] == sections;
  }

  method BuildBodyRecord(p: Para) returns (record: BodyRecord)
    ensures record == BodyRecordOf(p)
  {
    var para := BuildParagraph(p);
    record := BodyRecord(para, IsListItem(p), ListLevel(p));
  }

  lemma BodyRecordsPrefix(ps: seq<Para>, i: nat)
    requires i < |ps|
    ensures BodyRecords(ps[..i + 1]) ==
      BodyRecords(ps[..i]) + if HasText(ps[i].text) then [BodyRecordOf(ps[i])] else []
  {
    FilterMapPrefix(ps, i, ParaHasText, BodyRecordOf);
  }

  /** The accumulator's open list: its level and an item list the source never fills. */
  datatype OpenList = OpenList(level: Option<int>, items: seq<BodyRecord>)

  /** The open group as it would be flushed: nothing when no item is pending. */
  function Pending(items: seq<BodyRecord>): seq<seq<BodyRecord>> {
    if items == [] then [] else [items]
  }

  /**
   * The accumulator after the records `recs`: the closed groups followed by
   * the pending one are the groups of `recs`, and an item is pending exactly
   * when the last record is a list item.
   */
  predicate Accumulates(lists: seq<seq<BodyRecord>>, items: seq<BodyRecord>, recs: seq<BodyRecord>) {
    lists + Pending(items) == Groups(recs) && (items != [] <==> EndsInList(recs))
  }

  /**
   * The body loop's state after the records `seen`: the non-list records
   * so far are in `paragraphs`, the accumulator holds the groups so far, and
   * a list is open exactly when items are pending.
   */
  predicate BodyState(paragraphs: seq<BodyRecord>, lists: seq<seq<BodyRecord>>,
                      currentList: Option<OpenList>, listItems: seq<BodyRecord>, seen: seq<BodyRecord>) {
    && paragraphs == Filter(seen, IsPlainRecord)
    && Accumulates(lists, listItems, seen)
    && (currentList.None? <==> listItems == [])
  }

  /** A list item joins the pending group, opening it if none is pending. */
  lemma ListItemStep(lists: seq<seq<BodyRecord>>, items: seq<BodyRecord>, recs: seq<BodyRecord>, r: BodyRecord)
    requires Accumulates(lists, items, recs) && r.isListItem
    ensures Accumulates(lists, items + [r], recs + [r])
  {
    GroupsSnoc(recs, r);
    assert (recs + [r])[|recs|] == r;
    if items != [] {
      var g := lists + [items];
      assert g[..|g| - 1] == lists && g[|g| - 1] == items;
      assert Groups(recs + [r]) == lists + [items + [r]];
    } else {
      assert items + [r] == [r];
      assert Groups(recs + [r]) == lists + [[r]];
    }
  }

  /** A non-list record closes the pending group, if any. */
  lemma PlainStep(lists: seq<seq<BodyRecord>>, items: seq<BodyRecord>, recs: seq<BodyRecord>, r: BodyRecord)
    requires Accumulates(lists, items, recs) && !r.isListItem
    ensures Accumulates(lists + Pending(items), [], recs + [r])
  {
    GroupsSnoc(recs, r);
    assert (recs + [r])[|recs|] == r;
    assert lists + Pending(items) + Pending([]) == lists + Pending(items);
  }

  /**
   * One kept body record through the accumulator: a list item opens a list
   * if none is open and joins `listItems`; a non-list record closes the
   * open list, if any, and goes to `paragraphs`.  `seen` are the records
   * handled before this one.
   */
  method HandleRecord(record: BodyRecord, paragraphs: seq<BodyRecord>, lists: seq<seq<BodyRecord>>,
                      currentList: Option<OpenList>, listItems: seq<BodyRecord>, ghost seen: seq<BodyRecord>)
    returns (paragraphs': seq<BodyRecord>, lists': seq<seq<BodyRecord>>,
             currentList': Option<OpenList>, listItems': seq<BodyRecord>)
    requires BodyState(paragraphs, lists, currentList, listItems, seen)
    ensures BodyState(paragraphs', lists', currentList', listItems', seen + [record])
  {
    FilterSnoc(seen, record, IsPlainRecord);
    paragraphs', lists', currentList', listItems' := paragraphs, lists, currentList, listItems;
    if record.isListItem {
      ListItemStep(lists, listItems, seen, record);
      if currentList'.None? {
        currentList' := Some(OpenList(record.listLevel, []));
      }
      listItems' := listItems' + [record];
    } else {
      PlainStep(lists, listItems, seen, record);
      if currentList'.Some? {
        lists' := lists' + [listItems'];
        listItems' := [];
        currentList' := None;
      }
      paragraphs' := paragraphs' + [record];
    }
  }

  /**
   * The body loop: every non-empty paragraph goes through the accumulator
   * in document order, and the list still open at the end is flushed.
   * `currentList` is `None` exactly when `listItems` is empty, so the level
   * it stores never reaches the output.
   */
  method ExtractBody(ps: seq<Para>) returns (paragraphs: seq<BodyRecord>, lists: seq<seq<BodyRecord>>)
    ensures paragraphs == Filter(BodyRecords(ps), IsPlainRecord)
    ensures lists == Groups(BodyRecords(ps))
  {
    paragraphs, lists := [], [];
    var currentList: Option<OpenList> := None;
    var listItems: seq<BodyRecord> := [];
    ghost var seen: seq<BodyRecord> := [];
    for i := 0 to |ps|
      invariant seen == BodyRecords(ps[..i])
      invariant BodyState(paragraphs, lists, currentList, listItems, seen)
    {
      var p := ps[i];
      BodyRecordsPrefix(ps, i);
      if Trim(p.text) != [] {
        var record := BuildBodyRecord(p);
        paragraphs, lists, currentList, listItems :=
          HandleRecord(record, paragraphs, lists, currentList, listItems, seen);
        seen := seen + [record];
      }
    }
    assert ps[..|ps|] == ps;
    if listItems != [] {
      lists := lists + [listItems];
    }
  }

  method BuildRow(row: seq<Cell>) returns (rowData: seq<CellRecord>)
    ensures rowData == RowRecordOf(row)
  {
    rowData := [];
    for j := 0 to |row|
      invariant rowData == Map(row[..j], CellRecordOf)
    {
      MapPrefix(row, j, CellRecordOf);
      var cell := row[j];
      var paras := CollectParagraphs(cell.paragraphs);
      rowData := rowData + [CellRecord(Trim(cell.text), paras)];
    }
    assert row[..|row|] == row;
  }

  method BuildTable(t: Table) returns (record: TableRecord)
    ensures record == TableRecordOf(t)
  {
    var style := if t.style.Some? then t.style.value else "Normal";
    var rows: seq<seq<CellRecord>> := [];
    for i := 0 to |t.rows|
      invariant rows == Map(t.rows[..i], RowRecordOf)
    {
      MapPrefix(t.rows, i, RowRecordOf);
      var rowData := BuildRow(t.rows[i]);
      rows := rows + [rowData];
    }
    assert t.rows[..|t.rows|] == t.rows;
    record := TableRecord(style, rows);
  }

  method ExtractTables(ts: seq<Table>) returns (tables: seq<TableRecord>)
    ensures tables == TableRecords(ts)
  {
    tables := [];
    for i := 0 to |ts|
      invariant tables == TableRecords(ts[..i])
    {
      assert ts[..i + 1][..i] == ts[..i];
      var record := BuildTable(ts[i]);
      if HasNonEmptyCell(record.rows) {
        tables := tables + [record];
      }
    }
    assert ts[..|ts|] == ts;
  }

  /** `extract_docx_content`: headers, then body paragraphs and lists, then tables. */
  method ExtractDocxContent(doc: Document, name: string) returns (content: Content)
    ensures content == Extract(doc, name)
  {
    var headers := ExtractHeaders(doc.sections);
    var paragraphs, lists := ExtractBody(doc.paragraphs);
    var tables := ExtractTables(doc.tables);
    content := Content(paragraphs, tables, headers, name, lists);
  }
}
