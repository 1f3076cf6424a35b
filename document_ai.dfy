/**
 * The OCR stage: the document returned by the OCR engine, the text-anchor
 * slicing that recovers the text of a layout element, and the flattening of
 * pages, paragraphs, entities and tables into the `extracted_data` record
 * stored with the document.
 */
module DocumentAi {
  import opened Wrappers
  import opened Text

  // ---------------------------------------------------------------------
  // The OCR engine's document, as far as the backend reads it
  // ---------------------------------------------------------------------

  /** One text segment of an anchor; an unset index reads as 0. */
  datatype Segment = Segment(startIndex: int, endIndex: int)

  /** A layout element: its text anchor (None when unset) and its confidence. */
  datatype Layout = Layout(textAnchor: Option<seq<Segment>>, confidence: real)

  datatype Dimension = Dimension(width: real, height: real, unit: string)

  /** A table: each body row is the list of its cells' layouts. */
  datatype Table = Table(bodyRows: seq<seq<Layout>>)

  datatype Page = Page(
    pageNumber: int,
    dimension: Dimension,
    blocks: seq<Layout>,
    paragraphs: seq<Layout>,
    tables: seq<Table>)

  datatype Entity = Entity(entityType: string, mentionText: string, confidence: real, normalizedValue: Option<string>)

  datatype OcrDocument = OcrDocument(text: string, pages: seq<Page>, entities: seq<Entity>)

  // ---------------------------------------------------------------------
  // The extracted data stored with a document
  // ---------------------------------------------------------------------

  datatype TextPiece = TextPiece(text: string, confidence: real)

  /** Per-page information; the stored `lines` and `tokens` lists are always empty. */
  datatype PageInfo = PageInfo(pageNumber: int, dimension: Dimension, blocks: seq<TextPiece>, paragraphs: seq<TextPiece>)

  /** A paragraph of the global list, tagged with its page number. */
  datatype Paragraph = Paragraph(text: string, page: int, confidence: real)

  datatype TableData = TableData(page: int, rows: seq<seq<string>>)

  datatype ExtractedData = ExtractedData(
    rawText: string,
    pages: seq<PageInfo>,
    entities: seq<Entity>,
    paragraphs: seq<Paragraph>,
    tables: seq<TableData>)

  // ---------------------------------------------------------------------
  // Text anchors
  // ---------------------------------------------------------------------

  /** The text of one segment: `text[start:end]`, an unset start reading 0 and an unset end the text's length. */
  function SegmentText(documentText: string, segment: Segment): string {
    var start := if segment.startIndex != 0 then segment.startIndex else 0;
    var end := if segment.endIndex != 0 then segment.endIndex else |documentText|;
    Slice(documentText, start, end)
  }

  /** The in-order concatenation of the segments' texts. */
  function AnchorText(documentText: string, segments: seq<Segment>): string {
    if segments == [] then ""
    else AnchorText(documentText, segments[..|segments| - 1]) + SegmentText(documentText, segments[|segments| - 1])
  }

  /** The text of a layout element; no anchor means no text. */
  function LayoutText(documentText: string, layout: Layout): string {
    match layout.textAnchor
    case None => ""
    case Some(segments) => AnchorText(documentText, segments)
  }

  /** `get_text_from_layout`: accumulates the segments' slices one after another. */
  method GetTextFromLayout(documentText: string, layout: Layout) returns (text: string)
    ensures text == LayoutText(documentText, layout)
    ensures layout.textAnchor.None? ==> text == ""
  {
    if layout.textAnchor.None? {
      return "";
    }
    var segments := layout.textAnchor.value;
    text := "";
    var i := 0;
    while i < |segments|
      invariant 0 <= i <= |segments|
      invariant text == AnchorText(documentText, segments[..i])
    {
      assert segments[..i + 1][..i] == segments[..i];
      text := text + SegmentText(documentText, segments[i]);
      i := i + 1;
    }
    assert segments[..i] == segments;
  }

  /**
   * Each piece follows slice semantics: it is a contiguous piece of the text,
   * empty once the normalised start reaches the normalised end, and a segment
   * whose indices are both unset covers the whole text.
   */
  lemma SegmentTextIsSlice(documentText: string, segment: Segment)
    ensures exists a, b | 0 <= a <= b <= |documentText| :: SegmentText(documentText, segment) == documentText[a..b]
    ensures segment.endIndex == 0 ==> SegmentText(documentText, segment) == Slice(documentText, segment.startIndex, |documentText|)
    ensures segment == Segment(0, 0) ==> SegmentText(documentText, segment) == documentText
    ensures SliceBound(segment.startIndex, |documentText|) >= |documentText| ==> SegmentText(documentText, segment) == ""
  {
    var start := if segment.startIndex != 0 then segment.startIndex else 0;
    var end := if segment.endIndex != 0 then segment.endIndex else |documentText|;
    SliceIsSubstring(documentText, start, end);
  }

  /** The text of an anchor splits along any split of its segment list. */
  lemma {:induction false} AnchorTextAppend(documentText: string, a: seq<Segment>, b: seq<Segment>)
    ensures AnchorText(documentText, a + b) == AnchorText(documentText, a) + AnchorText(documentText, b)
  {
    if b == [] {
      assert a + b == a;
    } else {
      var init := b[..|b| - 1];
      var last := b[|b| - 1];
      assert (a + b)[..|a + b| - 1] == a + init;
      assert (a + b)[|a + b| - 1] == last;
      calc {
        AnchorText(documentText, a + b);
        AnchorText(documentText, a + init) + SegmentText(documentText, last);
        { AnchorTextAppend(documentText, a, init); }
        AnchorText(documentText, a) + AnchorText(documentText, init) + SegmentText(documentText, last);
        AnchorText(documentText, a) + AnchorText(documentText, b);
      }
    }
  }

  // ---------------------------------------------------------------------
  // Flattening the OCR document
  // ---------------------------------------------------------------------

  /** Text and confidence of each layout element. */
  function Pieces(documentText: string, layouts: seq<Layout>): seq<TextPiece> {
    if layouts == [] then []
    else (Pieces(documentText, layouts[..|layouts| - 1])
      + [TextPiece(LayoutText(documentText, layouts[|layouts| - 1]), layouts[|layouts| - 1].confidence)])
  }

  function PageInfoOf(documentText: string, page: Page): PageInfo {
    PageInfo(page.pageNumber, page.dimension, Pieces(documentText, page.blocks), Pieces(documentText, page.paragraphs))
  }

  function PageInfos(documentText: string, pages: seq<Page>): seq<PageInfo> {
    if pages == [] then []
    else (PageInfos(documentText, pages[..|pages| - 1]) + [PageInfoOf(documentText, pages[|pages| - 1])])
  }

  /** One page's paragraphs, each tagged with the page's number. */
  function PageParagraphs(documentText: string, layouts: seq<Layout>, pageNumber: int): seq<Paragraph> {
    if layouts == [] then []
    else (PageParagraphs(documentText, layouts[..|layouts| - 1], pageNumber)
      + [Paragraph(LayoutText(documentText, layouts[|layouts| - 1]), pageNumber, layouts[|layouts| - 1].confidence)])
  }

  /** The global paragraph list: every page's paragraphs, page after page. */
  function AllParagraphs(documentText: string, pages: seq<Page>): seq<Paragraph> {
    if pages == [] then []
    else (AllParagraphs(documentText, pages[..|pages| - 1])
      + PageParagraphs(documentText, pages[|pages| - 1].paragraphs, pages[|pages| - 1].pageNumber))
  }

  /** One table row: its cells' texts with surrounding whitespace stripped. */
  function RowCells(documentText: string, cells: seq<Layout>): seq<string> {
    if cells == [] then []
    else (RowCells(documentText, cells[..|cells| - 1]) + [Strip(LayoutText(documentText, cells[|cells| - 1]))])
  }

  function TableRows(documentText: string, rows: seq<seq<Layout>>): seq<seq<string>> {
    if rows == [] then []
    else (TableRows(documentText, rows[..|rows| - 1]) + [RowCells(documentText, rows[|rows| - 1])])
  }

  function PageTables(documentText: string, tables: seq<Table>, pageNumber: int): seq<TableData> {
    if tables == [] then []
    else (PageTables(documentText, tables[..|tables| - 1], pageNumber)
      + [TableData(pageNumber, TableRows(documentText, tables[|tables| - 1].bodyRows))])
  }

  /** Every page's tables, page after page. */
  function AllTables(documentText: string, pages: seq<Page>): seq<TableData> {
    if pages == [] then []
    else (AllTables(documentText, pages[..|pages| - 1])
      + PageTables(documentText, pages[|pages| - 1].tables, pages[|pages| - 1].pageNumber))
  }

  /** The `extracted_data` record built from an OCR document. */
  function Extraction(document: OcrDocument): ExtractedData {
    ExtractedData(
      document.text,
      PageInfos(document.text, document.pages),
      document.entities,
      AllParagraphs(document.text, document.pages),
      AllTables(document.text, document.pages))
  }

  /** The stored OCR confidence: that of the first block of the first page, else 0.0. */
  function OcrConfidence(document: OcrDocument): (r: real)
    ensures |document.pages| > 0 && |document.pages[0].blocks| > 0 ==> r == document.pages[0].blocks[0].confidence
    ensures (|document.pages| == 0 || |document.pages[0].blocks| == 0) ==> r == 0.0
  {
    if |document.pages| > 0 && |document.pages[0].blocks| > 0 then document.pages[0].blocks[0].confidence else 0.0
  }

  method ExtractPieces(documentText: string, layouts: seq<Layout>) returns (pieces: seq<TextPiece>)
    ensures pieces == Pieces(documentText, layouts)
  {
    pieces := [];
    var i := 0;
    while i < |layouts|
      invariant 0 <= i <= |layouts|
      invariant pieces == Pieces(documentText, layouts[..i])
    {
      assert layouts[..i + 1][..i] == layouts[..i];
      var text := GetTextFromLayout(documentText, layouts[i]);
      pieces := pieces + [TextPiece(text, layouts[i].confidence)];
      i := i + 1;
    }
    assert layouts[..i] == layouts;
  }

  method ExtractTable(documentText: string, table: Table, pageNumber: int) returns (data: TableData)
    ensures data == TableData(pageNumber, TableRows(documentText, table.bodyRows))
  {
    var rows: seq<seq<string>> := [];
    var r := 0;
    while r < |table.bodyRows|
      invariant 0 <= r <= |table.bodyRows|
      invariant rows == TableRows(documentText, table.bodyRows[..r])
    {
      assert table.bodyRows[..r + 1][..r] == table.bodyRows[..r];
      var cells := table.bodyRows[r];
      var rowData: seq<string> := [];
      var c := 0;
      while c < |cells|
        invariant 0 <= c <= |cells|
        invariant rowData == RowCells(documentText, cells[..c])
      {
        assert cells[..c + 1][..c] == cells[..c];
        var cellText := GetTextFromLayout(documentText, cells[c]);
        rowData := rowData + [Strip(cellText)];
        c := c + 1;
      }
      assert cells[..c] == cells;
      rows := rows + [rowData];
      r := r + 1;
    }
    assert table.bodyRows[..r] == table.bodyRows;
    data := TableData(pageNumber, rows);
  }

  /** One page's paragraphs, as text pieces for the page summary and as tagged paragraphs for the global list. */
  method ExtractParagraphs(documentText: string, page: Page) returns (pieces: seq<TextPiece>, paragraphs: seq<Paragraph>)
    ensures pieces == Pieces(documentText, page.paragraphs)
    ensures paragraphs == PageParagraphs(documentText, page.paragraphs, page.pageNumber)
  {
    pieces := [];
    paragraphs := [];
    var k := 0;
    while k < |page.paragraphs|
      invariant 0 <= k <= |page.paragraphs|
      invariant pieces == Pieces(documentText, page.paragraphs[..k])
      invariant paragraphs == PageParagraphs(documentText, page.paragraphs[..k], page.pageNumber)
    {
      assert page.paragraphs[..k + 1][..k] == page.paragraphs[..k];
      var paraText := GetTextFromLayout(documentText, page.paragraphs[k]);
      var confidence := page.paragraphs[k].confidence;
      pieces := pieces + [TextPiece(paraText, confidence)];
      paragraphs := paragraphs + [Paragraph(paraText, page.pageNumber, confidence)];
      k := k + 1;
    }
    assert page.paragraphs[..k] == page.paragraphs;
  }

  /** The per-page loop: each page's summary, and the global paragraph list. */
  method ExtractPages(documentText: string, pages: seq<Page>) returns (pageInfos: seq<PageInfo>, paragraphs: seq<Paragraph>)
    ensures pageInfos == PageInfos(documentText, pages)
    ensures paragraphs == AllParagraphs(documentText, pages)
  {
    pageInfos := [];
    paragraphs := [];
    var p := 0;
    while p < |pages|
      invariant 0 <= p <= |pages|
      invariant pageInfos == PageInfos(documentText, pages[..p])
      invariant paragraphs == AllParagraphs(documentText, pages[..p])
    {
      assert pages[..p + 1][..p] == pages[..p];
      var page := pages[p];
      var blocks := ExtractPieces(documentText, page.blocks);
      var pagePieces, pageParagraphs := ExtractParagraphs(documentText, page);
      paragraphs := paragraphs + pageParagraphs;
      pageInfos := pageInfos + [PageInfo(page.pageNumber, page.dimension, blocks, pagePieces)];
      p := p + 1;
    }
    assert pages[..p] == pages;
  }

  /** One page's tables, each tagged with the page's number. */
  method ExtractPageTables(documentText: string, page: Page) returns (pageTables: seq<TableData>)
    ensures pageTables == PageTables(documentText, page.tables, page.pageNumber)
  {
    pageTables := [];
    var t := 0;
    while t < |page.tables|
      invariant 0 <= t <= |page.tables|
      invariant pageTables == PageTables(documentText, page.tables[..t], page.pageNumber)
    {
      assert page.tables[..t + 1][..t] == page.tables[..t];
      assert PageTables(documentText, page.tables[..t + 1], page.pageNumber)
        == PageTables(documentText, page.tables[..t], page.pageNumber)
          + [TableData(page.pageNumber, TableRows(documentText, page.tables[t].bodyRows))];
      var tableData := ExtractTable(documentText, page.tables[t], page.pageNumber);
      pageTables := pageTables + [tableData];
      t := t + 1;
    }
    assert page.tables[..t] == page.tables;
  }

  /** The table loop: every page's tables, page after page. */
  method ExtractTables(documentText: string, pages: seq<Page>) returns (tables: seq<TableData>)
    ensures tables == AllTables(documentText, pages)
  {
    tables := [];
    var p := 0;
    while p < |pages|
      invariant 0 <= p <= |pages|
      invariant tables == AllTables(documentText, pages[..p])
    {
      assert pages[..p + 1][..p] == pages[..p];
      var pageTables := ExtractPageTables(documentText, pages[p]);
      tables := tables + pageTables;
      p := p + 1;
    }
    assert pages[..p] == pages;
  }

  /**
   * The extraction loops of the OCR handler: per page its blocks and
   * paragraphs (each paragraph also appended to the global list), then the
   * entities, then every page's tables.
   */
  method Extract(document: OcrDocument) returns (data: ExtractedData)
    ensures data == Extraction(document)
  {
    var pageInfos, paragraphs := ExtractPages(document.text, document.pages);
    var entities: seq<Entity> := [];
    var e := 0;
    while e < |document.entities|
      invariant 0 <= e <= |document.entities|
      invariant entities == document.entities[..e]
    {
      entities := entities + [document.entities[e]];
      e := e + 1;
    }
    assert entities == document.entities;
    var tables := ExtractTables(document.text, document.pages);
    data := ExtractedData(document.text, pageInfos, entities, paragraphs, tables);
  }

  // ---------------------------------------------------------------------
  // Properties of the flattening
  // ---------------------------------------------------------------------

  /** One page's paragraph list has one entry per paragraph, carrying the page's number. */
  lemma {:induction false} PageParagraphsShape(documentText: string, layouts: seq<Layout>, pageNumber: int)
    ensures |PageParagraphs(documentText, layouts, pageNumber)| == |layouts|
    ensures forall i | 0 <= i < |layouts| ::
      PageParagraphs(documentText, layouts, pageNumber)[i]
        == Paragraph(LayoutText(documentText, layouts[i]), pageNumber, layouts[i].confidence)
  {
    if layouts != [] {
      var init := layouts[..|layouts| - 1];
      PageParagraphsShape(documentText, init, pageNumber);
      var prev := PageParagraphs(documentText, init, pageNumber);
      var r := PageParagraphs(documentText, layouts, pageNumber);
      var lastLayout := layouts[|layouts| - 1];
      var lastParagraph := Paragraph(LayoutText(documentText, lastLayout), pageNumber, lastLayout.confidence);
      assert r == prev + [lastParagraph];
      forall i | 0 <= i < |layouts|
        ensures r[i] == Paragraph(LayoutText(documentText, layouts[i]), pageNumber, layouts[i].confidence)
      {
        if i < |init| {
          assert r[i] == prev[i];
          assert init[i] == layouts[i];
        } else {
          assert i == |layouts| - 1;
          assert r[i] == lastParagraph;
        }
      }
    }
  }

  /** The global paragraph list splits along any split of the page list: page order is kept. */
  lemma {:induction false} AllParagraphsAppend(documentText: string, a: seq<Page>, b: seq<Page>)
    ensures AllParagraphs(documentText, a + b) == AllParagraphs(documentText, a) + AllParagraphs(documentText, b)
  {
    if b == [] {
      assert a + b == a;
    } else {
      var init := b[..|b| - 1];
      var last := b[|b| - 1];
      assert (a + b)[..|a + b| - 1] == a + init;
      assert (a + b)[|a + b| - 1] == last;
      calc {
        AllParagraphs(documentText, a + b);
        AllParagraphs(documentText, a + init) + PageParagraphs(documentText, last.paragraphs, last.pageNumber);
        { AllParagraphsAppend(documentText, a, init); }
        AllParagraphs(documentText, a) + AllParagraphs(documentText, init)
          + PageParagraphs(documentText, last.paragraphs, last.pageNumber);
        AllParagraphs(documentText, a) + AllParagraphs(documentText, b);
      }
    }
  }

  /** Every paragraph of the global list carries the number of a page it came from. */
  lemma {:induction false} AllParagraphsPages(documentText: string, pages: seq<Page>)
    ensures forall q | q in AllParagraphs(documentText, pages) :: exists pg | pg in pages :: q.page == pg.pageNumber
  {
    if pages != [] {
      var init := pages[..|pages| - 1];
      var last := pages[|pages| - 1];
      AllParagraphsPages(documentText, init);
      PageParagraphsShape(documentText, last.paragraphs, last.pageNumber);
      forall q | q in AllParagraphs(documentText, pages)
        ensures exists pg | pg in pages :: q.page == pg.pageNumber
      {
        if q in AllParagraphs(documentText, init) {
          var pg :| pg in init && q.page == pg.pageNumber;
          assert pg in pages;
        } else {
          assert q in PageParagraphs(documentText, last.paragraphs, last.pageNumber);
          assert q.page == last.pageNumber;
        }
      }
    }
  }

  /** A row has one text per cell: the stripped text of that cell. */
  lemma {:induction false} RowCellsShape(documentText: string, cells: seq<Layout>)
    ensures |RowCells(documentText, cells)| == |cells|
    ensures forall i | 0 <= i < |cells| :: RowCells(documentText, cells)[i] == Strip(LayoutText(documentText, cells[i]))
  {
    if cells != [] {
      var init := cells[..|cells| - 1];
      RowCellsShape(documentText, init);
      var prev := RowCells(documentText, init);
      var r := RowCells(documentText, cells);
      var lastText := Strip(LayoutText(documentText, cells[|cells| - 1]));
      assert r == prev + [lastText];
      forall i | 0 <= i < |cells| ensures r[i] == Strip(LayoutText(documentText, cells[i])) {
        if i < |init| {
          assert r[i] == prev[i];
          assert init[i] == cells[i];
        } else {
          assert i == |cells| - 1;
          assert r[i] == lastText;
        }
      }
    }
  }

  /** No cell text of a row starts or ends with whitespace. */
  lemma RowCellsStripped(documentText: string, cells: seq<Layout>)
    ensures forall t | t in RowCells(documentText, cells) :: t == [] || (!IsSpace(t[0]) && !IsSpace(t[|t| - 1]))
  {
    RowCellsShape(documentText, cells);
    forall t | t in RowCells(documentText, cells)
      ensures t == [] || (!IsSpace(t[0]) && !IsSpace(t[|t| - 1]))
    {
      var i :| 0 <= i < |cells| && RowCells(documentText, cells)[i] == t;
      StripTrimmed(LayoutText(documentText, cells[i]));
    }
  }
}
