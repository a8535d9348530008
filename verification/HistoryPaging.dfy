/**
  History pages (src/terminal_engine.rs, src/terminal_state_v2.rs): each request names
  an anchor and gets the rows just before it.
 */
module HistoryPaging {
  import opened Basics
  import opened TerminalState
  import opened HistoryExport
  import opened ProtobufWire
  import opened StateWire

  const MAX_HISTORY_PAGE_ROWS: nat := 512
  const MAX_ENCODED_HISTORY_PAGE_BYTES: nat := 4194304

  /** The configured capacity of the history. */
  datatype Limits = Limits(rows: nat, bytes: nat)

  /** The engine's primary screen: history rows, which take `bytes`, followed by the viewport. */
  datatype View = View(epoch: Epoch, generation: nat, cols: nat, rows: nat, lines: seq<Line>, viewportStart: nat,
                       bytes: nat, limits: Limits)

  predicate WithinCapacity(v: View) {
    v.viewportStart <= v.limits.rows && v.bytes <= v.limits.bytes
  }

  datatype Request = Request(epoch: Epoch, before: Option<Anchor>, maximumRows: nat)

  datatype Page = Page(requestId: nat, epoch: Epoch, generation: nat, cols: nat, rows: seq<Row>,
                       oldest: Option<Anchor>, newest: Option<Anchor>,
                       includedStart: Option<Anchor>, includedEnd: Option<Anchor>,
                       styles: seq<Style>, links: seq<Hyperlink>, moreBefore: bool, resetRequired: bool)

  predicate ValidRequest(q: Request) {
    ValidAnchor(q.before) && 1 <= q.maximumRows <= MAX_HISTORY_PAGE_ROWS
  }

  /** The page on the wire.  An epoch has sixteen bytes; which ones does not matter here. */
  function EncodePage(p: Page): Bytes {
    UintField(1, p.requestId) + BytesField(2, seq(16, _ => 0 as byte)) + UintField(3, p.generation)
    + UintField(4, p.cols) + EncodeRows(p.rows) + OptionalAnchor(6, p.oldest) + OptionalAnchor(7, p.newest)
    + OptionalAnchor(8, p.includedStart) + OptionalAnchor(9, p.includedEnd) + EncodeStyles(p.styles)
    + EncodeLinks(p.links) + BoolField(12, p.moreBefore) + BoolField(13, p.resetRequired)
  }

  predicate FitsWire(p: Page) {
    |EncodePage(p)| <= MAX_ENCODED_HISTORY_PAGE_BYTES
  }

  predicate ValidPage(p: Page, single: Segmentation) {
    && p.requestId > 0 && p.generation > 0 && 1 <= p.cols <= MAX_DIMENSION && FitsWire(p)
    && ValidAnchor(p.oldest) && ValidAnchor(p.newest) && AnchorAtMost(p.oldest.value, p.newest.value)
    && if p.resetRequired then Bare(p)
       else
         && |p.rows| <= MAX_HISTORY_PAGE_ROWS
         && if p.rows == [] then Bare(p)
            else
              && ValidAnchor(p.includedStart) && ValidAnchor(p.includedEnd)
              && AnchorAtMost(p.oldest.value, p.includedStart.value)
              && AnchorAtMost(p.includedStart.value, p.includedEnd.value)
              && AnchorAtMost(p.includedEnd.value, p.newest.value)
              && p.rows[0].start == p.includedStart && p.rows[|p.rows| - 1].start == p.includedEnd
              && p.moreBefore == AnchorLess(p.oldest.value, p.includedStart.value)
              && ValidTables(p.styles, p.links)
              && ValidRows(p.rows, p.cols, p.generation, p.styles, p.links)
              && (forall i :: 0 <= i < |p.rows| ==> SingleTexts(p.rows[i].cells, single))
              && CellCount(p.rows) <= MAX_CELLS
  }

  predicate Bare(p: Page) {
    && p.rows == [] && p.includedStart == None && p.includedEnd == None
    && p.styles == [] && p.links == [] && !p.moreBefore
  }

  /** The first row at or after the anchor, searching from i. */
  function Position(lines: seq<Line>, before: Anchor, i: nat): (p: nat)
    requires i <= |lines|
    ensures i <= p <= |lines|
    ensures forall j :: i <= j < p ==> AnchorLess(lines[j].anchor, before)
    ensures p < |lines| ==> !AnchorLess(lines[p].anchor, before)
    decreases |lines| - i
  {
    if i == |lines| || !AnchorLess(lines[i].anchor, before) then i else Position(lines, before, i + 1)
  }

  function PageEnd(v: View, before: Anchor): nat {
    var p := Position(v.lines, before, 0);
    if p < v.viewportStart then p else v.viewportStart
  }

  function PageStart(end: nat, maximumRows: nat): nat {
    if maximumRows <= end then end - maximumRows else 0
  }

  function ResetPage(v: View, requestId: nat): Page
    requires v.lines != []
  {
    Page(requestId, v.epoch, v.generation, v.cols, [], Some(v.lines[0].anchor), Some(v.lines[|v.lines| - 1].anchor),
         None, None, [], [], false, true)
  }

  function SlicePage(v: View, requestId: nat, start: nat, rows: seq<Row>, t: Tables): Page
    requires v.lines != []
  {
    Page(requestId, v.epoch, v.generation, v.cols, rows, Some(v.lines[0].anchor), Some(v.lines[|v.lines| - 1].anchor),
         if rows == [] then None else rows[0].start, if rows == [] then None else rows[|rows| - 1].start,
         t.styles, t.links, start > 0, false)
  }

  /** `history_page`: None stands for every error. */
  function HistoryPage(v: View, requestId: nat, q: Request, single: Segmentation): Option<Page> {
    if requestId == 0 || !ValidRequest(q) || v.rows == 0 || v.viewportStart + v.rows != |v.lines|
       || !WithinCapacity(v) then None
    else if q.epoch != v.epoch then
      var page := ResetPage(v, requestId);
      if ValidPage(page, single) then Some(page) else None
    else
      var end := PageEnd(v, q.before.value);
      var start := PageStart(end, q.maximumRows);
      var rows := EMPTY_TABLES.ExportLines(v.lines[start..end], v.cols, v.generation);
      if rows.None? then None
      else
        var page := SlicePage(v, requestId, start, rows.value.1, rows.value.0);
        if ValidPage(page, single) then Some(page) else None
  }

  // ---------------------------------------------------------------- a single page

  predicate Follows(a: Line, b: Line, cols: nat) {
    && AnchorLess(a.anchor, b.anchor)
    && (if a.wrapped then b.anchor.line == a.anchor.line && b.anchor.offset == a.anchor.offset + cols
        else a.anchor.line < b.anchor.line)
  }

  /** What the engine promises about its rows. */
  predicate ViewOk(v: View) {
    && v.generation > 0 && 1 <= v.cols <= MAX_DIMENSION && v.rows > 0
    && v.viewportStart + v.rows == |v.lines|
    && (forall i :: 0 <= i < |v.lines| ==> LineOk(v.lines[i], v.generation))
    && (forall i :: 1 <= i < |v.lines| ==> Follows(v.lines[i - 1], v.lines[i], v.cols))
  }

  lemma {:induction false} LinesAscend(v: View, i: nat, j: nat)
    requires ViewOk(v) && i < j < |v.lines|
    ensures AnchorLess(v.lines[i].anchor, v.lines[j].anchor)
    decreases j
  {
    assert Follows(v.lines[j - 1], v.lines[j], v.cols);
    if i < j - 1 {
      LinesAscend(v, i, j - 1);
    }
  }

  /** What the receiver reads from a row and from a page. */
  function ReadRow(t: Tables, row: Row): Line
    requires row.start.Some?
  {
    Line(row.start.value, row.version, ReadCells(t, row.cells), row.wrapped)
  }

  predicate Anchored(p: Page) {
    forall i :: 0 <= i < |p.rows| ==> p.rows[i].start.Some?
  }

  function ReadPage(p: Page): seq<Line>
    requires Anchored(p)
  {
    seq(|p.rows|, i requires 0 <= i < |p.rows| => ReadRow(Tables(map[], p.styles, map[], p.links), p.rows[i]))
  }

  /** What there is to see of engine rows. */
  function Shown(lines: seq<Line>, cols: nat): seq<Line> {
    seq(|lines|, i requires 0 <= i < |lines| => lines[i].(glyphs := Kept(lines[i].glyphs, cols)))
  }

  predicate TablesSuffice(lines: seq<Line>, cols: nat) {
    && |LineStyles(EMPTY_TABLES, lines, cols)| <= MAX_STYLES
    && |LineLinks(EMPTY_TABLES, lines, cols)| <= MAX_HYPERLINKS
  }

  predicate PageFor(v: View, requestId: nat, start: nat, end: nat, page: Page, single: Segmentation)
    requires start <= end <= |v.lines|
  {
    && ValidPage(page, single) && page.requestId == requestId && page.epoch == v.epoch && !page.resetRequired
    && Anchored(page) && ReadPage(page) == Shown(v.lines[start..end], v.cols)
    && page.moreBefore == (start > 0)
    && (start < end ==> page.includedStart == Some(v.lines[start].anchor))
  }

  lemma EmptyTablesOk()
    ensures TablesOk(EMPTY_TABLES)
  {
  }

  lemma {:induction false} CellsAtMost(rows: seq<Row>, cols: nat)
    requires forall i :: 0 <= i < |rows| ==> |rows[i].cells| <= cols
    ensures CellCount(rows) <= Times(|rows|, cols)
  {
    if rows != [] {
      CellsAtMost(rows[1..], cols);
    }
  }

  predicate RowMatches(row: Row, line: Line) {
    row.start == Some(line.anchor) && row.wrapped == line.wrapped
  }

  lemma RowValid(t: Tables, row: Row, line: Line, cols: nat, generation: nat, single: Segmentation)
    requires TablesOk(t) && Stands(t, row, line, cols) && LineOk(line, generation)
    ensures RowMatches(row, line) && 0 < row.version <= generation && line.anchor.line != 0 && |row.cells| <= cols
    ensures ValidCells(row.cells, cols, t.styles, t.links) && SingleTexts(row.cells, single)
            <==> TextsSendable(line.glyphs, cols, single)
  {
    hide TablesOk, ValidCells, Kept, ReadCells, GlyphsOk, SingleTexts, ShortTexts, TextsSendable;
    CellsValid(t, row.cells, line.glyphs, cols);
    TextsRead(t, row.cells, line.glyphs, cols, single);
  }

  predicate ExportValid(v: View, t: Tables, rows: seq<Row>, single: Segmentation) {
    && ValidRows(rows, v.cols, v.generation, t.styles, t.links) && ValidTables(t.styles, t.links)
    && (forall i :: 0 <= i < |rows| ==> SingleTexts(rows[i].cells, single))
  }

  /** The rows and tables of a page are valid exactly if all of its cells can be sent. */
  lemma RowsValid(v: View, start: nat, end: nat, t: Tables, rows: seq<Row>, single: Segmentation)
    requires ViewOk(v) && start <= end <= |v.lines|
    requires ExportedLines(EMPTY_TABLES, v.lines[start..end], v.cols, t, rows)
    ensures ExportValid(v, t, rows, single) <==> AllSendable(v.lines[start..end], v.cols, single)
    ensures CellCount(rows) <= Times(|rows|, v.cols)
  {
    hide TablesOk, ValidCells, ValidTables, LineStyles, LineLinks, Stands, LineOk, SingleTexts, TextsSendable,
      AllSendable, LinksSendable, CellCount;
    var lines := v.lines[start..end];
    TablesValid(t);
    SendableParts(lines, v.cols, single);
    forall i | 0 <= i < |rows|
      ensures RowMatches(rows[i], lines[i]) && 0 < rows[i].version <= v.generation && lines[i].anchor.line != 0
      ensures |rows[i].cells| <= v.cols
      ensures ValidCells(rows[i].cells, v.cols, t.styles, t.links) && SingleTexts(rows[i].cells, single)
              <==> TextsSendable(lines[i].glyphs, v.cols, single)
    {
      assert Stands(t, rows[i], lines[i], v.cols) && lines[i] == v.lines[start + i];
      RowValid(t, rows[i], lines[i], v.cols, v.generation, single);
    }
    forall i | 1 <= i < |rows| ensures Follows(lines[i - 1], lines[i], v.cols) {
      assert Follows(v.lines[start + i - 1], v.lines[start + i], v.cols);
    }
    CellsAtMost(rows, v.cols);
  }

  lemma SliceValid(v: View, requestId: nat, start: nat, end: nat, t: Tables, rows: seq<Row>, single: Segmentation)
    requires ViewOk(v) && requestId > 0 && start <= end <= |v.lines| && end - start <= MAX_HISTORY_PAGE_ROWS
    requires start == end ==> start == 0
    requires ExportedLines(EMPTY_TABLES, v.lines[start..end], v.cols, t, rows)
    ensures var page := SlicePage(v, requestId, start, rows, t);
            if FitsWire(page) && AllSendable(v.lines[start..end], v.cols, single)
            then PageFor(v, requestId, start, end, page, single) else !ValidPage(page, single)
  {
    hide TablesOk, ValidTables, ValidRows, LineStyles, LineLinks, CellCount, GlyphsOk, Kept, FitsWire, AllSendable,
      SingleTexts, Times;
    RowsValid(v, start, end, t, rows, single);
    RowsBound(|rows|, v.cols);
    var page := SlicePage(v, requestId, start, rows, t);
    Available(v, start, end);
    forall i | 0 <= i < |rows| ensures rows[i].start == Some(v.lines[start + i].anchor) {
      assert Stands(t, rows[i], v.lines[start..end][i], v.cols);
    }
    if rows == [] {
      NoTables(t, v.lines[start..end], v.cols);
      NothingToSend(v.lines[start..end], v.cols, single);
    }
    ReadsSlice(v, start, end, t, rows, page);
  }

  lemma NothingToSend(lines: seq<Line>, cols: nat, single: Segmentation)
    requires lines == []
    ensures AllSendable(lines, cols, single)
  {
  }

  lemma RowsBound(n: nat, cols: nat)
    requires n <= MAX_HISTORY_PAGE_ROWS && cols <= MAX_DIMENSION
    ensures Times(n, cols) <= MAX_CELLS
  {
    TimesGrows(n, MAX_HISTORY_PAGE_ROWS, cols, MAX_DIMENSION);
    TimesIs(MAX_HISTORY_PAGE_ROWS, MAX_DIMENSION);
  }

  lemma Available(v: View, start: nat, end: nat)
    requires ViewOk(v) && start <= end <= |v.lines|
    ensures AnchorAtMost(v.lines[0].anchor, v.lines[|v.lines| - 1].anchor)
    ensures v.lines[0].anchor.line != 0 && v.lines[|v.lines| - 1].anchor.line != 0
    ensures start < end ==>
              && AnchorAtMost(v.lines[0].anchor, v.lines[start].anchor)
              && AnchorAtMost(v.lines[start].anchor, v.lines[end - 1].anchor)
              && AnchorAtMost(v.lines[end - 1].anchor, v.lines[|v.lines| - 1].anchor)
              && (AnchorLess(v.lines[0].anchor, v.lines[start].anchor) <==> start > 0)
              && v.lines[start].anchor.line != 0 && v.lines[end - 1].anchor.line != 0
  {
    var n := |v.lines|;
    assert LineOk(v.lines[0], v.generation) && LineOk(v.lines[n - 1], v.generation);
    if n > 1 { LinesAscend(v, 0, n - 1); }
    if start < end {
      assert LineOk(v.lines[start], v.generation) && LineOk(v.lines[end - 1], v.generation);
      if 0 < start { LinesAscend(v, 0, start); }
      if start < end - 1 { LinesAscend(v, start, end - 1); }
      if end < n { LinesAscend(v, end - 1, n - 1); }
    }
  }

  lemma NoTables(t: Tables, lines: seq<Line>, cols: nat)
    requires lines == [] && TablesOk(t)
    requires t.styleIds.Keys == LineStyles(EMPTY_TABLES, lines, cols)
    requires t.linkIds.Keys == LineLinks(EMPTY_TABLES, lines, cols)
    ensures t.styles == [] && t.links == []
  {
    IndexedSize(t.styleIds, StyleKeys(t.styles));
    IndexedSize(t.linkIds, LinkKeys(t.links));
  }

  lemma ReadsSlice(v: View, start: nat, end: nat, t: Tables, rows: seq<Row>, page: Page)
    requires start <= end <= |v.lines| && Anchored(page) && page.rows == rows
    requires page.styles == t.styles && page.links == t.links && |rows| == end - start
    requires forall i :: 0 <= i < |rows| ==> Stands(t, rows[i], v.lines[start..end][i], v.cols)
    ensures ReadPage(page) == Shown(v.lines[start..end], v.cols)
  {
    hide Kept;
    forall i | 0 <= i < |rows| ensures ReadPage(page)[i] == Shown(v.lines[start..end], v.cols)[i] {
      assert Stands(t, rows[i], v.lines[start..end][i], v.cols);
      assert ReadCells(Tables(map[], page.styles, map[], page.links), rows[i].cells) == ReadCells(t, rows[i].cells);
    }
  }

  /** The page before it is validated; None if a table is full. */
  function DraftPage(v: View, requestId: nat, start: nat, end: nat): Option<Page>
    requires start <= end <= |v.lines| && v.lines != []
  {
    var rows := EMPTY_TABLES.ExportLines(v.lines[start..end], v.cols, v.generation);
    if rows.None? then None else Some(SlicePage(v, requestId, start, rows.value.1, rows.value.0))
  }

  /**
    A page request succeeds if and only if the history is within its capacity, the page's styles and
    hyperlinks fit their tables, every cell it sends has a text and a link that the wire accepts, and
    its encoding fits the wire limit.  The page is then valid and reads back as the rows just before
    the requested anchor.
   */
  lemma PageOk(v: View, requestId: nat, q: Request, single: Segmentation)
    requires ViewOk(v) && requestId > 0 && ValidRequest(q) && q.epoch == v.epoch
    ensures var end := PageEnd(v, q.before.value);
            var start := PageStart(end, q.maximumRows);
            var page := HistoryPage(v, requestId, q, single);
            && start <= end <= |v.lines|
            && var lines, draft := v.lines[start..end], DraftPage(v, requestId, start, end);
            && (draft.Some? <==> TablesSuffice(lines, v.cols))
            && (page.Some? <==>
                  && WithinCapacity(v) && TablesSuffice(lines, v.cols)
                  && AllSendable(lines, v.cols, single) && FitsWire(draft.value))
            && (page.Some? ==> page == draft && PageFor(v, requestId, start, end, page.value, single))
  {
    hide PageFor, ValidPage, Tables.ExportLines, ExportedLines, LineOk, Follows, LineStyles, LineLinks, PageEnd,
      FitsWire, AllSendable;
    EmptyTablesOk();
    PageEndBound(v, q.before.value);
    var end := PageEnd(v, q.before.value);
    var start := PageStart(end, q.maximumRows);
    ExportLinesOk(EMPTY_TABLES, v.lines[start..end], v.cols, v.generation);
    var rows := EMPTY_TABLES.ExportLines(v.lines[start..end], v.cols, v.generation);
    if rows.Some? {
      var page := SlicePage(v, requestId, start, rows.value.1, rows.value.0);
      SliceValid(v, requestId, start, end, rows.value.0, rows.value.1, single);
      if FitsWire(page) && AllSendable(v.lines[start..end], v.cols, single) {
        PageForIsValid(v, requestId, start, end, page, single);
      }
    }
  }

  lemma PageEndBound(v: View, before: Anchor)
    requires v.viewportStart <= |v.lines|
    ensures PageEnd(v, before) <= v.viewportStart
  {
  }

  lemma PageForIsValid(v: View, requestId: nat, start: nat, end: nat, page: Page, single: Segmentation)
    requires start <= end <= |v.lines| && PageFor(v, requestId, start, end, page, single)
    ensures ValidPage(page, single)
  {
  }

  // ---------------------------------------------------------------- how large a page can be

  /** The integers of the view have the widths of the engine's types. */
  predicate MachineView(v: View) {
    v.generation <= MAX_U64 && forall i :: 0 <= i < |v.lines| ==> SmallAnchor(v.lines[i].anchor)
  }

  /** Everything on a page besides rows and tables. */
  lemma PageFrame(p: Page)
    requires p.requestId <= MAX_U64 && p.generation <= MAX_U64 && p.cols <= MAX_DIMENSION
    requires p.oldest.Some? ==> SmallAnchor(p.oldest.value)
    requires p.newest.Some? ==> SmallAnchor(p.newest.value)
    requires p.includedStart.Some? ==> SmallAnchor(p.includedStart.value)
    requires p.includedEnd.Some? ==> SmallAnchor(p.includedEnd.value)
    ensures |EncodePage(p)| <= HEADER + |EncodeRows(p.rows)| + |EncodeStyles(p.styles)| + |EncodeLinks(p.links)|
  {
    hide UintField, BytesField, OptionalAnchor, EncodeRows, EncodeStyles, EncodeLinks;
    UintSmall(1, p.requestId);
    TextSmall(2, seq(16, _ => 0 as byte));
    UintSmall(3, p.generation);
    UintSmall(4, p.cols);
    AnchorSize(6, p.oldest);
    AnchorSize(7, p.newest);
    AnchorSize(8, p.includedStart);
    AnchorSize(9, p.includedEnd);
    UintSmall(12, if p.moreBefore then 1 else 0);
    UintSmall(13, if p.resetRequired then 1 else 0);
  }

  /** A request from an earlier epoch is answered by a valid page that only asks for a reset, capacity permitting. */
  lemma StaleRequestResets(v: View, requestId: nat, q: Request, single: Segmentation)
    requires ViewOk(v) && MachineView(v) && 0 < requestId <= MAX_U64 && ValidRequest(q) && q.epoch != v.epoch
    ensures HistoryPage(v, requestId, q, single) == if WithinCapacity(v) then Some(ResetPage(v, requestId)) else None
    ensures ResetPage(v, requestId).resetRequired
  {
    hide EncodePage, LineOk, Follows;
    Available(v, 0, 0);
    PageFrame(ResetPage(v, requestId));
  }

  /**
    No text that the lines send is longer than `text` bytes and no hyperlink longer than `link`
    bytes; whether the page validator accepts them is another matter.
   */
  predicate Sized(lines: seq<Line>, cols: nat, text: nat, link: nat) {
    forall i, j :: 0 <= i < |lines| && 0 <= j < |lines[i].glyphs| && Sent(lines[i].glyphs[j], cols) ==>
      SizedGlyph(lines[i].glyphs[j], text, link)
  }

  predicate SizedGlyph(g: Glyph, text: nat, link: nat) {
    |g.grapheme| <= text && (g.link.Some? ==> SizedLink(g.link.value, link))
  }

  predicate SizedLink(k: LinkKey, link: nat) {
    |k.uri| + |k.explicitId| <= link && |k.uri| <= LONGEST_URI && |k.explicitId| <= LONGEST_ID
  }

  /** A size estimate from what a caller knows: rows, columns, styles, links and their longest texts. */
  function Estimate(rows: nat, cols: nat, text: nat, styles: nat, links: nat, link: nat): nat {
    HEADER + Times(rows, ROW + Times(cols, CELL + text)) + Times(styles, STYLE) + Times(links, LINK + link)
  }

  lemma ReadBack(t: Tables, cells: seq<Cell>, gs: seq<Glyph>, cols: nat, i: nat)
    requires ReadCells(t, cells) == Kept(gs, cols) && i < |cells|
    ensures exists j :: 0 <= j < |gs| && Sent(gs[j], cols) && gs[j].grapheme == cells[i].grapheme
  {
    hide Kept, Sent;
    var g := ReadCells(t, cells)[i];
    assert g in Kept(gs, cols);
    KeptIsSent(gs, cols, g);
    var j :| 0 <= j < |gs| && gs[j] == g;
  }

  lemma RowIsSmall(t: Tables, row: Row, line: Line, cols: nat, generation: nat, text: nat)
    requires TablesOk(t) && Stands(t, row, line, cols) && LineOk(line, generation) && generation <= MAX_U64
    requires SmallAnchor(line.anchor) && cols <= MAX_DIMENSION
    requires forall j :: 0 <= j < |line.glyphs| && Sent(line.glyphs[j], cols) ==> |line.glyphs[j].grapheme| <= text
    ensures SmallRow(row, cols, text)
  {
    hide Kept, ReadCells, Indexed, Sent, GlyphsOk;
    CellsLaid(t, row.cells, line.glyphs, cols);
    forall i | 0 <= i < |row.cells| ensures SmallCell(row.cells[i], text) {
      ReadBack(t, row.cells, line.glyphs, cols, i);
      assert Resolves(t, row.cells[i]);
    }
  }

  lemma LinksAreSmall(t: Tables, lines: seq<Line>, cols: nat, text: nat, link: nat)
    requires TablesOk(t) && t.linkIds.Keys == LineLinks(EMPTY_TABLES, lines, cols) && Sized(lines, cols, text, link)
    ensures forall i :: 0 <= i < |t.links| ==> SmallLink(t.links[i], link)
  {
    hide LineLinks, Sent;
    forall i | 0 <= i < |t.links| ensures SmallLink(t.links[i], link) {
      var k := LinkKeys(t.links)[i];
      assert k in t.linkIds;
      LinksFrom(lines, cols, k);
      var a, b :| 0 <= a < |lines| && 0 <= b < |lines[a].glyphs| && Sent(lines[a].glyphs[b], cols)
                  && lines[a].glyphs[b].link == Some(k);
      assert SizedGlyph(lines[a].glyphs[b], text, link);
    }
  }

  lemma StylesAreSmall(t: Tables)
    requires TablesOk(t)
    ensures forall i :: 0 <= i < |t.styles| ==> ValidStyle(t.styles[i]) && t.styles[i].id < 16384
    ensures |t.styles| == |t.styleIds.Keys| && |t.links| == |t.linkIds.Keys|
  {
    hide Indexed, ValidStyle;
    IndexedSize(t.styleIds, StyleKeys(t.styles));
    IndexedSize(t.linkIds, LinkKeys(t.links));
  }

  /** The estimate bounds the encoding of every page. */
  lemma EstimateHolds(v: View, requestId: nat, start: nat, end: nat, t: Tables, rows: seq<Row>, text: nat, link: nat)
    requires ViewOk(v) && MachineView(v) && requestId <= MAX_U64 && start <= end <= |v.lines|
    requires ExportedLines(EMPTY_TABLES, v.lines[start..end], v.cols, t, rows)
    requires Sized(v.lines[start..end], v.cols, text, link) && text <= LONGEST_TEXT
    ensures |EncodePage(SlicePage(v, requestId, start, rows, t))|
            <= Estimate(end - start, v.cols, text, |LineStyles(EMPTY_TABLES, v.lines[start..end], v.cols)|,
                        |LineLinks(EMPTY_TABLES, v.lines[start..end], v.cols)|, link)
  {
    hide EncodePage, EncodeRows, EncodeStyles, EncodeLinks, LineStyles, LineLinks, TablesOk, Stands, LineOk, Follows,
      SmallRow, SmallLink, ValidStyle, Times;
    var lines := v.lines[start..end];
    forall i | 0 <= i < |rows| ensures SmallRow(rows[i], v.cols, text) {
      assert Stands(t, rows[i], lines[i], v.cols) && lines[i] == v.lines[start + i];
      TextsSized(lines, i, v.cols, text, link);
      RowIsSmall(t, rows[i], lines[i], v.cols, v.generation, text);
    }
    RowsSize(rows, v.cols, text);
    StylesAreSmall(t);
    StylesSize(t.styles);
    LinksAreSmall(t, lines, v.cols, text, link);
    LinksSize(t.links, link);
    AnchorsSmall(v, start, end, t, rows);
    PageFrame(SlicePage(v, requestId, start, rows, t));
  }

  lemma TextsSized(lines: seq<Line>, i: nat, cols: nat, text: nat, link: nat)
    requires Sized(lines, cols, text, link) && i < |lines|
    ensures forall j :: 0 <= j < |lines[i].glyphs| && Sent(lines[i].glyphs[j], cols) ==>
              |lines[i].glyphs[j].grapheme| <= text
  {
    hide Sent;
    forall j | 0 <= j < |lines[i].glyphs| && Sent(lines[i].glyphs[j], cols)
      ensures |lines[i].glyphs[j].grapheme| <= text
    {
      assert SizedGlyph(lines[i].glyphs[j], text, link);
    }
  }

  lemma AnchorsSmall(v: View, start: nat, end: nat, t: Tables, rows: seq<Row>)
    requires MachineView(v) && start <= end <= |v.lines| && |rows| == end - start
    requires forall i :: 0 <= i < |rows| ==> Stands(t, rows[i], v.lines[start..end][i], v.cols)
    ensures rows != [] ==>
              && rows[0].start.Some? && SmallAnchor(rows[0].start.value)
              && rows[|rows| - 1].start.Some? && SmallAnchor(rows[|rows| - 1].start.value)
  {
    if rows != [] {
      assert Stands(t, rows[0], v.lines[start..end][0], v.cols);
      assert Stands(t, rows[|rows| - 1], v.lines[start..end][|rows| - 1], v.cols);
    }
  }

  /**
    What a client can rely on before it asks: if its rows, the columns, the longest texts and the
    numbers of styles and links keep the estimate within the limit, the tables suffice and every cell
    can be sent, the page is delivered.
   */
  lemma SmallPageSucceeds(v: View, requestId: nat, q: Request, text: nat, link: nat, single: Segmentation)
    requires ViewOk(v) && MachineView(v) && 0 < requestId <= MAX_U64 && ValidRequest(q) && q.epoch == v.epoch
    requires text <= LONGEST_TEXT && WithinCapacity(v)
    requires var end := PageEnd(v, q.before.value);
             var start := PageStart(end, q.maximumRows);
             && start <= end <= |v.lines|
             && var lines := v.lines[start..end];
             && TablesSuffice(lines, v.cols) && Sized(lines, v.cols, text, link)
             && AllSendable(lines, v.cols, single)
             && Estimate(|lines|, v.cols, text, |LineStyles(EMPTY_TABLES, lines, v.cols)|,
                         |LineLinks(EMPTY_TABLES, lines, v.cols)|, link) <= MAX_ENCODED_HISTORY_PAGE_BYTES
    ensures HistoryPage(v, requestId, q, single).Some?
  {
    hide HistoryPage, PageFor, Tables.ExportLines, ExportedLines, LineOk, Follows, LineStyles, LineLinks, PageEnd,
      EncodePage, Sized, Estimate, AllSendable;
    PageOk(v, requestId, q, single);
    DraftFits(v, requestId, q, text, link);
  }

  /** The same estimate for a page that may still be refused for a cell it sends. */
  lemma DraftFits(v: View, requestId: nat, q: Request, text: nat, link: nat)
    requires ViewOk(v) && MachineView(v) && 0 < requestId <= MAX_U64 && ValidRequest(q) && q.epoch == v.epoch
    requires text <= LONGEST_TEXT
    requires var end := PageEnd(v, q.before.value);
             var start := PageStart(end, q.maximumRows);
             && start <= end <= |v.lines|
             && var lines := v.lines[start..end];
             && TablesSuffice(lines, v.cols) && Sized(lines, v.cols, text, link)
             && Estimate(|lines|, v.cols, text, |LineStyles(EMPTY_TABLES, lines, v.cols)|,
                         |LineLinks(EMPTY_TABLES, lines, v.cols)|, link) <= MAX_ENCODED_HISTORY_PAGE_BYTES
    ensures var end := PageEnd(v, q.before.value);
            var draft := DraftPage(v, requestId, PageStart(end, q.maximumRows), end);
            draft.Some? && FitsWire(draft.value)
  {
    hide Tables.ExportLines, ExportedLines, LineOk, Follows, LineStyles, LineLinks, PageEnd, EncodePage, Sized,
      Estimate;
    EmptyTablesOk();
    var end := PageEnd(v, q.before.value);
    var start := PageStart(end, q.maximumRows);
    ExportLinesOk(EMPTY_TABLES, v.lines[start..end], v.cols, v.generation);
    var rows := EMPTY_TABLES.ExportLines(v.lines[start..end], v.cols, v.generation).value;
    EstimateHolds(v, requestId, start, end, rows.0, rows.1, text, link);
  }

  /**
    Up to 370 columns, with one cluster of at most four bytes per cell and no hyperlinks, only the
    style table can refuse a page.
   */
  lemma PlainPageSucceeds(v: View, requestId: nat, q: Request, single: Segmentation)
    requires ViewOk(v) && MachineView(v) && 0 < requestId <= MAX_U64 && ValidRequest(q) && q.epoch == v.epoch
    requires v.cols <= 370 && WithinCapacity(v)
    requires var end := PageEnd(v, q.before.value);
             var start := PageStart(end, q.maximumRows);
             && start <= end <= |v.lines|
             && var lines := v.lines[start..end];
             && (forall i, j :: 0 <= i < |lines| && 0 <= j < |lines[i].glyphs| && Sent(lines[i].glyphs[j], v.cols) ==>
                   PlainGlyph(lines[i].glyphs[j], single))
             && |LineStyles(EMPTY_TABLES, lines, v.cols)| <= MAX_STYLES
    ensures HistoryPage(v, requestId, q, single).Some?
  {
    hide HistoryPage, LineOk, Follows, LineStyles, LineLinks, PageEnd, Times, Sent;
    var end := PageEnd(v, q.before.value);
    var start := PageStart(end, q.maximumRows);
    var lines := v.lines[start..end];
    var styles := |LineStyles(EMPTY_TABLES, lines, v.cols)|;
    NoLinks(lines, v.cols, single);
    TimesGrows(v.cols, 370, CELL + 4, CELL + 4);
    TimesIs(370, CELL + 4);
    TimesGrows(|lines|, MAX_HISTORY_PAGE_ROWS, ROW + Times(v.cols, CELL + 4), ROW + 7770);
    TimesIs(MAX_HISTORY_PAGE_ROWS, ROW + 7770);
    TimesGrows(styles, MAX_STYLES, STYLE, STYLE);
    TimesIs(MAX_STYLES, STYLE);
    TimesIs(0, LINK);
    SmallPageSucceeds(v, requestId, q, 4, 0, single);
  }

  predicate PlainGlyph(g: Glyph, single: Segmentation) {
    |g.grapheme| <= 4 && single(g.grapheme) && g.link.None?
  }

  lemma NoLinks(lines: seq<Line>, cols: nat, single: Segmentation)
    requires forall i, j :: 0 <= i < |lines| && 0 <= j < |lines[i].glyphs| && Sent(lines[i].glyphs[j], cols) ==>
               PlainGlyph(lines[i].glyphs[j], single)
    ensures LineLinks(EMPTY_TABLES, lines, cols) == {}
    ensures Sized(lines, cols, 4, 0) && AllSendable(lines, cols, single)
  {
    hide LineLinks, Sent;
    forall k ensures k !in LineLinks(EMPTY_TABLES, lines, cols) {
      LinksFrom(lines, cols, k);
    }
  }

  // ---------------------------------------------------------------- paging through the whole history

  function History(v: View): seq<Line>
    requires v.viewportStart <= |v.lines|
  {
    v.lines[..v.viewportStart]
  }

  /**
    While a client pages, the engine may drop its `cut` oldest rows and append new ones;
    it does not resize or start a new epoch, and never reuses a row identity.
   */
  predicate Later(v: View, w: View, cut: nat)
    requires ViewOk(v) && ViewOk(w)
  {
    && w.epoch == v.epoch && w.cols == v.cols
    && cut <= v.viewportStart <= cut + w.viewportStart
    && (forall i :: cut <= i < v.viewportStart ==> w.lines[i - cut] == v.lines[i])
    && (forall i :: 0 <= i < cut ==> AnchorLess(v.lines[i].anchor, w.lines[0].anchor))
  }

  datatype Visit = Visit(view: View, cut: nat, maximumRows: nat)

  /** The first row that has been fetched, counted in the original history. */
  function Reach(end: nat, visits: seq<Visit>): (r: nat)
    ensures r <= end
  {
    if visits == [] then end
    else
      var before, last := Reach(end, visits[..|visits| - 1]), visits[|visits| - 1];
      if before <= last.cut then before
      else last.cut + PageStart(before - last.cut, last.maximumRows)
  }

  /** The anchor that request k names: the start of the page before. */
  function Before(first: Anchor, pages: seq<Page>): Option<Anchor> {
    if pages == [] then Some(first) else pages[|pages| - 1].includedStart
  }

  /** Every request but the last was answered by a page with more rows before it. */
  predicate Paging(v: View, first: Anchor, visits: seq<Visit>, pages: seq<Page>, single: Segmentation)
    requires ViewOk(v)
  {
    && |visits| == |pages|
    && (visits != [] ==>
          var n := |visits| - 1;
          && Paging(v, first, visits[..n], pages[..n], single)
          && (n > 0 ==> pages[n - 1].moreBefore)
          && ViewOk(visits[n].view) && Later(v, visits[n].view, visits[n].cut)
          && (n == 0 ==> visits[n].view == v && visits[n].cut == 0)
          && HistoryPage(visits[n].view, n + 1, Request(v.epoch, Before(first, pages[..n]), visits[n].maximumRows),
                         single)
             == Some(pages[n])
          && Anchored(pages[n]))
  }

  /** The fetched rows, oldest first. */
  function Joined(pages: seq<Page>): seq<Line>
    requires forall i :: 0 <= i < |pages| ==> Anchored(pages[i])
  {
    if pages == [] then [] else ReadPage(pages[|pages| - 1]) + Joined(pages[..|pages| - 1])
  }

  lemma {:induction false} PagesAnchored(v: View, first: Anchor, visits: seq<Visit>, pages: seq<Page>,
                                         single: Segmentation)
    requires ViewOk(v) && Paging(v, first, visits, pages, single)
    ensures forall i :: 0 <= i < |pages| ==> Anchored(pages[i])
  {
    hide ViewOk, Later, HistoryPage, Anchored;
    if pages != [] {
      var n := |pages| - 1;
      PagesAnchored(v, first, visits[..n], pages[..n], single);
      forall i | 0 <= i < |pages| ensures Anchored(pages[i]) {
        if i < n {
          assert pages[..n][i] == pages[i];
        }
      }
    }
  }

  /** Searching a later view for the anchor of a known history row finds that row, or row zero if it was dropped. */
  lemma FindsRow(v: View, w: View, cut: nat, i: nat)
    requires ViewOk(v) && ViewOk(w) && Later(v, w, cut) && i < v.viewportStart
    ensures PageEnd(w, v.lines[i].anchor) == if i <= cut then 0 else i - cut
  {
    hide LineOk, Follows;
    var p := Position(w.lines, v.lines[i].anchor, 0);
    if i < cut {
      if p > 0 {
        Asymmetric(v.lines[i].anchor, w.lines[0].anchor);
      }
    } else {
      assert w.lines[i - cut].anchor == v.lines[i].anchor;
      if p > i - cut {
        Asymmetric(v.lines[i].anchor, v.lines[i].anchor);
      } else if p < i - cut {
        LinesAscend(w, p, i - cut);
      }
    }
  }

  lemma Asymmetric(a: Anchor, b: Anchor)
    ensures !(AnchorLess(a, b) && AnchorLess(b, a))
  {
  }

  lemma ShownJoins(lines: seq<Line>, a: nat, b: nat, c: nat, cols: nat)
    requires a <= b <= c <= |lines|
    ensures Shown(lines[a..b], cols) + Shown(lines[b..c], cols) == Shown(lines[a..c], cols)
  {
    hide Kept;
    assert lines[a..b] + lines[b..c] == lines[a..c];
  }

  /** One more page: it holds the rows between its start and the start of the page before. */
  lemma NextPage(v: View, visit: Visit, requestId: nat, before: Anchor, reached: nat, page: Page, single: Segmentation)
    requires ViewOk(v) && ViewOk(visit.view) && Later(v, visit.view, visit.cut) && requestId > 0
    requires reached <= v.viewportStart
    requires PageEnd(visit.view, before) == if reached <= visit.cut then 0 else reached - visit.cut
    requires HistoryPage(visit.view, requestId, Request(v.epoch, Some(before), visit.maximumRows), single) == Some(page)
    ensures var r := if reached <= visit.cut then reached
                     else visit.cut + PageStart(reached - visit.cut, visit.maximumRows);
            && Anchored(page) && ReadPage(page) == Shown(v.lines[r..reached], v.cols)
            && (page.moreBefore <==> r > visit.cut)
            && (page.moreBefore ==> r < reached && page.includedStart == Some(v.lines[r].anchor))
  {
    hide LineOk, Follows, ValidPage, PageEnd, TablesSuffice, ReadPage, Shown, ResetPage, DraftPage, FitsWire,
      HistoryPage, AllSendable;
    var w, cut := visit.view, visit.cut;
    AnswersValid(w, requestId, Request(v.epoch, Some(before), visit.maximumRows), single);
    PageOk(w, requestId, Request(v.epoch, Some(before), visit.maximumRows), single);
    var end := PageEnd(w, before);
    var start := PageStart(end, visit.maximumRows);
    if reached <= cut {
      assert w.lines[start..end] == v.lines[reached..reached] == [];
    } else {
      SameSlice(v, w, cut, start, end);
    }
  }

  lemma AnswersValid(v: View, requestId: nat, q: Request, single: Segmentation)
    requires HistoryPage(v, requestId, q, single).Some?
    ensures ValidRequest(q)
  {
  }

  lemma SameSlice(v: View, w: View, cut: nat, start: nat, end: nat)
    requires ViewOk(v) && ViewOk(w) && Later(v, w, cut) && start <= end && cut + end <= v.viewportStart
    ensures w.lines[start..end] == v.lines[cut + start..cut + end]
    ensures start < end ==> w.lines[start] == v.lines[cut + start]
  {
    hide LineOk, Follows;
    forall i | start <= i < end ensures w.lines[i] == v.lines[cut + i] {
      assert w.lines[(cut + i) - cut] == v.lines[cut + i];
    }
  }

  /**
    Paging through the history while it grows and is trimmed: the pages fetched so far are
    contiguous, never overlap and read back as one stretch of the original history that ends
    where the first request pointed.  The continuation flag says exactly whether a row that is
    still available is missing, so the last page completes the history, and there are at most
    as many continued pages as rows.
   */
  lemma {:induction false} PagingIsComplete(v: View, first: Anchor, visits: seq<Visit>, pages: seq<Page>,
                                            single: Segmentation)
    requires ViewOk(v) && Paging(v, first, visits, pages, single)
    ensures forall i :: 0 <= i < |pages| ==> Anchored(pages[i])
    ensures var end := PageEnd(v, first);
            var r := Reach(end, visits);
            && end <= v.viewportStart
            && Joined(pages) == Shown(v.lines[r..end], v.cols)
            && (pages != [] ==>
                  var n := |pages| - 1;
                  && (pages[n].moreBefore <==> r > visits[n].cut)
                  && (pages[n].moreBefore ==> r + |pages| <= end && pages[n].includedStart == Some(v.lines[r].anchor)))
            && |pages| <= end + 1
  {
    hide LineOk, Follows, HistoryPage, PageEnd, ReadPage, Shown, Later, Anchored;
    PagesAnchored(v, first, visits, pages, single);
    PageEndBound(v, first);
    var end := PageEnd(v, first);
    if pages == [] {
      NothingShown(v, end);
    } else {
      var n := |pages| - 1;
      PagingIsComplete(v, first, visits[..n], pages[..n], single);
      var reached := Reach(end, visits[..n]);
      var before := Before(first, pages[..n]).value;
      if n > 0 {
        assert pages[..n][n - 1] == pages[n - 1];
        FindsRow(v, visits[n].view, visits[n].cut, reached);
      }
      NextPage(v, visits[n], n + 1, before, reached, pages[n], single);
      ShownJoins(v.lines, Reach(end, visits), reached, end, v.cols);
    }
  }

  lemma NothingShown(v: View, end: nat)
    requires end <= |v.lines|
    ensures Shown(v.lines[end..end], v.cols) == []
  {
  }

  /** Starting at the viewport, an untrimmed history is fetched completely: nothing missing, nothing twice. */
  lemma WholeHistory(v: View, visits: seq<Visit>, pages: seq<Page>, single: Segmentation)
    requires ViewOk(v) && pages != [] && Paging(v, v.lines[v.viewportStart].anchor, visits, pages, single)
    requires !pages[|pages| - 1].moreBefore && visits[|pages| - 1].cut == 0
    ensures forall i :: 0 <= i < |pages| ==> Anchored(pages[i])
    ensures Joined(pages) == Shown(History(v), v.cols)
  {
    hide LineOk, Follows, HistoryPage, PageEnd, ReadPage, Shown, Later, Paging, Anchored;
    var first := v.lines[v.viewportStart].anchor;
    PagingIsComplete(v, first, visits, pages, single);
    ViewportIsTheEnd(v);
    assert v.lines[0..v.viewportStart] == History(v);
  }

  lemma ViewportIsTheEnd(v: View)
    requires ViewOk(v)
    ensures PageEnd(v, v.lines[v.viewportStart].anchor) == v.viewportStart
  {
    hide LineOk, Follows;
    var p := Position(v.lines, v.lines[v.viewportStart].anchor, 0);
    if p < v.viewportStart {
      LinesAscend(v, p, v.viewportStart);
    }
  }
}
