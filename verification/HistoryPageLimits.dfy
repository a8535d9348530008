/** History pages for each reason why a page can fail. */
module HistoryPageLimits {
  import opened Basics
  import opened TerminalState
  import opened HistoryExport
  import opened ProtobufWire
  import opened StateWire
  import opened HistoryPaging

  /** 512 rows of history above a viewport of one row. */
  function Sample(cols: nat, lines: seq<Line>): View {
    View(1, 1, cols, 1, lines, 512, 0, Limits(512, 0))
  }

  const NEWEST: Request := Request(1, Some(Anchor(513, 0)), 512)

  /** One row per anchor, all hard line ends. */
  predicate Plain(lines: seq<Line>) {
    |lines| == 513 && forall i :: 0 <= i < 513 ==>
      lines[i].anchor == Anchor(i + 1, 0) && lines[i].version == 1 && !lines[i].wrapped && GlyphsOk(lines[i].glyphs)
  }

  lemma SampleOk(cols: nat, lines: seq<Line>)
    requires 0 < cols <= MAX_DIMENSION && Plain(lines)
    ensures ViewOk(Sample(cols, lines)) && MachineView(Sample(cols, lines)) && ValidRequest(NEWEST)
    ensures PageEnd(Sample(cols, lines), Anchor(513, 0)) == 512 && PageStart(512, 512) == 0
  {
    hide GlyphsOk, PageEnd;
    var v := Sample(cols, lines);
    forall i | 1 <= i < |v.lines| ensures Follows(v.lines[i - 1], v.lines[i], cols) {
      assert v.lines[i - 1].anchor == Anchor(i, 0);
    }
    ViewportIsTheEnd(v);
  }

  // ---------------------------------------------------------------- too many bytes

  function WideGlyphs(): seq<Glyph> {
    seq(1000, j requires 0 <= j => Glyph(j, "x", 1, DEFAULT_STYLE, None))
  }

  /** A thousand columns of unstyled text. */
  function WideLines(): seq<Line> {
    seq(513, i requires 0 <= i => Line(Anchor(i + 1, 0), 1, WideGlyphs(), false))
  }

  lemma {:induction false} AllKept(gs: seq<Glyph>, cols: nat, n: nat)
    requires n <= |gs| && forall i :: 0 <= i < n ==> Sent(gs[i], cols)
    ensures Kept(gs[..n], cols) == gs[..n]
  {
    hide Sent;
    if n > 0 {
      AllKept(gs, cols, n - 1);
      assert gs[..n][..n - 1] == gs[..n - 1];
    }
  }

  lemma {:induction false} NothingInterned(lines: seq<Line>, cols: nat)
    requires forall i :: 0 <= i < |lines| ==> lines[i].glyphs == WideGlyphs()
    ensures LineStyles(EMPTY_TABLES, lines, cols) == {} && LineLinks(EMPTY_TABLES, lines, cols) == {}
  {
    if lines != [] {
      NothingInterned(lines[..|lines| - 1], cols);
    }
  }

  lemma WideLinesPlain()
    ensures Plain(WideLines())
    ensures forall i :: 0 <= i < 513 ==> WideLines()[i].glyphs == WideGlyphs()
  {
    GlyphsPlain();
  }

  lemma GlyphsPlain()
    ensures GlyphsOk(WideGlyphs()) && Kept(WideGlyphs(), 1000) == WideGlyphs() && |WideGlyphs()| == 1000
  {
    AllKept(WideGlyphs(), 1000, 1000);
    assert WideGlyphs()[..1000] == WideGlyphs();
  }

  /** A row of the page takes almost nine thousand bytes. */
  lemma WideRow(t: Tables, row: Row, line: Line)
    requires Stands(t, row, line, 1000) && line.glyphs == WideGlyphs()
    ensures |EncodeCells(row.cells)| >= 8998
  {
    hide Kept, Resolves, EncodeCells;
    GlyphsPlain();
    assert |row.cells| == |ReadCells(t, row.cells)| == 1000;
    forall i | 0 <= i < |row.cells|
      ensures row.cells[i].grapheme != "" && row.cells[i].width > 0 && row.cells[i].column == i
    {
      assert ReadCells(t, row.cells)[i] == WideGlyphs()[i];
    }
    CellsAtLeast(row.cells);
  }

  lemma PageAtLeast(p: Page)
    ensures |EncodePage(p)| >= |EncodeRows(p.rows)|
  {
    hide UintField, BytesField, OptionalAnchor, EncodeRows, EncodeStyles, EncodeLinks;
  }

  /** 512 rows of a thousand unstyled characters: the tables are empty, the encoding exceeds four megabytes. */
  lemma WidePageFails(single: Segmentation)
    requires single("x")
    ensures var v := Sample(1000, WideLines());
            && ViewOk(v) && MachineView(v) && WithinCapacity(v) && ValidRequest(NEWEST)
            && TablesSuffice(v.lines[0..512], 1000) && AllSendable(v.lines[0..512], 1000, single)
            && HistoryPage(v, 1, NEWEST, single) == None
  {
    hide HistoryPage, PageFor, Tables.ExportLines, LineStyles, LineLinks, PageEnd, EncodePage, EncodeRows, Stands,
      ViewOk, MachineView, Plain, WideLines, TablesOk, PageStart, AllSendable;
    var v := Sample(1000, WideLines());
    WideLinesPlain();
    SampleOk(1000, v.lines);
    SampleSize(v);
    var lines := v.lines[0..512];
    NothingInterned(lines, 1000);
    WideSendable(lines, single);
    PageOk(v, 1, NEWEST, single);
    EmptyTablesOk();
    LinesAreOk(v, lines);
    ExportLinesOk(EMPTY_TABLES, lines, 1000, 1);
    var (t, rows) := EMPTY_TABLES.ExportLines(lines, 1000, 1).value;
    forall i | 0 <= i < |rows| ensures |EncodeCells(rows[i].cells)| >= 8998 {
      assert Stands(t, rows[i], lines[i], 1000) && lines[i] == v.lines[i];
      WideRow(t, rows[i], lines[i]);
    }
    RowsAtLeast(rows, 8998);
    TimesIs(512, 8998);
    PageAtLeast(SlicePage(v, 1, 0, rows, t));
  }

  lemma WideSendable(lines: seq<Line>, single: Segmentation)
    requires single("x") && forall i :: 0 <= i < |lines| ==> lines[i].glyphs == WideGlyphs()
    ensures AllSendable(lines, 1000, single)
  {
    forall i, j | 0 <= i < |lines| && 0 <= j < |lines[i].glyphs| ensures Sendable(lines[i].glyphs[j], single) {
      assert lines[i].glyphs[j] == WideGlyphs()[j];
    }
  }

  lemma SampleSize(v: View)
    requires Plain(v.lines)
    ensures |v.lines| == 513
  {
  }

  lemma LinesAreOk(v: View, lines: seq<Line>)
    requires ViewOk(v) && v.generation == 1 && |v.lines| >= 512 && lines == v.lines[0..512]
    ensures forall i :: 0 <= i < |lines| ==> LineOk(lines[i], 1)
  {
    hide LineOk, Follows;
  }

  // ---------------------------------------------------------------- too many styles

  function Colored(k: nat): Style {
    DEFAULT_STYLE.(foreground := Some(Rgb(k)))
  }

  function ColorfulGlyphs(i: nat): seq<Glyph> {
    seq(9, j requires 0 <= j => Glyph(j, "x", 1, Colored(9 * i + j), None))
  }

  /** Nine columns, and every cell has a colour of its own. */
  function ColorfulLines(): seq<Line> {
    seq(513, i requires 0 <= i => Line(Anchor(i + 1, 0), 1, ColorfulGlyphs(i), false))
  }

  function Colors(n: nat): set<Style> {
    set k: nat | k < n :: Colored(k)
  }

  lemma {:induction false} ColorsDiffer(n: nat)
    ensures |Colors(n)| == n
  {
    if n > 0 {
      ColorsDiffer(n - 1);
      assert Colors(n) == Colors(n - 1) + {Colored(n - 1)};
      assert Colored(n - 1) !in Colors(n - 1);
    }
  }

  lemma {:induction false} Interned(lines: seq<Line>, cols: nat, i: nat, g: Glyph)
    requires i < |lines| && g in lines[i].glyphs && g.column + g.width <= cols && g.style != DEFAULT_STYLE
    ensures g.style in LineStyles(EMPTY_TABLES, lines, cols)
  {
    if i < |lines| - 1 {
      Interned(lines[..|lines| - 1], cols, i, g);
    }
  }

  lemma ColoredOk(k: nat)
    requires k <= 0xff_ffff
    ensures ValidStyle(Colored(k)) && Colored(k).id == 0 && Colored(k) != DEFAULT_STYLE
  {
    assert Colored(k).foreground != DEFAULT_STYLE.foreground;
  }

  lemma ColorfulGlyphsOk(i: nat)
    requires i < 513
    ensures GlyphsOk(ColorfulGlyphs(i))
  {
    hide ValidStyle, Colored;
    forall j | 0 <= j < 9 ensures GlyphOk(ColorfulGlyphs(i)[j]) {
      ColoredOk(9 * i + j);
    }
  }

  lemma ColorfulPlain()
    ensures Plain(ColorfulLines())
    ensures forall i :: 0 <= i < 513 ==> ColorfulLines()[i].glyphs == ColorfulGlyphs(i)
  {
    hide GlyphsOk, ColorfulGlyphs;
    forall i | 0 <= i < 513 ensures GlyphsOk(ColorfulLines()[i].glyphs) {
      ColorfulGlyphsOk(i);
    }
  }

  lemma HasColor(lines: seq<Line>, k: nat)
    requires |lines| == 512 && k < 4097 && forall i :: 0 <= i < 512 ==> lines[i].glyphs == ColorfulGlyphs(i)
    ensures Colored(k) in LineStyles(EMPTY_TABLES, lines, 9)
  {
    hide LineStyles;
    var i, j := k / 9, k % 9;
    assert 9 * i + j == k;
    var g := ColorfulGlyphs(i)[j];
    assert g in lines[i].glyphs;
    ColoredOk(k);
    Interned(lines, 9, i, g);
  }

  /** 512 rows of nine cells in 4608 colours: the style table of 4096 is full before the page is complete. */
  lemma ColorfulPageFails(single: Segmentation)
    ensures var v := Sample(9, ColorfulLines());
            && ViewOk(v) && MachineView(v) && WithinCapacity(v) && ValidRequest(NEWEST)
            && |LineStyles(EMPTY_TABLES, v.lines[0..512], 9)| > MAX_STYLES
            && HistoryPage(v, 1, NEWEST, single) == None
  {
    hide HistoryPage, PageFor, LineStyles, LineLinks, PageEnd, FitsWire, ViewOk, MachineView, Plain, ColorfulLines,
      ColorfulGlyphs, PageStart, AllSendable;
    var v := Sample(9, ColorfulLines());
    ColorfulPlain();
    SampleOk(9, v.lines);
    SampleSize(v);
    var lines := v.lines[0..512];
    forall k: nat | k < 4097 ensures Colored(k) in LineStyles(EMPTY_TABLES, lines, 9) {
      HasColor(lines, k);
    }
    ColorsDiffer(4097);
    Wider(Colors(4097), LineStyles(EMPTY_TABLES, lines, 9));
    PageOk(v, 1, NEWEST, single);
  }

  // ---------------------------------------------------------------- a cell that cannot be sent

  /** One history row with a single cell, above an empty viewport of one row. */
  function OneCell(g: Glyph): View {
    View(1, 1, 2, 1, [Line(Anchor(1, 0), 1, [g], false), Line(Anchor(2, 0), 1, [], false)], 1, 0,
         Limits(1, 0))
  }

  const OLDEST: Request := Request(1, Some(Anchor(2, 0)), 1)

  /** The page is refused for this cell: it would fit the tables and the wire. */
  predicate RefusedFor(g: Glyph, single: Segmentation) {
    var v := OneCell(g);
    var draft := DraftPage(v, 1, 0, 1);
    && ViewOk(v) && MachineView(v) && WithinCapacity(v) && ValidRequest(OLDEST)
    && TablesSuffice(v.lines[0..1], 2) && draft.Some? && FitsWire(draft.value)
    && HistoryPage(v, 1, OLDEST, single) == None
  }

  lemma OneCellOk(g: Glyph)
    requires GlyphOk(g)
    ensures ViewOk(OneCell(g)) && MachineView(OneCell(g)) && ValidRequest(OLDEST)
    ensures PageEnd(OneCell(g), Anchor(2, 0)) == 1 && PageStart(1, 1) == 0
  {
    hide GlyphOk, PageEnd;
    var v := OneCell(g);
    assert Follows(v.lines[0], v.lines[1], 2);
    ViewportIsTheEnd(v);
  }

  lemma OneCellTables(g: Glyph, lines: seq<Line>)
    requires lines == OneCell(g).lines[0..1]
    ensures |LineStyles(EMPTY_TABLES, lines, 2)| <= 1 && |LineLinks(EMPTY_TABLES, lines, 2)| <= 1
  {
    hide StylesOf, LinksOf;
    assert lines[..0] == [] && lines[0].glyphs == [g];
    OneOfEach(g);
    assert LineStyles(EMPTY_TABLES, lines, 2) == {} + StylesOf([g], 2) == StylesOf([g], 2);
    assert LineLinks(EMPTY_TABLES, lines, 2) == {} + LinksOf([g], 2) == LinksOf([g], 2);
  }

  lemma OneOfEach(g: Glyph)
    ensures |StylesOf([g], 2)| <= 1 && |LinksOf([g], 2)| <= 1
  {
    Wider(StylesOf([g], 2), {g.style});
    if g.link.Some? {
      Wider(LinksOf([g], 2), {g.link.value});
    } else {
      assert LinksOf([g], 2) == {};
    }
  }

  lemma CellRefused(g: Glyph, single: Segmentation)
    requires GlyphOk(g) && Sent(g, 2) && !Sendable(g, single) && SizedGlyph(g, LONGEST_TEXT, LONGEST_URI + LONGEST_ID)
    ensures RefusedFor(g, single)
  {
    hide GlyphOk, Sent, Sendable, SizedGlyph, HistoryPage, ViewOk, MachineView, PageEnd, LineStyles, LineLinks, PageFor,
      DraftPage, FitsWire, Times;
    var v := OneCell(g);
    var lines := v.lines[0..1];
    OneCellOk(g);
    OneCellTables(g, lines);
    var styles, links := |LineStyles(EMPTY_TABLES, lines, 2)|, |LineLinks(EMPTY_TABLES, lines, 2)|;
    TimesIs(2, CELL + LONGEST_TEXT);
    TimesIs(1, ROW + 4034);
    TimesGrows(styles, 1, STYLE, STYLE);
    TimesIs(1, STYLE);
    var longest := LONGEST_URI + LONGEST_ID;
    TimesGrows(links, 1, LINK + longest, LINK + longest);
    TimesIs(1, LINK + longest);
    DraftFits(v, 1, OLDEST, LONGEST_TEXT, longest);
    PageOk(v, 1, OLDEST, single);
    assert lines[0].glyphs[0] == g;
  }

  /** A link that names no target: an explicit identifier is enough to open it. */
  lemma EmptyTargetFails(single: Segmentation)
    ensures RefusedFor(Glyph(0, "x", 1, DEFAULT_STYLE, Some(LinkKey("", "x"))), single)
  {
    CellRefused(Glyph(0, "x", 1, DEFAULT_STYLE, Some(LinkKey("", "x"))), single);
  }

  /** A link whose target is too long. */
  lemma LongTargetFails(uri: string, single: Segmentation)
    requires MAX_HYPERLINK_URI_BYTES < |uri| <= LONGEST_URI
    ensures RefusedFor(Glyph(0, "x", 1, DEFAULT_STYLE, Some(LinkKey(uri, ""))), single)
  {
    CellRefused(Glyph(0, "x", 1, DEFAULT_STYLE, Some(LinkKey(uri, ""))), single);
  }

  /** A base character with many combining marks. */
  lemma LongTextFails(text: string, single: Segmentation)
    requires MAX_GRAPHEME_BYTES < |text| <= LONGEST_TEXT
    ensures RefusedFor(Glyph(0, text, 1, DEFAULT_STYLE, None), single)
  {
    CellRefused(Glyph(0, text, 1, DEFAULT_STYLE, None), single);
  }

  /** A text that the engine keeps in one cell and the wire counts as several clusters. */
  lemma SplitTextFails(text: string, single: Segmentation)
    requires 0 < |text| <= LONGEST_TEXT && text != " " && !single(text)
    ensures RefusedFor(Glyph(0, text, 1, DEFAULT_STYLE, None), single)
  {
    CellRefused(Glyph(0, text, 1, DEFAULT_STYLE, None), single);
  }
}
