/**
  Exporting rows of the terminal engine into wire rows: styles and hyperlinks are
  interned into per-message tables (src/terminal_engine.rs).
 */
module HistoryExport {
  import opened Basics
  import opened TerminalState

  datatype LinkKey = LinkKey(uri: string, explicitId: string)

  /** One engine cell with its attributes; a style key is a style whose identifier is zero. */
  datatype Glyph = Glyph(column: nat, grapheme: string, width: nat, style: Style, link: Option<LinkKey>)

  datatype Line = Line(anchor: Anchor, version: nat, glyphs: seq<Glyph>, wrapped: bool)

  const DEFAULT_STYLE: Style :=
    Style(0, Some(DefaultColor), Some(DefaultColor), Some(DefaultColor), 0, 0, 0,
          false, false, false, false, false, 0, 0)

  datatype Tables = Tables(styleIds: map<Style, nat>, styles: seq<Style>,
                           linkIds: map<LinkKey, nat>, links: seq<Hyperlink>)
  {
    /** None: the style table is full. */
    function StyleId(key: Style): Option<(Tables, nat)> {
      if key == DEFAULT_STYLE then Some((this, 0))
      else if key in styleIds then Some((this, styleIds[key]))
      else if |styles| < MAX_STYLES then
        var id := |styles| + 1;
        Some((this.(styles := styles + [key.(id := id)], styleIds := styleIds[key := id]), id))
      else None
    }

    function LinkId(link: Option<LinkKey>): Option<(Tables, nat)> {
      if link.None? then Some((this, 0))
      else if link.value in linkIds then Some((this, linkIds[link.value]))
      else if |links| < MAX_HYPERLINKS then
        var id := |links| + 1;
        Some((this.(links := links + [Hyperlink(id, link.value.uri, link.value.explicitId)],
                    linkIds := linkIds[link.value := id]), id))
      else None
    }

    /** A default blank is not sent. */
    function ExportGlyph(g: Glyph): Option<(Tables, Option<Cell>)> {
      var style := StyleId(g.style);
      if style.None? then None
      else
        var link := style.value.0.LinkId(g.link);
        if link.None? then None
        else if g.grapheme == " " && style.value.1 == 0 && link.value.1 == 0 then Some((link.value.0, None))
        else Some((link.value.0, Some(Cell(g.column, g.grapheme, g.width, style.value.1, link.value.1))))
    }

    function ExportGlyphs(gs: seq<Glyph>, cols: nat): Option<(Tables, seq<Cell>)> {
      if gs == [] then Some((this, []))
      else
        var before := ExportGlyphs(gs[..|gs| - 1], cols);
        var g := gs[|gs| - 1];
        if before.None? then None
        else if g.column + g.width > cols then before
        else
          var cell := before.value.0.ExportGlyph(g);
          if cell.None? then None
          else Some((cell.value.0, before.value.1 + (if cell.value.1.Some? then [cell.value.1.value] else [])))
    }

    function ExportLines(lines: seq<Line>, cols: nat, generation: nat): Option<(Tables, seq<Row>)> {
      if lines == [] then Some((this, []))
      else
        var before := ExportLines(lines[..|lines| - 1], cols, generation);
        var line := lines[|lines| - 1];
        if before.None? || line.version > generation then None
        else
          var cells := before.value.0.ExportGlyphs(line.glyphs, cols);
          if cells.None? then None
          else Some((cells.value.0, before.value.1 + [Row(Some(line.anchor), line.version, cells.value.1,
              line.wrapped)]))
    }
  }

  const EMPTY_TABLES: Tables := Tables(map[], [], map[], [])

  /** `ExportTables`, updated in place cell by cell. */
  class ExportTables {
    var styleIds: map<Style, nat>
    var styles: seq<Style>
    var linkIds: map<LinkKey, nat>
    var links: seq<Hyperlink>

    function Value(): Tables
      reads this
    {
      Tables(styleIds, styles, linkIds, links)
    }

    constructor ()
      ensures Value() == EMPTY_TABLES
    {
      styleIds, styles, linkIds, links := map[], [], map[], [];
    }

    method StyleId(key: Style) returns (id: Option<nat>)
      modifies this
      ensures var r := old(Value()).StyleId(key);
              if r.Some? then id == Some(r.value.1) && Value() == r.value.0 else id == None && Value() == old(Value())
    {
      if key == DEFAULT_STYLE {
        return Some(0);
      }
      if key in styleIds {
        return Some(styleIds[key]);
      }
      if |styles| >= MAX_STYLES {
        return None;
      }
      var n := |styles| + 1;
      styles := styles + [key.(id := n)];
      styleIds := styleIds[key := n];
      id := Some(n);
    }

    method LinkId(link: Option<LinkKey>) returns (id: Option<nat>)
      modifies this
      ensures var r := old(Value()).LinkId(link);
              if r.Some? then id == Some(r.value.1) && Value() == r.value.0 else id == None && Value() == old(Value())
    {
      if link.None? {
        return Some(0);
      }
      if link.value in linkIds {
        return Some(linkIds[link.value]);
      }
      if |links| >= MAX_HYPERLINKS {
        return None;
      }
      var n := |links| + 1;
      links := links + [Hyperlink(n, link.value.uri, link.value.explicitId)];
      linkIds := linkIds[link.value := n];
      id := Some(n);
    }

    /** The cells of one row; on failure the whole page is abandoned, tables included. */
    method ExportGlyphs(gs: seq<Glyph>, cols: nat) returns (cells: Option<seq<Cell>>)
      modifies this
      ensures var r := old(Value()).ExportGlyphs(gs, cols);
              if r.Some? then cells == Some(r.value.1) && Value() == r.value.0 else cells == None
    {
      var out: seq<Cell> := [];
      var i := 0;
      while i < |gs|
        invariant i <= |gs|
        invariant old(Value()).ExportGlyphs(gs[..i], cols) == Some((Value(), out))
      {
        assert gs[..i + 1][..i] == gs[..i];
        assert out + [] == out;
        var g := gs[i];
        if g.column + g.width <= cols {
          var style := StyleId(g.style);
          if style.None? {
            PrefixFails(old(Value()), gs, cols, i + 1);
            return None;
          }
          var link := LinkId(g.link);
          if link.None? {
            PrefixFails(old(Value()), gs, cols, i + 1);
            return None;
          }
          if !(g.grapheme == " " && style.value == 0 && link.value == 0) {
            out := out + [Cell(g.column, g.grapheme, g.width, style.value, link.value)];
          }
        }
        i := i + 1;
      }
      assert gs[..i] == gs;
      cells := Some(out);
    }
  }

  lemma {:induction false} PrefixFails(t: Tables, gs: seq<Glyph>, cols: nat, n: nat)
    requires n <= |gs| && t.ExportGlyphs(gs[..n], cols).None?
    ensures t.ExportGlyphs(gs, cols).None?
    decreases |gs|
  {
    if n == |gs| {
      assert gs[..n] == gs;
    } else {
      assert gs[..|gs| - 1][..n] == gs[..n];
      PrefixFails(t, gs[..|gs| - 1], cols, n);
    }
  }

  // ---------------------------------------------------------------- the tables stay consistent

  /** A table and its index agree: identifiers are positions counted from one. */
  predicate Indexed<K(!new, ==)>(ids: map<K, nat>, keys: seq<K>) {
    && |ids| == |keys|
    && (forall k :: k in ids ==> k in keys)
    && (forall i {:trigger keys[i]} :: 0 <= i < |keys| ==> keys[i] in ids && ids[keys[i]] == i + 1)
  }

  lemma IndexOf<K(!new)>(ids: map<K, nat>, keys: seq<K>, key: K)
    requires Indexed(ids, keys) && key in ids
    ensures 1 <= ids[key] <= |keys| && keys[ids[key] - 1] == key
  {
    assert key in keys;
    var i :| 0 <= i < |keys| && keys[i] == key;
  }

  lemma AddKey<K(!new)>(ids: map<K, nat>, keys: seq<K>, key: K)
    requires Indexed(ids, keys) && key !in ids
    ensures Indexed(ids[key := |keys| + 1], keys + [key])
    ensures ids[key := |keys| + 1].Keys == ids.Keys + {key} && |ids.Keys + {key}| == |keys| + 1
  {
    var ids', keys' := ids[key := |keys| + 1], keys + [key];
    assert ids'.Keys == ids.Keys + {key};
    forall k | k in ids' ensures k in keys' {
      if k == key {
        assert keys'[|keys|] == key;
      } else {
        assert k in keys;
      }
    }
  }

  function StyleKeys(styles: seq<Style>): seq<Style> {
    seq(|styles|, i requires 0 <= i < |styles| => styles[i].(id := 0))
  }

  predicate StylesOk(ids: map<Style, nat>, styles: seq<Style>) {
    && |styles| <= MAX_STYLES && Indexed(ids, StyleKeys(styles))
    && (forall i :: 0 <= i < |styles| ==> styles[i].id == i + 1 && ValidStyle(styles[i]))
  }

  function Key(h: Hyperlink): LinkKey {
    LinkKey(h.uri, h.explicitId)
  }

  function LinkKeys(links: seq<Hyperlink>): seq<LinkKey> {
    seq(|links|, i requires 0 <= i < |links| => Key(links[i]))
  }

  predicate LinksOk(ids: map<LinkKey, nat>, links: seq<Hyperlink>) {
    && |links| <= MAX_HYPERLINKS && Indexed(ids, LinkKeys(links))
    && (forall i :: 0 <= i < |links| ==> links[i].id == i + 1)
  }

  predicate TablesOk(t: Tables) {
    StylesOk(t.styleIds, t.styles) && LinksOk(t.linkIds, t.links)
  }

  predicate Extends(t: Tables, t': Tables) {
    t.styles <= t'.styles && t.links <= t'.links
  }

  /** What the engine promises about a cell: nothing about the length of its text or about its link. */
  predicate GlyphOk(g: Glyph) {
    g.style.id == 0 && ValidStyle(g.style) && g.grapheme != "" && 1 <= g.width <= 2
  }

  function NewStyles(key: Style): set<Style> {
    if key == DEFAULT_STYLE then {} else {key}
  }

  function NewLinks(link: Option<LinkKey>): set<LinkKey> {
    if link.None? then {} else {link.value}
  }

  // ---------------------------------------------------------------- what the receiver reads back

  function ReadStyle(styles: seq<Style>, id: nat): Style {
    if id == 0 then DEFAULT_STYLE
    else if id <= |styles| then styles[id - 1].(id := 0) else DEFAULT_STYLE
  }

  function ReadLink(links: seq<Hyperlink>, id: nat): Option<LinkKey> {
    if id == 0 || id > |links| then None else Some(Key(links[id - 1]))
  }

  function ReadCell(t: Tables, c: Cell): Glyph {
    Glyph(c.column, c.grapheme, c.width, ReadStyle(t.styles, c.style), ReadLink(t.links, c.hyperlink))
  }

  function ReadCells(t: Tables, cells: seq<Cell>): seq<Glyph> {
    seq(|cells|, i requires 0 <= i < |cells| => ReadCell(t, cells[i]))
  }

  /** The identifiers of a cell are entries of the tables. */
  predicate Resolves(t: Tables, c: Cell) {
    c.style <= |t.styles| && c.hyperlink <= |t.links|
  }

  predicate IsBlank(g: Glyph) {
    g.grapheme == " " && g.style == DEFAULT_STYLE && g.link == None
  }

  function End(g: Glyph): nat {
    g.column + g.width
  }

  /** The cells that a row sends: those that fit the columns and are not default blanks. */
  predicate Sent(g: Glyph, cols: nat) {
    End(g) <= cols && !IsBlank(g)
  }

  function Kept(gs: seq<Glyph>, cols: nat): seq<Glyph> {
    if gs == [] then []
    else Kept(gs[..|gs| - 1], cols) + (if Sent(gs[|gs| - 1], cols) then [gs[|gs| - 1]] else [])
  }

  lemma StyleIdOk(t: Tables, key: Style)
    requires TablesOk(t) && key.id == 0 && ValidStyle(key)
    ensures var r := t.StyleId(key);
            var keys := t.styleIds.Keys + NewStyles(key);
            && (r.Some? <==> |keys| <= MAX_STYLES)
            && (r.Some? ==>
                  && TablesOk(r.value.0) && Extends(t, r.value.0)
                  && r.value.0.styleIds.Keys == keys && r.value.0.linkIds == t.linkIds
                  && r.value.1 <= |r.value.0.styles| && ReadStyle(r.value.0.styles, r.value.1) == key
                  && (r.value.1 == 0 <==> key == DEFAULT_STYLE))
  {
    hide Indexed, ValidStyle, LinksOk;
    var ids, styles := t.styleIds, t.styles;
    IndexedSize(ids, StyleKeys(styles));
    if key == DEFAULT_STYLE {
      assert ids.Keys + {} == ids.Keys;
    } else if key in ids {
      assert ids.Keys + {key} == ids.Keys;
      IndexOf(ids, StyleKeys(styles), key);
    } else {
      AddStyle(ids, styles, key);
    }
  }

  lemma AddStyle(ids: map<Style, nat>, styles: seq<Style>, key: Style)
    requires StylesOk(ids, styles) && key !in ids && key.id == 0 && ValidStyle(key)
    ensures var n := |styles| + 1;
            && ids[key := n].Keys == ids.Keys + {key} && |ids.Keys + {key}| == n
            && (n <= MAX_STYLES ==> StylesOk(ids[key := n], styles + [key.(id := n)]))
  {
    hide Indexed, ValidStyle;
    AddKey(ids, StyleKeys(styles), key);
    var n := |styles| + 1;
    assert key.(id := n).(id := 0) == key;
    assert StyleKeys(styles + [key.(id := n)]) == StyleKeys(styles) + [key];
    RenamedStyle(key, n);
  }

  lemma IndexedSize<K(!new)>(ids: map<K, nat>, keys: seq<K>)
    requires Indexed(ids, keys)
    ensures |ids.Keys| == |keys|
  {
  }

  lemma RenamedStyle(key: Style, n: nat)
    requires ValidStyle(key)
    ensures ValidStyle(key.(id := n))
  {
  }

  lemma LinkIdOk(t: Tables, link: Option<LinkKey>)
    requires TablesOk(t)
    ensures var r := t.LinkId(link);
            var keys := t.linkIds.Keys + NewLinks(link);
            && (r.Some? <==> |keys| <= MAX_HYPERLINKS)
            && (r.Some? ==>
                  && TablesOk(r.value.0) && Extends(t, r.value.0)
                  && r.value.0.linkIds.Keys == keys && r.value.0.styleIds == t.styleIds
                  && r.value.0.styles == t.styles
                  && r.value.1 <= |r.value.0.links| && ReadLink(r.value.0.links, r.value.1) == link
                  && (r.value.1 == 0 <==> link.None?))
  {
    hide Indexed, StylesOk;
    var ids, links := t.linkIds, t.links;
    IndexedSize(ids, LinkKeys(links));
    if link.None? {
      assert ids.Keys + {} == ids.Keys;
    } else if link.value in ids {
      assert ids.Keys + {link.value} == ids.Keys;
      IndexOf(ids, LinkKeys(links), link.value);
    } else {
      AddKey(ids, LinkKeys(links), link.value);
      var n := |links| + 1;
      assert LinkKeys(links + [Hyperlink(n, link.value.uri, link.value.explicitId)]) == LinkKeys(links) + [link.value];
    }
  }

  // ---------------------------------------------------------------- export round trip

  /** The keys that exporting a row adds, and those it needs in all. */
  function StylesOf(gs: seq<Glyph>, cols: nat): set<Style> {
    set g | g in gs && g.column + g.width <= cols && g.style != DEFAULT_STYLE :: g.style
  }

  function LinksOf(gs: seq<Glyph>, cols: nat): set<LinkKey> {
    set g | g in gs && g.column + g.width <= cols && g.link.Some? :: g.link.value
  }

  predicate GlyphsOk(gs: seq<Glyph>) {
    && (forall i :: 0 <= i < |gs| ==> GlyphOk(gs[i]))
    && (forall i, j :: 0 <= i < j < |gs| ==> gs[i].column + gs[i].width <= gs[j].column)
  }

  lemma ExportGlyphOk(t: Tables, g: Glyph)
    requires TablesOk(t) && GlyphOk(g)
    ensures var r := t.ExportGlyph(g);
            var styles, links := t.styleIds.Keys + NewStyles(g.style), t.linkIds.Keys + NewLinks(g.link);
            && (r.Some? <==> |styles| <= MAX_STYLES && |links| <= MAX_HYPERLINKS)
            && (r.Some? ==>
                  && TablesOk(r.value.0) && Extends(t, r.value.0)
                  && r.value.0.styleIds.Keys == styles && r.value.0.linkIds.Keys == links
                  && (r.value.1.None? <==> IsBlank(g))
                  && (r.value.1.Some? ==>
                        Resolves(r.value.0, r.value.1.value) && ReadCell(r.value.0, r.value.1.value) == g))
  {
    hide TablesOk, Tables.StyleId, Tables.LinkId, ValidStyle, ReadStyle, ReadLink, Extends, NewStyles,
      NewLinks;
    StyleIdOk(t, g.style);
    var style := t.StyleId(g.style);
    if style.Some? {
      LinkIdOk(style.value.0, g.link);
      var link := style.value.0.LinkId(g.link);
      if link.Some? {
        ExtendsFurther(t, style.value.0, link.value.0);
      }
    }
  }

  lemma ExtendsFurther(t: Tables, t': Tables, t'': Tables)
    requires Extends(t, t') && Extends(t', t'')
    ensures Extends(t, t'')
  {
  }

  /** Later entries do not change what an earlier cell means. */
  lemma ReadsTheSame(t: Tables, t': Tables, cells: seq<Cell>)
    requires Extends(t, t')
    requires forall i :: 0 <= i < |cells| ==> Resolves(t, cells[i])
    ensures ReadCells(t', cells) == ReadCells(t, cells)
    ensures forall i :: 0 <= i < |cells| ==> Resolves(t', cells[i])
  {
  }

  /** The table keys before and after a row. */
  function AllStyles(t: Tables, gs: seq<Glyph>, cols: nat): set<Style> {
    t.styleIds.Keys + StylesOf(gs, cols)
  }

  function AllLinks(t: Tables, gs: seq<Glyph>, cols: nat): set<LinkKey> {
    t.linkIds.Keys + LinksOf(gs, cols)
  }

  predicate ExportedRow(t: Tables, gs: seq<Glyph>, cols: nat, t': Tables, cells: seq<Cell>) {
    && TablesOk(t') && Extends(t, t')
    && t'.styleIds.Keys == AllStyles(t, gs, cols)
    && t'.linkIds.Keys == AllLinks(t, gs, cols)
    && (forall i :: 0 <= i < |cells| ==> Resolves(t', cells[i]))
    && ReadCells(t', cells) == Kept(gs, cols)
  }

  /** Exporting a row fails exactly if a table overflows, and otherwise loses nothing that is shown. */
  lemma {:induction false} ExportGlyphsOk(t: Tables, gs: seq<Glyph>, cols: nat)
    requires TablesOk(t) && forall i :: 0 <= i < |gs| ==> GlyphOk(gs[i])
    ensures var r := t.ExportGlyphs(gs, cols);
            && (r.Some? <==> |AllStyles(t, gs, cols)| <= MAX_STYLES
                             && |AllLinks(t, gs, cols)| <= MAX_HYPERLINKS)
            && (r.Some? ==> ExportedRow(t, gs, cols, r.value.0, r.value.1))
  {
    hide TablesOk, Tables.ExportGlyph, GlyphOk, ExportedRow, AllStyles, AllLinks, NewStyles, NewLinks;
    if gs == [] {
      NothingExported(t, cols);
    } else {
      var fore, g := gs[..|gs| - 1], gs[|gs| - 1];
      ExportGlyphsOk(t, fore, cols);
      SetsGrow(t, gs, cols);
      var before := t.ExportGlyphs(fore, cols);
      if before.None? {
        Wider(AllStyles(t, fore, cols), AllStyles(t, gs, cols));
        Wider(AllLinks(t, fore, cols), AllLinks(t, gs, cols));
      } else if g.column + g.width <= cols {
        GlyphAdded(t, gs, cols, before.value.0, before.value.1);
      } else {
        GlyphDropped(t, gs, cols, before.value.0, before.value.1);
      }
    }
  }

  lemma NothingExported(t: Tables, cols: nat)
    requires TablesOk(t)
    ensures ExportedRow(t, [], cols, t, [])
    ensures |AllStyles(t, [], cols)| <= MAX_STYLES && |AllLinks(t, [], cols)| <= MAX_HYPERLINKS
  {
    hide TablesOk;
    assert AllStyles(t, [], cols) == t.styleIds.Keys;
    assert AllLinks(t, [], cols) == t.linkIds.Keys;
    TablesFit(t);
  }

  lemma GlyphDropped(t: Tables, gs: seq<Glyph>, cols: nat, m: Tables, cells: seq<Cell>)
    requires gs != [] && ExportedRow(t, gs[..|gs| - 1], cols, m, cells)
    requires gs[|gs| - 1].column + gs[|gs| - 1].width > cols
    ensures ExportedRow(t, gs, cols, m, cells)
    ensures |AllStyles(t, gs, cols)| <= MAX_STYLES && |AllLinks(t, gs, cols)| <= MAX_HYPERLINKS
  {
    hide TablesOk, AllStyles, AllLinks, Resolves, ReadCells, Extends;
    SetsGrow(t, gs, cols);
    TablesFit(m);
    assert Kept(gs, cols) == Kept(gs[..|gs| - 1], cols);
  }

  lemma GlyphAdded(t: Tables, gs: seq<Glyph>, cols: nat, m: Tables, cells: seq<Cell>)
    requires gs != [] && ExportedRow(t, gs[..|gs| - 1], cols, m, cells)
    requires GlyphOk(gs[|gs| - 1]) && gs[|gs| - 1].column + gs[|gs| - 1].width <= cols
    ensures var r := m.ExportGlyph(gs[|gs| - 1]);
            && (r.Some? <==> |AllStyles(t, gs, cols)| <= MAX_STYLES
                             && |AllLinks(t, gs, cols)| <= MAX_HYPERLINKS)
            && (r.Some? ==> ExportedRow(t, gs, cols, r.value.0,
                                        cells + (if r.value.1.Some? then [r.value.1.value] else [])))
  {
    hide TablesOk, Tables.ExportGlyph, GlyphOk, IsBlank, Resolves, ReadCell, AllStyles, AllLinks, NewStyles, NewLinks;
    var g := gs[|gs| - 1];
    SetsGrow(t, gs, cols);
    ExportGlyphOk(m, g);
    var r := m.ExportGlyph(g);
    if r.Some? {
      ReadsTheSame(m, r.value.0, cells);
      var extra := if r.value.1.Some? then [r.value.1.value] else [];
      assert ReadCells(r.value.0, cells + extra) == ReadCells(r.value.0, cells) + ReadCells(r.value.0, extra);
    }
  }

  lemma TablesFit(t: Tables)
    requires TablesOk(t)
    ensures |t.styleIds.Keys| <= MAX_STYLES && |t.linkIds.Keys| <= MAX_HYPERLINKS
  {
    IndexedSize(t.styleIds, StyleKeys(t.styles));
    IndexedSize(t.linkIds, LinkKeys(t.links));
  }

  lemma Wider<K>(a: set<K>, b: set<K>)
    requires a <= b
    ensures |a| <= |b|
  {
    assert b == a + (b - a);
  }

  lemma SetsGrow(t: Tables, gs: seq<Glyph>, cols: nat)
    requires gs != []
    ensures var fore, g := gs[..|gs| - 1], gs[|gs| - 1];
            if g.column + g.width <= cols
            then AllStyles(t, gs, cols) == AllStyles(t, fore, cols) + NewStyles(g.style)
                 && AllLinks(t, gs, cols) == AllLinks(t, fore, cols) + NewLinks(g.link)
            else AllStyles(t, gs, cols) == AllStyles(t, fore, cols) && AllLinks(t, gs, cols) == AllLinks(t, fore, cols)
  {
    var fore, g := gs[..|gs| - 1], gs[|gs| - 1];
    assert gs == fore + [g];
  }

  // ---------------------------------------------------------------- several rows into one message

  function LineStyles(t: Tables, lines: seq<Line>, cols: nat): set<Style> {
    if lines == [] then t.styleIds.Keys
    else LineStyles(t, lines[..|lines| - 1], cols) + StylesOf(lines[|lines| - 1].glyphs, cols)
  }

  function LineLinks(t: Tables, lines: seq<Line>, cols: nat): set<LinkKey> {
    if lines == [] then t.linkIds.Keys
    else LineLinks(t, lines[..|lines| - 1], cols) + LinksOf(lines[|lines| - 1].glyphs, cols)
  }

  /** A wire row stands for an engine row under the given tables. */
  predicate Stands(t: Tables, row: Row, line: Line, cols: nat) {
    && row.start == Some(line.anchor) && row.version == line.version && row.wrapped == line.wrapped
    && (forall i :: 0 <= i < |row.cells| ==> Resolves(t, row.cells[i]))
    && ReadCells(t, row.cells) == Kept(line.glyphs, cols)
  }

  predicate ExportedLines(t: Tables, lines: seq<Line>, cols: nat, t': Tables, rows: seq<Row>) {
    && TablesOk(t')
    && t'.styleIds.Keys == LineStyles(t, lines, cols) && t'.linkIds.Keys == LineLinks(t, lines, cols)
    && |rows| == |lines|
    && (forall i :: 0 <= i < |rows| ==> Stands(t', rows[i], lines[i], cols))
  }

  predicate LineOk(line: Line, generation: nat) {
    && 0 < line.version <= generation && line.anchor.line != 0
    && GlyphsOk(line.glyphs)
  }

  lemma StandsLater(t: Tables, t': Tables, row: Row, line: Line, cols: nat)
    requires Extends(t, t') && Stands(t, row, line, cols)
    ensures Stands(t', row, line, cols)
  {
    ReadsTheSame(t, t', row.cells);
  }

  lemma {:induction false} ExportLinesOk(t: Tables, lines: seq<Line>, cols: nat, generation: nat)
    requires TablesOk(t) && forall i :: 0 <= i < |lines| ==> LineOk(lines[i], generation)
    ensures var r := t.ExportLines(lines, cols, generation);
            && (r.Some? <==> |LineStyles(t, lines, cols)| <= MAX_STYLES
                             && |LineLinks(t, lines, cols)| <= MAX_HYPERLINKS)
            && (r.Some? ==> ExportedLines(t, lines, cols, r.value.0, r.value.1))
  {
    hide TablesOk, Tables.ExportGlyphs, Stands, StylesOf, LinksOf;
    if lines == [] {
      TablesFit(t);
    } else {
      var fore, line := lines[..|lines| - 1], lines[|lines| - 1];
      ExportLinesOk(t, fore, cols, generation);
      var before := t.ExportLines(fore, cols, generation);
      if before.None? {
        Wider(LineStyles(t, fore, cols), LineStyles(t, lines, cols));
        Wider(LineLinks(t, fore, cols), LineLinks(t, lines, cols));
      } else {
        LineAdded(t, lines, cols, before.value.0, before.value.1);
      }
    }
  }

  lemma LineAdded(t: Tables, lines: seq<Line>, cols: nat, m: Tables, rows: seq<Row>)
    requires lines != [] && ExportedLines(t, lines[..|lines| - 1], cols, m, rows)
    requires GlyphsOk(lines[|lines| - 1].glyphs)
    ensures var line := lines[|lines| - 1];
            var r := m.ExportGlyphs(line.glyphs, cols);
            && (r.Some? <==> |LineStyles(t, lines, cols)| <= MAX_STYLES
                             && |LineLinks(t, lines, cols)| <= MAX_HYPERLINKS)
            && (r.Some? ==> ExportedLines(t, lines, cols, r.value.0,
                              rows + [Row(Some(line.anchor), line.version, r.value.1, line.wrapped)]))
  {
    hide TablesOk, Tables.ExportGlyphs, Stands, AllStyles, AllLinks, LineStyles, LineLinks, GlyphOk;
    var line := lines[|lines| - 1];
    LineSets(t, lines, cols, m);
    ExportGlyphsOk(m, line.glyphs, cols);
    var r := m.ExportGlyphs(line.glyphs, cols);
    if r.Some? {
      var row := Row(Some(line.anchor), line.version, r.value.1, line.wrapped);
      NewRowStands(m, line, cols, r.value.0, r.value.1);
      forall i | 0 <= i < |rows| ensures Stands(r.value.0, rows[i], lines[i], cols) {
        StandsLater(m, r.value.0, rows[i], lines[..|lines| - 1][i], cols);
      }
    }
  }

  lemma LineSets(t: Tables, lines: seq<Line>, cols: nat, m: Tables)
    requires lines != []
    requires m.styleIds.Keys == LineStyles(t, lines[..|lines| - 1], cols)
    requires m.linkIds.Keys == LineLinks(t, lines[..|lines| - 1], cols)
    ensures AllStyles(m, lines[|lines| - 1].glyphs, cols) == LineStyles(t, lines, cols)
    ensures AllLinks(m, lines[|lines| - 1].glyphs, cols) == LineLinks(t, lines, cols)
  {
    hide StylesOf, LinksOf;
  }

  lemma NewRowStands(m: Tables, line: Line, cols: nat, t': Tables, cells: seq<Cell>)
    requires ExportedRow(m, line.glyphs, cols, t', cells)
    ensures Stands(t', Row(Some(line.anchor), line.version, cells, line.wrapped), line, cols)
  {
  }

  // ---------------------------------------------------------------- when what is exported is valid

  /** Cells that fit the columns, in order, disjoint, and not beyond the given column. */
  predicate Laid(gs: seq<Glyph>, cols: nat, end: nat) {
    && (forall i :: 0 <= i < |gs| ==> GlyphOk(gs[i]) && End(gs[i]) <= cols && End(gs[i]) <= end)
    && (forall i, j :: 0 <= i < j < |gs| ==> End(gs[i]) <= gs[j].column)
  }

  lemma {:induction false} KeptOk(gs: seq<Glyph>, cols: nat)
    requires GlyphsOk(gs)
    ensures Laid(Kept(gs, cols), cols, if gs == [] then 0 else End(gs[|gs| - 1]))
  {
    hide GlyphOk, IsBlank;
    if gs != [] {
      var fore, g := gs[..|gs| - 1], gs[|gs| - 1];
      KeptOk(fore, cols);
      var k := Kept(fore, cols);
      assert GlyphOk(g);
      if fore != [] {
        assert fore[|fore| - 1] == gs[|gs| - 2];
        assert End(gs[|gs| - 2]) <= g.column;
      }
      Append(k, cols, if fore == [] then 0 else End(fore[|fore| - 1]), g);
    }
  }

  lemma Append(k: seq<Glyph>, cols: nat, end: nat, g: Glyph)
    requires Laid(k, cols, end) && GlyphOk(g) && end <= g.column
    ensures Laid(k + [], cols, End(g))
    ensures End(g) <= cols ==> Laid(k + [g], cols, End(g))
  {
    hide GlyphOk;
    assert k + [] == k;
  }

  lemma {:induction false} LaidFits(gs: seq<Glyph>, cols: nat, end: nat)
    requires Laid(gs, cols, end)
    ensures |gs| <= cols && |gs| <= end
  {
    hide ValidStyle;
    if gs != [] {
      var fore, g := gs[..|gs| - 1], gs[|gs| - 1];
      assert Laid(fore, g.column, g.column);
      LaidFits(fore, g.column, g.column);
      assert GlyphOk(g);
    }
  }

  /** Whether a text is exactly one extended grapheme cluster. */
  type Segmentation = string -> bool

  /** What the wire accepts of the text of a cell. */
  predicate SendableText(text: string, single: Segmentation) {
    |text| <= MAX_GRAPHEME_BYTES && single(text)
  }

  /** What it accepts of a hyperlink. */
  predicate SendableLink(k: LinkKey) {
    k.uri != "" && |k.uri| <= MAX_HYPERLINK_URI_BYTES && |k.explicitId| <= MAX_HYPERLINK_EXPLICIT_ID_BYTES
  }

  predicate Sendable(g: Glyph, single: Segmentation) {
    SendableText(g.grapheme, single) && (g.link.Some? ==> SendableLink(g.link.value))
  }

  predicate AllSendable(lines: seq<Line>, cols: nat, single: Segmentation) {
    forall i, j :: 0 <= i < |lines| && 0 <= j < |lines[i].glyphs| && Sent(lines[i].glyphs[j], cols) ==>
      Sendable(lines[i].glyphs[j], single)
  }

  predicate TextsSendable(gs: seq<Glyph>, cols: nat, single: Segmentation) {
    forall j :: 0 <= j < |gs| && Sent(gs[j], cols) ==> SendableText(gs[j].grapheme, single)
  }

  predicate LinksSendable(keys: set<LinkKey>) {
    forall k :: k in keys ==> SendableLink(k)
  }

  lemma {:induction false} KeptIsSent(gs: seq<Glyph>, cols: nat, g: Glyph)
    ensures g in Kept(gs, cols) <==> g in gs && Sent(g, cols)
  {
    hide Sent;
    if gs != [] {
      KeptIsSent(gs[..|gs| - 1], cols, g);
      assert gs == gs[..|gs| - 1] + [gs[|gs| - 1]];
    }
  }

  predicate ShortTexts(cells: seq<Cell>) {
    forall i :: 0 <= i < |cells| ==> |cells[i].grapheme| <= MAX_GRAPHEME_BYTES
  }

  predicate SingleTexts(cells: seq<Cell>, single: Segmentation) {
    forall i :: 0 <= i < |cells| ==> single(cells[i].grapheme)
  }

  /** The cells of an exported row are those the engine keeps, in order and within the columns. */
  lemma CellsLaid(t: Tables, cells: seq<Cell>, gs: seq<Glyph>, cols: nat)
    requires GlyphsOk(gs) && ReadCells(t, cells) == Kept(gs, cols)
    ensures |cells| <= cols
    ensures forall i :: 0 <= i < |cells| ==>
              cells[i].grapheme != "" && 1 <= cells[i].width <= 2 && cells[i].column + cells[i].width <= cols
    ensures forall i :: 1 <= i < |cells| ==> cells[i - 1].column + cells[i - 1].width <= cells[i].column
  {
    hide GlyphsOk, Kept, ReadStyle, ReadLink, ValidStyle;
    KeptOk(gs, cols);
    var kept := Kept(gs, cols);
    LaidFits(kept, cols, if gs == [] then 0 else End(gs[|gs| - 1]));
    forall i | 0 <= i < |cells|
      ensures kept[i].column == cells[i].column && kept[i].width == cells[i].width
              && kept[i].grapheme == cells[i].grapheme
    {
      assert kept[i] == ReadCell(t, cells[i]);
    }
  }

  lemma CellsResolve(t: Tables, cells: seq<Cell>)
    requires TablesOk(t) && forall i :: 0 <= i < |cells| ==> Resolves(t, cells[i])
    ensures forall i :: 0 <= i < |cells| ==>
              && (cells[i].style == 0 || exists s :: s in t.styles && s.id == cells[i].style)
              && (cells[i].hyperlink == 0 || exists h :: h in t.links && h.id == cells[i].hyperlink)
  {
    hide Indexed, ValidStyle;
    forall i | 0 <= i < |cells| && cells[i].style != 0
      ensures exists s :: s in t.styles && s.id == cells[i].style
    {
      assert Resolves(t, cells[i]);
      assert t.styles[cells[i].style - 1] in t.styles;
    }
    forall i | 0 <= i < |cells| && cells[i].hyperlink != 0
      ensures exists h :: h in t.links && h.id == cells[i].hyperlink
    {
      assert Resolves(t, cells[i]);
      assert t.links[cells[i].hyperlink - 1] in t.links;
    }
  }

  /** An exported row is valid exactly if its texts are short enough. */
  lemma CellsValid(t: Tables, cells: seq<Cell>, gs: seq<Glyph>, cols: nat)
    requires TablesOk(t) && GlyphsOk(gs)
    requires forall i :: 0 <= i < |cells| ==> Resolves(t, cells[i])
    requires ReadCells(t, cells) == Kept(gs, cols)
    ensures ValidCells(cells, cols, t.styles, t.links) <==> ShortTexts(cells)
    ensures |cells| <= cols
  {
    hide TablesOk, GlyphsOk, Kept, ReadCells, Resolves;
    CellsLaid(t, cells, gs, cols);
    CellsResolve(t, cells);
  }

  lemma TextsRead(t: Tables, cells: seq<Cell>, gs: seq<Glyph>, cols: nat, single: Segmentation)
    requires ReadCells(t, cells) == Kept(gs, cols)
    ensures ShortTexts(cells) && SingleTexts(cells, single) <==> TextsSendable(gs, cols, single)
  {
    hide Kept, Sent;
    var kept := Kept(gs, cols);
    forall i | 0 <= i < |cells|
      ensures exists j :: 0 <= j < |gs| && Sent(gs[j], cols) && gs[j].grapheme == cells[i].grapheme
    {
      assert kept[i] == ReadCell(t, cells[i]);
      KeptIsSent(gs, cols, kept[i]);
    }
    forall j | 0 <= j < |gs| && Sent(gs[j], cols)
      ensures exists i :: 0 <= i < |cells| && cells[i].grapheme == gs[j].grapheme
    {
      KeptIsSent(gs, cols, gs[j]);
      var i :| 0 <= i < |kept| && kept[i] == gs[j];
      assert kept[i] == ReadCell(t, cells[i]);
    }
  }

  /** The tables of an export are valid exactly if every interned link is. */
  lemma TablesValid(t: Tables)
    requires TablesOk(t)
    ensures ValidTables(t.styles, t.links) <==> LinksSendable(t.linkIds.Keys)
  {
    hide ValidStyle, Indexed, LinksSendable;
    LinksValid(t.linkIds, t.links);
    assert forall i :: 0 <= i < |t.links| ==> t.links[i].uri == Key(t.links[i]).uri;
  }

  lemma LinksValid(ids: map<LinkKey, nat>, links: seq<Hyperlink>)
    requires Indexed(ids, LinkKeys(links))
    ensures (forall i :: 0 <= i < |links| ==> SendableLink(Key(links[i]))) <==> LinksSendable(ids.Keys)
  {
    hide SendableLink;
    forall i | 0 <= i < |links| ensures Key(links[i]) in ids {
      assert LinkKeys(links)[i] in ids;
    }
    forall k | k in ids ensures exists i :: 0 <= i < |links| && Key(links[i]) == k {
      IndexOf(ids, LinkKeys(links), k);
      assert Key(links[ids[k] - 1]) == k;
    }
  }

  /** Every interned link is the link of a cell that is sent, and the other way round. */
  lemma {:induction false} LinksFrom(lines: seq<Line>, cols: nat, k: LinkKey)
    ensures k in LineLinks(EMPTY_TABLES, lines, cols) <==>
            exists i, j :: 0 <= i < |lines| && 0 <= j < |lines[i].glyphs| && Sent(lines[i].glyphs[j], cols)
                           && lines[i].glyphs[j].link == Some(k)
  {
    if lines != [] {
      var n := |lines| - 1;
      LinksFrom(lines[..n], cols, k);
      RowLinksFrom(lines[n].glyphs, cols, k);
    }
  }

  lemma RowLinksFrom(gs: seq<Glyph>, cols: nat, k: LinkKey)
    ensures k in LinksOf(gs, cols) <==> exists j :: 0 <= j < |gs| && Sent(gs[j], cols) && gs[j].link == Some(k)
  {
  }

  lemma SendableParts(lines: seq<Line>, cols: nat, single: Segmentation)
    ensures AllSendable(lines, cols, single) <==>
            && (forall i :: 0 <= i < |lines| ==> TextsSendable(lines[i].glyphs, cols, single))
            && LinksSendable(LineLinks(EMPTY_TABLES, lines, cols))
  {
    hide Sent, LineLinks, SendableText, SendableLink;
    forall k ensures k in LineLinks(EMPTY_TABLES, lines, cols) <==>
        exists i, j :: 0 <= i < |lines| && 0 <= j < |lines[i].glyphs| && Sent(lines[i].glyphs[j], cols)
                       && lines[i].glyphs[j].link == Some(k)
    {
      LinksFrom(lines, cols, k);
    }
  }
}
