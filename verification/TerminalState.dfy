/**
  Terminal State v2: the value that the server exports and the client replicates
  (src/terminal_state_v2.rs).  Byte strings are `string`s whose length is the
  byte length.  An epoch is modelled by the ordinal of its fresh 16-byte UUID:
  the code compares epochs for equality only, and a UUID is never reused.
 */
module TerminalState {
  import opened Basics

  type Epoch = nat

  const SCHEMA_VERSION: nat := 2
  const MAX_DIMENSION: nat := 1000
  const MAX_INCLUDED_ROWS: nat := 4096
  const MAX_CELLS: nat := 1000000
  const MAX_GRAPHEME_BYTES: nat := 256
  const MAX_STYLES: nat := 4096
  const MAX_HYPERLINKS: nat := 4096
  const MAX_HYPERLINK_URI_BYTES: nat := 16384
  const MAX_HYPERLINK_EXPLICIT_ID_BYTES: nat := 1024
  const MAX_TITLE_BYTES: nat := 512
  const MAX_WORKING_DIRECTORY_BYTES: nat := 16384

  datatype Anchor = Anchor(line: nat, offset: nat)

  datatype Cell = Cell(column: nat, grapheme: string, width: nat, style: nat, hyperlink: nat)

  datatype Row = Row(start: Option<Anchor>, version: nat, cells: seq<Cell>, wrapped: bool)

  datatype Cursor = Cursor(x: nat, y: nat, anchor: Option<Anchor>, shape: nat, visible: bool,
                           version: nat, wrapPending: bool)

  datatype Screen = Screen(rows: seq<Row>, viewportStart: nat,
                           cursor: Option<Cursor>, savedCursor: Option<Cursor>,
                           oldest: Option<Anchor>, newest: Option<Anchor>,
                           includedStart: Option<Anchor>, includedEnd: Option<Anchor>,
                           marginTop: nat, marginBottom: nat, marginLeft: nat, marginRight: nat,
                           tabStops: seq<nat>)

  datatype Color = DefaultColor | PaletteIndex(index: nat) | Rgb(rgb: nat)

  datatype Style = Style(id: nat, foreground: Option<Color>, background: Option<Color>,
                         underlineColor: Option<Color>, intensity: nat, underline: nat, blink: nat,
                         italic: bool, reverse: bool, strikethrough: bool, invisible: bool,
                         overline: bool, semanticType: nat, verticalAlign: nat)

  datatype Hyperlink = Hyperlink(id: nat, uri: string, explicitId: string)

  /** `flags` holds the twelve boolean modes in field order. */
  datatype Modes = Modes(flags: seq<bool>, mouseTracking: nat, mouseEncoding: nat,
                         keyboardEncoding: nat, keyboardFlags: nat)

  /** `special` holds the six named colours in field order. */
  datatype Palette = Palette(indexed: seq<nat>, special: seq<nat>)

  datatype State = State(schemaVersion: nat, epoch: Epoch, generation: nat, rows: nat, cols: nat,
                         primary: Option<Screen>, alternate: Option<Screen>, activeScreen: nat,
                         styles: seq<Style>, hyperlinks: seq<Hyperlink>, modes: Option<Modes>,
                         title: string, workingDirectory: string, palette: Option<Palette>)

  const PRIMARY_SCREEN: nat := 1
  const ALTERNATE_SCREEN: nat := 2

  /** Lexicographic order on (logical line, cell offset). */
  predicate AnchorLess(a: Anchor, b: Anchor) {
    a.line < b.line || (a.line == b.line && a.offset < b.offset)
  }

  predicate AnchorAtMost(a: Anchor, b: Anchor) {
    a == b || AnchorLess(a, b)
  }

  predicate ValidAnchor(a: Option<Anchor>) {
    a.Some? && a.value.line != 0
  }

  predicate ValidColor(c: Option<Color>) {
    c.Some? &&
    match c.value
    case DefaultColor => true
    case PaletteIndex(i) => i < 256
    case Rgb(v) => v <= 0xff_ffff
  }

  predicate ValidStyle(s: Style) {
    && ValidColor(s.foreground) && ValidColor(s.background) && ValidColor(s.underlineColor)
    && s.intensity <= 2 && s.underline <= 5 && s.blink <= 2
    && s.semanticType <= 2 && s.verticalAlign <= 2
  }

  predicate ValidTables(styles: seq<Style>, hyperlinks: seq<Hyperlink>) {
    && |styles| <= MAX_STYLES
    && (forall i :: 0 <= i < |styles| ==> ValidStyle(styles[i]) && styles[i].id != 0)
    && (forall i, j :: 0 <= i < j < |styles| ==> styles[i].id != styles[j].id)
    && |hyperlinks| <= MAX_HYPERLINKS
    && (forall i :: 0 <= i < |hyperlinks| ==>
          && hyperlinks[i].id != 0 && hyperlinks[i].uri != ""
          && |hyperlinks[i].uri| <= MAX_HYPERLINK_URI_BYTES
          && |hyperlinks[i].explicitId| <= MAX_HYPERLINK_EXPLICIT_ID_BYTES)
    && (forall i, j :: 0 <= i < j < |hyperlinks| ==> hyperlinks[i].id != hyperlinks[j].id)
  }

  predicate ValidModes(m: Modes) {
    && |m.flags| == 12
    && m.mouseTracking <= 4 && m.mouseEncoding <= 3 && m.keyboardEncoding <= 2
    && (if m.keyboardEncoding == 2 then m.keyboardFlags <= 0x1f else m.keyboardFlags == 0)
  }

  predicate ValidPalette(p: Palette) {
    && |p.indexed| == 256 && |p.special| == 6
    && (forall i :: 0 <= i < 256 ==> p.indexed[i] <= 0xff_ffff)
    && (forall i :: 0 <= i < 6 ==> p.special[i] <= 0xff_ffff)
  }

  /** One grapheme per cell, one or two columns wide, inside the row, in order and disjoint. */
  predicate ValidCells(cells: seq<Cell>, cols: nat, styles: seq<Style>, hyperlinks: seq<Hyperlink>) {
    && (forall i :: 0 <= i < |cells| ==>
          && cells[i].grapheme != "" && |cells[i].grapheme| <= MAX_GRAPHEME_BYTES
          && 1 <= cells[i].width <= 2
          && cells[i].column + cells[i].width <= cols
          && (cells[i].style == 0 || exists s :: s in styles && s.id == cells[i].style)
          && (cells[i].hyperlink == 0 || exists h :: h in hyperlinks && h.id == cells[i].hyperlink))
    && (forall i :: 1 <= i < |cells| ==>
          cells[i - 1].column + cells[i - 1].width <= cells[i].column)
  }

  /** Row anchors strictly ascend; a soft wrap continues the line, a hard break starts a later one. */
  predicate ValidRows(rows: seq<Row>, cols: nat, generation: nat,
                      styles: seq<Style>, hyperlinks: seq<Hyperlink>) {
    && (forall i :: 0 <= i < |rows| ==>
          && ValidAnchor(rows[i].start)
          && 0 < rows[i].version <= generation
          && ValidCells(rows[i].cells, cols, styles, hyperlinks))
    && (forall i :: 1 <= i < |rows| ==>
          var a, b := rows[i - 1].start.value, rows[i].start.value;
          && AnchorLess(a, b)
          && (if rows[i - 1].wrapped then b.line == a.line && b.offset == a.offset + cols
              else a.line < b.line))
  }

  predicate ValidCursor(c: Cursor, screen: Screen, rows: nat, cols: nat, generation: nat) {
    && c.x < cols && c.y < rows
    && 0 < c.version <= generation
    && 1 <= c.shape <= 3
    && screen.viewportStart + c.y < |screen.rows|
    && var start := screen.rows[screen.viewportStart + c.y].start;
    && ValidAnchor(start) && ValidAnchor(c.anchor)
    && c.anchor.value.line == start.value.line
    && c.anchor.value.offset == start.value.offset + c.x
  }

  predicate ValidMarginsAndTabs(screen: Screen, rows: nat, cols: nat) {
    && screen.marginTop < screen.marginBottom <= rows
    && screen.marginLeft < screen.marginRight <= cols
    && |screen.tabStops| <= cols
    && (forall i :: 0 <= i < |screen.tabStops| ==> screen.tabStops[i] < cols)
    && (forall i :: 1 <= i < |screen.tabStops| ==> screen.tabStops[i - 1] < screen.tabStops[i])
  }

  predicate ValidScreen(screen: Screen, alternate: bool, s: State) {
    && screen.rows != []
    && (alternate ==> screen.viewportStart == 0 && |screen.rows| == s.rows)
    && screen.viewportStart + s.rows <= |screen.rows|
    && ValidMarginsAndTabs(screen, s.rows, s.cols)
    && ValidAnchor(screen.oldest) && ValidAnchor(screen.newest)
    && ValidAnchor(screen.includedStart) && ValidAnchor(screen.includedEnd)
    && AnchorAtMost(screen.oldest.value, screen.includedStart.value)
    && AnchorAtMost(screen.includedStart.value, screen.includedEnd.value)
    && AnchorAtMost(screen.includedEnd.value, screen.newest.value)
    && screen.rows[0].start == screen.includedStart
    && screen.rows[|screen.rows| - 1].start == screen.includedEnd
    && ValidRows(screen.rows, s.cols, s.generation, s.styles, s.hyperlinks)
    && screen.cursor.Some? && ValidCursor(screen.cursor.value, screen, s.rows, s.cols, s.generation)
    && (screen.savedCursor.Some? ==>
          ValidCursor(screen.savedCursor.value, screen, s.rows, s.cols, s.generation))
  }

  function CellCount(rows: seq<Row>): nat {
    if rows == [] then 0 else |rows[0].cells| + CellCount(rows[1..])
  }

  predicate Valid(s: State) {
    && s.schemaVersion == SCHEMA_VERSION
    && s.generation > 0
    && 1 <= s.rows <= MAX_DIMENSION && 1 <= s.cols <= MAX_DIMENSION
    && |s.title| <= MAX_TITLE_BYTES
    && |s.workingDirectory| <= MAX_WORKING_DIRECTORY_BYTES
    && (s.activeScreen == PRIMARY_SCREEN || s.activeScreen == ALTERNATE_SCREEN)
    && s.modes.Some? && ValidModes(s.modes.value)
    && s.palette.Some? && ValidPalette(s.palette.value)
    && ValidTables(s.styles, s.hyperlinks)
    && s.primary.Some? && s.alternate.Some?
    && |s.primary.value.rows| + |s.alternate.value.rows| <= MAX_INCLUDED_ROWS
    && ValidScreen(s.primary.value, false, s)
    && ValidScreen(s.alternate.value, true, s)
    && CellCount(s.primary.value.rows) + CellCount(s.alternate.value.rows) <= MAX_CELLS
  }

  /** Both screens hold exactly one viewport: no scrollback in a live state. */
  predicate ValidViewport(s: State) {
    && Valid(s)
    && s.primary.value.viewportStart == 0 && |s.primary.value.rows| == s.rows
    && s.alternate.value.viewportStart == 0 && |s.alternate.value.rows| == s.rows
  }

  /** The cells of a valid row never outnumber the columns. */
  lemma {:induction false} CellsFitColumns(cells: seq<Cell>, cols: nat,
                                           styles: seq<Style>, hyperlinks: seq<Hyperlink>)
    requires ValidCells(cells, cols, styles, hyperlinks)
    ensures |cells| <= cols
    ensures cells != [] ==> |cells| <= cells[|cells| - 1].column + cells[|cells| - 1].width
  {
    if |cells| > 1 {
      CellsFitColumns(cells[..|cells| - 1], cols, styles, hyperlinks);
      var last := cells[|cells| - 1];
      assert last.column + last.width <= cols;
    }
  }

  /** Anchors of valid rows are pairwise distinct and in row order. */
  lemma {:induction false} AnchorsAscend(rows: seq<Row>, cols: nat, generation: nat,
                                         styles: seq<Style>, hyperlinks: seq<Hyperlink>, i: nat, j: nat)
    requires ValidRows(rows, cols, generation, styles, hyperlinks)
    requires i < j < |rows|
    ensures AnchorLess(rows[i].start.value, rows[j].start.value)
    decreases j
  {
    if i < j - 1 {
      AnchorsAscend(rows, cols, generation, styles, hyperlinks, i, j - 1);
    }
  }
}
