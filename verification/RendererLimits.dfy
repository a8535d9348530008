/** Where the agreement of incremental and full repaint ends. */
module RendererLimits {
  import opened Basics
  import opened TerminalState
  import opened CharacterDisplay
  import opened ViewportRendering

  /** n rows of two columns whose last two rows hold the given cells. */
  function Sample(n: nat, upper: seq<Cell>, lower: seq<Cell>, links: seq<Hyperlink>): State
    requires n > 0
  {
    var first, last := Some(Anchor(1, 0)), Some(Anchor(n, 0));
    var rows := seq(n, i requires 0 <= i => Row(Some(Anchor(i + 1, 0)), 1,
                                if i == n - 1 then lower else if i == n - 2 then upper else [], false));
    var screen := Screen(rows, 0, Some(Cursor(0, 0, first, 1, true, 1, false)), None,
                         first, last, first, last, 0, n, 0, 2, []);
    State(SCHEMA_VERSION, 1, 1, n, 2, Some(screen), Some(screen), PRIMARY_SCREEN, [], links,
          Some(Modes(seq(12, _ => false), 0, 0, 0, 0)), "", "",
          Some(Palette(seq(256, _ => 0), seq(6, _ => 0))))
  }

  lemma {:induction false} FewCells(rows: seq<Row>)
    requires forall i :: 0 <= i < |rows| ==> |rows[i].cells| <= 2
    ensures CellCount(rows) <= 2 * |rows|
  {
    if rows != [] {
      FewCells(rows[1..]);
    }
  }

  lemma SampleValid(n: nat, upper: seq<Cell>, lower: seq<Cell>, links: seq<Hyperlink>)
    requires 0 < n <= MAX_DIMENSION && |upper| <= 2 && |lower| <= 2
    requires ValidCells(upper, 2, [], links) && ValidCells(lower, 2, [], links) && ValidTables([], links)
    ensures Valid(Sample(n, upper, lower, links))
  {
    hide ValidCells, ValidTables, CellCount;
    EmptyIsValid(links);
    FewCells(Sample(n, upper, lower, links).primary.value.rows);
  }

  lemma EmptyIsValid(links: seq<Hyperlink>)
    ensures ValidCells([], 2, [], links)
  {
  }

  const A: Cell := Cell(0, "a", 1, 0, 0)
  const B: Cell := Cell(0, "b", 1, 0, 0)
  const C: Cell := Cell(0, "c", 1, 0, 0)
  const TARGET: Hyperlink := Hyperlink(1, "u", "")

  /** A terminal on which the sample graphemes are ordinary narrow characters. */
  predicate Prints(t: Terminal) {
    && !t.control("a") && t.width("a") == 1
    && !t.control("b") && t.width("b") == 1
    && !t.control("c") && t.width("c") == 1
  }

  // ---------------------------------------------------------------- what the sample states show

  function CellsAt(n: nat, upper: seq<Cell>, lower: seq<Cell>, r: nat): seq<Cell> {
    if r + 1 == n then lower else if r + 2 == n then upper else []
  }

  lemma SampleScreen(n: nat, upper: seq<Cell>, lower: seq<Cell>, links: seq<Hyperlink>)
    requires n > 0
    ensures var s := Sample(n, upper, lower, links);
            && s.primary.Some? && s.alternate.Some? && s.rows == n && s.cols == 2 && s.activeScreen == 1
            && s.styles == [] && s.hyperlinks == links
            && Active(s).viewportStart == 0 && |Active(s).rows| == n
            && forall r :: 0 <= r < n ==> Active(s).rows[r].cells == CellsAt(n, upper, lower, r)
  {
  }

  lemma SampleRows(n: nat, upper: seq<Cell>, lower: seq<Cell>, links: seq<Hyperlink>)
    requires n > 0 && Valid(Sample(n, upper, lower, links))
    ensures forall r :: 0 <= r < n ==> Visible(Sample(n, upper, lower, links))[r].cells == CellsAt(n, upper, lower, r)
  {
    hide Valid, Sample, CellsAt;
    SampleScreen(n, upper, lower, links);
  }

  lemma SamePalette(n: nat, a: seq<Cell>, b: seq<Cell>, lower: seq<Cell>)
    requires n > 0
    ensures Sample(n, a, lower, []).palette == Sample(n, b, lower, []).palette
  {
    assert Sample(n, a, lower, []).palette.value.indexed == Sample(n, b, lower, []).palette.value.indexed;
    assert Sample(n, a, lower, []).palette.value.special == Sample(n, b, lower, []).palette.value.special;
  }

  // ---------------------------------------------------------------- full repaints under an open link

  /** The link that is open after n rows have been painted. */
  function RowsLink(s: State, n: nat, outer: Option<Link>): Option<Link>
    requires Valid(s) && n <= s.rows
  {
    if n == 0 then outer else LinkAfter(Visible(s)[n - 1].cells, RowsLink(s, n - 1, outer))
  }

  /** Row r as a full repaint leaves it if `outer` is open at the start. */
  function RowUnder(t: Terminal, s: State, r: nat, columns: nat, outer: Option<Link>): (line: seq<Slot>)
    requires Valid(s) && r < s.rows && columns > 0
    ensures |line| == columns
  {
    LineUnder(t, s.styles, s.hyperlinks, Visible(s)[r].cells, columns, RowsLink(s, r, outer))
  }

  /** The first n rows are on their lines, the other lines are as before. */
  predicate ReachedUnder(t: Terminal, d: Display, d': Display, s: State, n: nat)
    requires d.Shaped() && Valid(s) && n <= s.rows && |d'.grid| == |d.grid|
  {
    forall r :: 0 <= r < |d.grid| ==>
      d'.grid[r] == if r < n then RowUnder(t, s, r, d.columns, d.link) else d.grid[r]
  }

  /** On any display, however short: rows that do not fit are painted on the last line. */
  lemma {:induction false} RowsPaintUnder(t: Terminal, d: Display, s: State, n: nat)
    requires Ready(d) && Valid(s) && n <= s.rows && NamedLinks(s.hyperlinks)
    ensures var d' := Apply(t, d, RowsOps(t, None, s, n));
            && Ready(d') && d'.link == RowsLink(s, n, d.link) && d'.settings == d.settings
            && (n > 0 ==> d'.grid[Clamp(d, n - 1)] == RowUnder(t, s, n - 1, d.columns, d.link))
            && (n <= |d.grid| ==> ReachedUnder(t, d, d', s, n))
  {
    hide Apply, Step, Valid, Visible, LineUnder, LinkAfter, RowOps;
    if n == 0 {
      Optional(t, d, [], []);
    } else {
      RowsPaintUnder(t, d, s, n - 1);
      var row := RowOps(t, s.styles, s.hyperlinks, n - 1, Visible(s)[n - 1].cells);
      ApplyConcat(t, d, RowsOps(t, None, s, n - 1), row);
      RowPaintsUnder(t, s.styles, s.hyperlinks, Apply(t, d, RowsOps(t, None, s, n - 1)), n - 1,
                     Visible(s)[n - 1].cells);
    }
  }

  lemma TablesName(s: State)
    requires Valid(s)
    ensures NamedLinks(s.hyperlinks)
  {
  }

  /** What a full repaint begins with: a plain, blank display with the link it had. */
  lemma RepaintStarts(t: Terminal, d: Display, rest: seq<Op>) returns (d': Display)
    requires d.Shaped()
    ensures Ready(d') && d'.link == d.link && |d'.grid| == |d.grid| && d'.columns == d.columns
    ensures d'.settings == Apply(t, d, Prefix()).settings
    ensures forall r :: 0 <= r < |d.grid| ==> d'.grid[r] == BlankLine(d.columns, [])
    ensures Apply(t, d, Prefix() + [EraseDisplay, CursorTo(0, 0)] + rest) == Apply(t, d', rest)
  {
    hide Apply, Step, Prefix, BlankLine;
    var clear := [EraseDisplay, CursorTo(0, 0)];
    PrefixIsPlain(t, d);
    var d1 := Apply(t, d, Prefix());
    ClearBlanks(t, d1);
    d' := Apply(t, d1, clear);
    ApplyConcat(t, d, Prefix(), clear);
    ApplyConcat(t, d, Prefix() + clear, rest);
  }

  /** The picture that a full repaint leaves under the link that was open. */
  predicate Repainted(t: Terminal, d: Display, d': Display, s: State)
    requires d.Shaped() && Valid(s) && d'.Shaped() && |d'.grid| == |d.grid|
  {
    && d'.link == RowsLink(s, s.rows, d.link)
    && d'.grid[Clamp(d, s.rows - 1)] == RowUnder(t, s, s.rows - 1, d.columns, d.link)
    && (s.rows <= |d.grid| ==> forall r :: 0 <= r < |d.grid| ==>
          d'.grid[r] == if r < s.rows then RowUnder(t, s, r, d.columns, d.link) else BlankLine(d.columns, []))
  }

  lemma BodyRepaints(t: Terminal, d: Display, s: State)
    requires d.Shaped() && Valid(s)
    ensures var b := Apply(t, d, Body(t, None, s));
            Ready(b) && Repainted(t, d, b, s) && b.settings == Apply(t, d, Prefix()).settings
  {
    hide Apply, Step, Prefix, RowUnder, RowsLink, RowsOps, BlankLine, ValidScreen, ValidModes, ValidTables, CellCount;
    TablesName(s);
    var d1 := RepaintStarts(t, d, RowsOps(t, None, s, s.rows));
    RowsPaintUnder(t, d1, s, s.rows);
  }

  lemma FullRepaint(t: Terminal, d: Display, s: State)
    requires d.Shaped() && Valid(s)
    ensures Repainted(t, d, Apply(t, d, Frame(t, None, s)), s)
  {
    hide Apply, Step, Body, Closing, Valid, RowUnder, RowsLink, BlankLine, Active;
    BodyRepaints(t, d, s);
    var b := Apply(t, d, Body(t, None, s));
    ApplyConcat(t, d, Body(t, None, s), Closing(s));
    ClosingSettles(t, b, b, s);
  }

  /** Rows without linked cells leave the link as it is. */
  lemma {:induction false} LinkStays(s: State, n: nat, outer: Option<Link>)
    requires Valid(s) && n <= s.rows
    requires forall r :: 0 <= r < n ==> LinkAfter(Visible(s)[r].cells, outer) == outer
    ensures RowsLink(s, n, outer) == outer
  {
    hide Valid, Visible, LinkAfter;
    if n > 0 {
      LinkStays(s, n - 1, outer);
    }
  }

  /** Showing the same state again paints nothing. */
  lemma {:induction false} NothingToPaint(t: Terminal, s: State, k: nat)
    requires Valid(s) && k <= s.rows
    ensures RowsOps(t, Some(s), s, k) == []
  {
    hide Valid, RowOps, Visible;
    if k > 0 {
      NothingToPaint(t, s, k - 1);
    }
  }

  lemma RepeatKeeps(t: Terminal, d: Display, s: State)
    requires d.Shaped() && Valid(s)
    ensures Apply(t, d, Frame(t, Some(s), s)).grid == d.grid
  {
    hide Apply, Step, Prefix, Closing, Valid, RowsOps, Visible;
    NothingToPaint(t, s, s.rows);
    assert Frame(t, Some(s), s) == Prefix() + Closing(s);
    ApplyConcat(t, d, Prefix(), Closing(s));
    PrefixIsPlain(t, d);
    var b := Apply(t, d, Prefix());
    ClosingSettles(t, b, b, s);
  }

  // ---------------------------------------------------------------- a link that is open at the start

  /** Shown twice, the state leaves another display than repainting it in full. */
  predicate Breaks(t: Terminal, d: Display, s: State)
    requires d.Shaped() && Valid(s)
  {
    var d' := Apply(t, d, Frame(t, None, s));
    Apply(t, d', Frame(t, Some(s), s)) != Apply(t, d', Frame(t, None, s))
  }

  lemma LeakBreaks(t: Terminal, d: Display, s: State, y: nat)
    requires d.Shaped() && Valid(s) && y < |d.grid|
    requires var d' := Apply(t, d, Frame(t, None, s));
             d'.grid[y] != Apply(t, d', Frame(t, None, s)).grid[y]
    ensures Breaks(t, d, s)
  {
    hide Apply, Frame, Valid;
    RepeatKeeps(t, Apply(t, d, Frame(t, None, s)), s);
  }

  /** Painted under the open link, the cells look different than without, and close it. */
  predicate Leaks(t: Terminal, links: seq<Hyperlink>, cells: seq<Cell>, columns: nat, outer: Option<Link>)
    requires columns > 0
  {
    && LineUnder(t, [], links, cells, columns, outer) != LineUnder(t, [], links, cells, columns, None)
    && LinkAfter(cells, outer) == None
  }

  predicate OnlyLast(s: State, cells: seq<Cell>, links: seq<Hyperlink>)
    requires Valid(s)
  {
    && s.styles == [] && s.hyperlinks == links
    && forall r :: 0 <= r < s.rows ==> Visible(s)[r].cells == if r == s.rows - 1 then cells else []
  }

  /** n rows; only the last one has cells. */
  lemma OnlyLastIs(n: nat, cells: seq<Cell>, links: seq<Hyperlink>)
    requires 0 < n <= MAX_DIMENSION && |cells| <= 2 && ValidCells(cells, 2, [], links) && ValidTables([], links)
    ensures var s := Sample(n, [], cells, links); Valid(s) && s.rows == n && OnlyLast(s, cells, links)
  {
    hide Valid, Sample, ValidCells, ValidTables;
    EmptyIsValid(links);
    SampleValid(n, [], cells, links);
    SampleScreen(n, [], cells, links);
    SampleRows(n, [], cells, links);
  }

  lemma LastRowBreaks(t: Terminal, d: Display, s: State, cells: seq<Cell>, links: seq<Hyperlink>)
    requires d.Shaped() && Valid(s) && OnlyLast(s, cells, links) && Leaks(t, links, cells, d.columns, d.link)
    ensures Breaks(t, d, s)
  {
    hide Apply, Frame, Valid, Visible, LineUnder, BlankLine, Breaks;
    FullRepaint(t, d, s);
    var d' := Apply(t, d, Frame(t, None, s));
    FullRepaint(t, d', s);
    LinkStays(s, s.rows - 1, d.link);
    LinkStays(s, s.rows - 1, None);
    LeakBreaks(t, d, s, Clamp(d, s.rows - 1));
  }

  /** Two cells, of which the second is linked and leaves the first as it is. */
  lemma SecondCellCloses(t: Terminal, columns: nat, outer: Option<Link>, cell: Cell)
    requires columns > 0 && outer.Some? && Prints(t) && cell.column == 1 && cell.hyperlink == 1
    requires columns >= 2 || t.control(cell.grapheme) || t.width(cell.grapheme) == 0
    ensures Leaks(t, [TARGET], [A, cell], columns, outer)
  {
    hide LineUnder;
    FirstCell(t, columns, outer, cell);
    FirstCell(t, columns, None, cell);
  }

  lemma FirstCell(t: Terminal, columns: nat, outer: Option<Link>, cell: Cell)
    requires columns > 0 && Prints(t) && cell.column == 1 && cell.hyperlink == 1
    requires columns >= 2 || t.control(cell.grapheme) || t.width(cell.grapheme) == 0
    ensures LineUnder(t, [], [TARGET], [A, cell], columns, outer)[0] == Head("a", [], outer)
  {
    hide CellLink, CellPen;
    assert [A, cell][..1] == [A];
    NoLinkHere(t, [TARGET], A);
    OnlyA(t, columns, outer, [TARGET], A);
  }

  /** A single letter without a link that the terminal accepts is drawn with the link that is open. */
  lemma OnlyA(t: Terminal, columns: nat, outer: Option<Link>, links: seq<Hyperlink>, cell: Cell)
    requires columns > 0 && Prints(t) && cell.column == 0 && cell.grapheme in {"a", "b", "c"} && cell.style == 0
    requires CellLink(t, links, cell) == None
    ensures LineUnder(t, [], links, [cell], columns, outer)[0] == Head(cell.grapheme, [], outer)
    ensures LinkAfter([cell], outer) == if cell.hyperlink != 0 then None else outer
  {
    hide CellLink;
    assert [cell][..0] == [];
    assert LineUnder(t, [], links, [], columns, outer) == BlankLine(columns, []);
  }

  lemma NoLinkHere(t: Terminal, links: seq<Hyperlink>, cell: Cell)
    requires cell.hyperlink == 0 && (links == [] || links == [TARGET])
    ensures CellLink(t, links, cell) == None
  {
    assert [TARGET][..0] == [];
    assert FindLink([], 0) == None;
  }

  /** A linked letter whose link holds a control character: the link is dropped, and what was open is closed. */
  lemma DroppedLinkCloses(t: Terminal, columns: nat, outer: Option<Link>, link: Hyperlink)
    requires columns > 0 && outer.Some? && Prints(t) && link.id == 1
    requires t.control(link.uri) || t.control(link.explicitId)
    ensures Leaks(t, [link], [A.(hyperlink := 1)], columns, outer)
  {
    hide LineUnder;
    assert FindLink([link], 1) == Some(link);
    OnlyA(t, columns, outer, [link], A.(hyperlink := 1));
    OnlyA(t, columns, None, [link], A.(hyperlink := 1));
  }

  lemma CellsAreValid(cells: seq<Cell>, link: Hyperlink)
    requires || cells == [A.(hyperlink := 1)]
             || (&& |cells| == 2 && cells[0] == A && cells[1].(grapheme := "") == Cell(1, "", 1, 0, 1)
                 && 0 < |cells[1].grapheme| <= MAX_GRAPHEME_BYTES)
    requires link.id == 1 && 0 < |link.uri| <= MAX_HYPERLINK_URI_BYTES && link.explicitId == ""
    ensures ValidCells(cells, 2, [], [link]) && ValidTables([], [link])
  {
    assert link in [link];
  }

  /** Every text that a state can hold is drawn, and no link is dropped. */
  ghost predicate AlwaysDraws(t: Terminal) {
    && (forall text: string :: 0 < |text| <= MAX_GRAPHEME_BYTES ==> t.width(text) > 0)
    && (forall text: string :: |text| <= MAX_HYPERLINK_URI_BYTES ==> !t.control(text))
  }

  /** The last row closes the link, the row above was painted under it. */
  lemma RowBelowCloses(t: Terminal, d: Display, s: State)
    requires d.Shaped() && d.link.Some? && Prints(t) && Valid(s) && 2 <= s.rows <= |d.grid| && RowBelow(s)
    ensures Breaks(t, d, s)
  {
    hide Apply, Frame, Valid, Visible, LineUnder, BlankLine, Breaks, LinkAfter, CellLink;
    var n := s.rows;
    NoLinkHere(t, [TARGET], A);
    OnlyA(t, d.columns, d.link, [TARGET], A);
    OnlyA(t, d.columns, None, [TARGET], A);
    NoCells(d.link);
    NoCells(None);
    LinkStays(s, n - 2, d.link);
    LinkStays(s, n - 2, None);
    LastCloses(d.link);
    FullRepaint(t, d, s);
    FullRepaint(t, Apply(t, d, Frame(t, None, s)), s);
    assert RowsLink(s, n - 1, d.link) == LinkAfter([A], d.link);
    LeakBreaks(t, d, s, n - 2);
  }

  lemma NoCells(outer: Option<Link>)
    ensures LinkAfter([], outer) == outer
  {
  }

  lemma LastCloses(outer: Option<Link>)
    ensures LinkAfter([B.(hyperlink := 1)], outer) == None
  {
  }

  predicate RowBelow(s: State)
    requires Valid(s)
  {
    && s.styles == [] && s.hyperlinks == [TARGET]
    && forall r :: 0 <= r < s.rows ==>
         Visible(s)[r].cells == if r == s.rows - 1 then [B.(hyperlink := 1)] else if r == s.rows - 2 then [A] else []
  }

  lemma RowBelowIs(n: nat)
    requires 2 <= n <= MAX_DIMENSION
    ensures var s := Sample(n, [A], [B.(hyperlink := 1)], [TARGET]); Valid(s) && s.rows == n && RowBelow(s)
  {
    hide Valid, Sample, ValidTables;
    assert TARGET in [TARGET];
    CellsAreValid([A.(hyperlink := 1)], TARGET);
    SampleValid(n, [A], [B.(hyperlink := 1)], [TARGET]);
    SampleScreen(n, [A], [B.(hyperlink := 1)], [TARGET]);
    SampleRows(n, [A], [B.(hyperlink := 1)], [TARGET]);
  }

  lemma LastRowBreaksAt(t: Terminal, d: Display, n: nat, cells: seq<Cell>, link: Hyperlink) returns (s: State)
    requires d.Shaped() && 0 < n <= MAX_DIMENSION && |cells| <= 2
    requires ValidCells(cells, 2, [], [link]) && ValidTables([], [link]) && Leaks(t, [link], cells, d.columns, d.link)
    ensures Valid(s) && s.rows == n && Breaks(t, d, s)
  {
    hide Valid, ValidCells, ValidTables, Leaks, Breaks, OnlyLast, Sample;
    s := Sample(n, [], cells, [link]);
    OnlyLastIs(n, cells, [link]);
    LastRowBreaks(t, d, s, cells, [link]);
  }

  /**
    A display whose link is still open when the renderer starts: unless display and state are a single
    cell on which everything is drawn, there is a state that, shown twice, leaves another display than
    repainting it in full.
   */
  lemma OpenLinkBreaks(t: Terminal, d: Display, n: nat) returns (s: State)
    requires d.Shaped() && d.link.Some? && Prints(t) && 0 < n <= MAX_DIMENSION
    requires d.columns >= 2 || 2 <= n <= |d.grid| || !AlwaysDraws(t)
    ensures Valid(s) && s.rows == n && Breaks(t, d, s)
  {
    hide Valid, Breaks, Leaks, ValidCells, ValidTables, RowBelow, Sample, Prints;
    if d.columns >= 2 {
      var cell := Cell(1, "b", 1, 0, 1);
      SecondCellCloses(t, d.columns, d.link, cell);
      CellsAreValid([A, cell], TARGET);
      s := LastRowBreaksAt(t, d, n, [A, cell], TARGET);
    } else if 2 <= n <= |d.grid| {
      RowBelowIs(n);
      s := Sample(n, [A], [B.(hyperlink := 1)], [TARGET]);
      RowBelowCloses(t, d, s);
    } else if text: string :| 0 < |text| <= MAX_GRAPHEME_BYTES && t.width(text) == 0 {
      var cell := Cell(1, text, 1, 0, 1);
      SecondCellCloses(t, d.columns, d.link, cell);
      CellsAreValid([A, cell], TARGET);
      s := LastRowBreaksAt(t, d, n, [A, cell], TARGET);
    } else {
      var text: string :| |text| <= MAX_HYPERLINK_URI_BYTES && t.control(text);
      var link := Hyperlink(1, if text == "" then "u" else text, "");
      DroppedLinkCloses(t, d.columns, d.link, link);
      CellsAreValid([A.(hyperlink := 1)], link);
      s := LastRowBreaksAt(t, d, n, [A.(hyperlink := 1)], link);
    }
  }

  // ---------------------------------------------------------------- a state taller than the display

  function Tall(n: nat, cell: Cell): State
    requires n > 0
  {
    Sample(n, [cell], [B], [])
  }

  lemma TallValid(n: nat, cell: Cell)
    requires 2 <= n <= MAX_DIMENSION && (cell == A || cell == C)
    ensures Valid(Tall(n, cell))
  {
    SampleValid(n, [cell], [B], []);
  }

  /** What matters about such a state. */
  predicate TallWith(s: State, cell: Cell)
    requires Valid(s)
  {
    && s.rows >= 2 && s.cols == 2 && s.activeScreen == 1 && s.styles == [] && s.hyperlinks == []
    && forall r :: 0 <= r < s.rows ==>
         Visible(s)[r].cells == if r == s.rows - 1 then [B] else if r == s.rows - 2 then [cell] else []
  }

  lemma TallShape(n: nat, cell: Cell)
    requires n >= 2 && Valid(Tall(n, cell))
    ensures Tall(n, cell).rows == n && TallWith(Tall(n, cell), cell)
    ensures Tall(n, A).palette == Tall(n, C).palette
  {
    hide Valid, Sample;
    SampleScreen(n, [cell], [B], []);
    SampleRows(n, [cell], [B], []);
    SamePalette(n, [A], [C], [B]);
  }

  /** One more row: skipped or painted. */
  lemma RowsStep(t: Terminal, p: Option<State>, s: State, k: nat)
    requires Valid(s) && k < s.rows
    ensures RowsOps(t, p, s, k + 1)
            == if Skips(p, s, k) then RowsOps(t, p, s, k)
               else RowsOps(t, p, s, k) + RowOps(t, s.styles, s.hyperlinks, k, Visible(s)[k].cells)
  {
    hide Valid, Visible, RowOps, Skips;
    assert RowsOps(t, p, s, k) + [] == RowsOps(t, p, s, k);
  }

  lemma {:induction false} TallQuiet(t: Terminal, p: State, s: State, k: nat)
    requires Valid(p) && Valid(s) && TallWith(p, A) && TallWith(s, C) && p.rows == s.rows && p.palette == s.palette
    requires k + 2 <= s.rows
    ensures RowsOps(t, Some(p), s, k) == []
  {
    hide Valid, Visible, RowOps, Skips, TallWith;
    if k > 0 {
      TallQuiet(t, p, s, k - 1);
      TallSkips(p, s, k - 1);
      RowsStep(t, Some(p), s, k - 1);
    }
  }

  /** Only the row above the last is repainted. */
  lemma TallOutput(t: Terminal, p: State, s: State)
    requires Valid(p) && Valid(s) && TallWith(p, A) && TallWith(s, C) && p.rows == s.rows && p.palette == s.palette
    requires 2 <= s.rows
    ensures RowsOps(t, Some(p), s, s.rows) == RowOps(t, [], [], s.rows - 2, [C])
  {
    hide Valid, Visible, RowOps, Skips, TallWith, RowsOps;
    TallQuiet(t, p, s, s.rows - 2);
    TallSkips(p, s, s.rows - 2);
    TallSkips(p, s, s.rows - 1);
    RowsStep(t, Some(p), s, s.rows - 2);
    RowsStep(t, Some(p), s, s.rows - 1);
  }

  lemma TallSkips(p: State, s: State, r: nat)
    requires Valid(p) && Valid(s) && TallWith(p, A) && TallWith(s, C) && p.rows == s.rows && p.palette == s.palette
    requires r < s.rows
    ensures Usable(Some(p), s) && (Skips(Some(p), s, r) <==> r != s.rows - 2)
    ensures r == s.rows - 2 ==> s.styles == [] && s.hyperlinks == [] && Visible(s)[r].cells == [C]
  {
    hide Valid, Visible;
    assert [A] != [C] by { assert [A][0] != [C][0]; }
  }

  lemma TallLinks(t: Terminal, s: State, cell: Cell, columns: nat, outer: Option<Link>)
    requires Valid(s) && TallWith(s, cell) && cell in {A, C} && columns > 0 && Prints(t)
    ensures RowsLink(s, s.rows - 1, outer) == outer && RowsLink(s, s.rows, outer) == outer
    ensures LineUnder(t, [], [], [cell], columns, outer)[0] == Head(cell.grapheme, [], outer)
    ensures LineUnder(t, [], [], [B], columns, outer)[0] == Head("b", [], outer)
  {
    hide Valid, Visible, LineUnder, CellLink, LinkAfter, RowsLink;
    NoLinkHere(t, [], cell);
    NoLinkHere(t, [], B);
    OnlyA(t, columns, outer, [], cell);
    OnlyA(t, columns, outer, [], B);
    NoCells(outer);
    LinkStays(s, s.rows - 1, outer);
    LinkStays(s, s.rows, outer);
  }

  /** The incremental render leaves the row above on the last line, not the last row. */
  lemma TallIncremental(t: Terminal, d: Display, p: State, s: State)
    requires d.Shaped() && Prints(t)
    requires Valid(p) && Valid(s) && TallWith(p, A) && TallWith(s, C) && p.rows == s.rows && p.palette == s.palette
    requires |d.grid| < s.rows
    ensures Apply(t, d, Frame(t, Some(p), s)).grid[|d.grid| - 1][0] == Head("c", [], d.link)
  {
    hide Apply, Step, Prefix, Closing, Visible, LineUnder, RowsOps, RowOps, TallWith, ValidScreen, ValidModes,
      ValidTables, CellCount, LinkAfter, RowsLink;
    TallOutput(t, p, s);
    TallSkips(p, s, 0);
    var row := RowOps(t, [], [], s.rows - 2, [C]);
    assert Frame(t, Some(p), s) == Prefix() + (row + Closing(s));
    ApplyConcat(t, d, Prefix(), row + Closing(s));
    PrefixIsPlain(t, d);
    var d1 := Apply(t, d, Prefix());
    ApplyConcat(t, d1, row, Closing(s));
    RowPaintsUnder(t, [], [], d1, s.rows - 2, [C]);
    var d2 := Apply(t, d1, row);
    ClosingSettles(t, d2, d2, s);
    TallLinks(t, s, C, d.columns, d.link);
  }

  /** The full repaint ends with the last row. */
  lemma TallFull(t: Terminal, d: Display, s: State, cell: Cell)
    requires d.Shaped() && Prints(t) && Valid(s) && TallWith(s, cell) && cell in {A, C} && |d.grid| < s.rows
    ensures var d' := Apply(t, d, Frame(t, None, s));
            d'.link == d.link && d'.grid[|d.grid| - 1][0] == Head("b", [], d.link)
  {
    hide Apply, Frame, Valid, Visible, LineUnder, RowsLink;
    FullRepaint(t, d, s);
    TallLinks(t, s, cell, d.columns, d.link);
  }

  /**
    On every display with fewer lines than n there are two states of n rows whose second
    incremental render differs from a full repaint.
   */
  lemma TallStateBreaks(t: Terminal, d: Display, n: nat)
    requires d.Shaped() && Prints(t) && |d.grid| < n <= MAX_DIMENSION
    ensures var p, s := Tall(n, A), Tall(n, C);
            && Valid(p) && Valid(s) && p.rows == n && s.rows == n
            && var d' := Apply(t, d, Frame(t, None, p));
            && Apply(t, d', Frame(t, Some(p), s)) != Apply(t, d', Frame(t, None, s))
  {
    hide Apply, Frame, Valid, Visible, Tall, TallWith, Prints;
    TallValid(n, A);
    TallValid(n, C);
    TallShape(n, A);
    TallShape(n, C);
    TallFull(t, d, Tall(n, A), A);
    var d' := Apply(t, d, Frame(t, None, Tall(n, A)));
    TallFull(t, d', Tall(n, C), C);
    TallIncremental(t, d', Tall(n, A), Tall(n, C));
  }

  // ---------------------------------------------------------------- one row on one column

  /** Everything is drawn on the same cell, so the row looks as if the link had been closed before. */
  lemma SingleSlot(t: Terminal, s: State, cells: seq<Cell>, outer: Option<Link>)
    requires AlwaysDraws(t) && ValidTables(s.styles, s.hyperlinks)
    requires ValidCells(cells, s.cols, s.styles, s.hyperlinks)
    ensures var after := LinkAfter(cells, outer);
            && LinkAfter(cells, after) == after
            && LineUnder(t, s.styles, s.hyperlinks, cells, 1, after)
               == LineUnder(t, s.styles, s.hyperlinks, cells, 1, outer)
  {
    hide LineUnder, CellPen, ValidStyle;
    Twice(cells, outer);
    if cells != [] {
      var fore, cell := cells[..|cells| - 1], cells[|cells| - 1];
      SlotIs(t, s, cells, outer);
      SlotIs(t, s, cells, LinkAfter(cells, outer));
      if cell.hyperlink == 0 {
        Twice(fore, outer);
      }
    } else {
      assert LinkAfter(cells, outer) == outer;
    }
  }

  lemma {:induction false} Twice(cells: seq<Cell>, outer: Option<Link>)
    ensures LinkAfter(cells, LinkAfter(cells, outer)) == LinkAfter(cells, outer)
  {
    if cells != [] {
      Twice(cells[..|cells| - 1], outer);
    }
  }

  /** The last cell covers all others; if it is linked, its own link shows. */
  lemma SlotIs(t: Terminal, s: State, cells: seq<Cell>, outer: Option<Link>)
    requires AlwaysDraws(t) && ValidTables(s.styles, s.hyperlinks) && cells != []
    requires ValidCells(cells, s.cols, s.styles, s.hyperlinks)
    ensures var fore, cell := cells[..|cells| - 1], cells[|cells| - 1];
            var link := CellLink(t, s.hyperlinks, cell);
            && (cell.hyperlink != 0 ==> link.Some?)
            && LineUnder(t, s.styles, s.hyperlinks, cells, 1, outer)
               == [Head(cell.grapheme, CellPen(s.styles, cell), Under(link, LinkAfter(fore, outer)))]
  {
    hide CellPen, ValidStyle, LinkAfter, FindLink;
    var fore, cell := cells[..|cells| - 1], cells[|cells| - 1];
    assert 0 < |cell.grapheme| <= MAX_GRAPHEME_BYTES;
    assert t.width(cell.grapheme) > 0 && !t.control(cell.grapheme);
    if cell.hyperlink != 0 {
      var h :| h in s.hyperlinks && h.id == cell.hyperlink;
      LinkFound(s.hyperlinks, h);
    }
  }

  lemma {:induction false} LinkFound(links: seq<Hyperlink>, h: Hyperlink)
    requires h in links
    ensures FindLink(links, h.id).Some? && FindLink(links, h.id).value in links
  {
    if links[|links| - 1].id != h.id {
      LinkFound(links[..|links| - 1], h);
    }
  }

  /** The display shows a state of one row, painted under the link that is open now. */
  predicate ShowsUnder(t: Terminal, d: Display, s: State)
    requires d.Shaped() && Valid(s) && s.rows == 1
  {
    && d.grid[0] == RowUnder(t, s, 0, d.columns, d.link) && d.link == RowsLink(s, 1, d.link)
    && forall r :: 1 <= r < |d.grid| ==> d.grid[r] == BlankLine(d.columns, [])
  }

  /** Whatever was shown, painting or skipping the only row leaves what a full repaint leaves. */
  lemma SingleBody(t: Terminal, d: Display, p: Option<State>, s: State)
    requires d.Shaped() && Valid(s) && s.rows == 1
    requires Usable(p, s) ==> ShowsUnder(t, d, p.value)
    ensures var b, b' := Apply(t, d, Body(t, p, s)), Apply(t, d, Body(t, None, s));
            Ready(b) && Ready(b') && b.grid == b'.grid && b.settings == b'.settings && b.link == b'.link
  {
    hide Apply, Step, Prefix, Visible, LineUnder, LinkAfter, BlankLine, RowOps, ValidScreen, ValidModes, ValidTables,
      CellCount, ValidPalette;
    TablesName(s);
    BodyRepaints(t, d, s);
    PrefixIsPlain(t, d);
    var d1 := Apply(t, d, Prefix());
    var cells := Visible(s)[0].cells;
    if !Usable(p, s) {
      assert RowsOps(t, p, s, 1) == RowsOps(t, None, s, 1);
    } else if Skips(p, s, 0) {
      assert RowsOps(t, p, s, 1) == RowsOps(t, p, s, 0) + [] == [];
      assert Body(t, p, s) == Prefix();
    } else {
      var row := RowOps(t, s.styles, s.hyperlinks, 0, cells);
      assert RowsOps(t, p, s, 1) == RowsOps(t, p, s, 0) + row == row;
      assert Body(t, p, s) == Prefix() + row;
      ApplyConcat(t, d, Prefix(), row);
      RowPaintsUnder(t, s.styles, s.hyperlinks, d1, 0, cells);
    }
  }

  lemma RowIsValid(s: State)
    requires Valid(s)
    ensures ValidTables(s.styles, s.hyperlinks)
    ensures ValidCells(Visible(s)[0].cells, s.cols, s.styles, s.hyperlinks)
  {
    hide ValidCells, ValidTables, ValidModes, ValidPalette, CellCount, ValidCursor, ValidMarginsAndTabs;
    var a := Active(s);
    assert Visible(s)[0] == a.rows[a.viewportStart];
  }

  lemma SingleFrame(t: Terminal, d: Display, p: Option<State>, s: State)
    requires d.Shaped() && d.columns == 1 && Valid(s) && s.rows == 1 && AlwaysDraws(t)
    requires Usable(p, s) ==> ShowsUnder(t, d, p.value)
    ensures Apply(t, d, Frame(t, p, s)) == Apply(t, d, Frame(t, None, s))
    ensures ShowsUnder(t, Apply(t, d, Frame(t, p, s)), s)
  {
    hide Apply, Step, Body, Closing, Valid, Visible, LineUnder, LinkAfter, BlankLine, AlwaysDraws;
    SingleBody(t, d, p, s);
    ApplyConcat(t, d, Body(t, p, s), Closing(s));
    ApplyConcat(t, d, Body(t, None, s), Closing(s));
    ClosingSettles(t, Apply(t, d, Body(t, p, s)), Apply(t, d, Body(t, None, s)), s);
    FullRepaint(t, d, s);
    RowIsValid(s);
    SingleSlot(t, s, Visible(s)[0].cells, d.link);
    OneRowLink(s, d.link);
    OneRowLink(s, RowsLink(s, 1, d.link));
  }

  lemma OneRowLink(s: State, outer: Option<Link>)
    requires Valid(s) && s.rows == 1
    ensures RowsLink(s, 0, outer) == outer && RowsLink(s, 1, outer) == LinkAfter(Visible(s)[0].cells, outer)
  {
    hide Valid, Visible, LinkAfter;
  }

  // ---------------------------------------------------------------- the exact condition

  predicate AllOf(ss: seq<State>, n: nat) {
    forall i :: 0 <= i < |ss| ==> Valid(ss[i]) && ss[i].rows == n
  }

  /** A fresh renderer has shown the states one after the other. */
  function Played(t: Terminal, d: Display, ss: seq<State>): (w: World)
    requires d.Shaped() && forall i :: 0 <= i < |ss| ==> Valid(ss[i])
    ensures w.display.Shaped() && |w.display.grid| == |d.grid| && w.display.columns == d.columns
  {
    if ss == [] then World(d, None)
    else
      var m := Played(t, d, ss[..|ss| - 1]);
      World(Apply(t, m.display, Frame(t, m.previous, ss[|ss| - 1])), Some(ss[|ss| - 1]))
  }

  /** After those states, rendering s incrementally leaves the display that a full repaint leaves. */
  predicate Agree(t: Terminal, d: Display, ss: seq<State>, s: State)
    requires d.Shaped() && Valid(s) && forall i :: 0 <= i < |ss| ==> Valid(ss[i])
  {
    var w := Played(t, d, ss);
    Apply(t, w.display, Frame(t, w.previous, s)) == Apply(t, w.display, Frame(t, None, s))
  }

  ghost predicate AlwaysAgree(t: Terminal, d: Display, n: nat)
    requires d.Shaped()
  {
    forall ss: seq<State>, s: State :: AllOf(ss, n) && Valid(s) && s.rows == n ==> Agree(t, d, ss, s)
  }

  lemma {:induction false} PlayedShows(t: Terminal, d: Display, ss: seq<State>, n: nat)
    requires d.Shaped() && d.link == None && n <= |d.grid| && AllOf(ss, n)
    ensures var w := Played(t, d, ss);
            && w.display.link == None
            && (w.previous.Some? ==> Valid(w.previous.value) && Shows(t, w.display, w.previous.value))
  {
    hide Apply, Frame, Shows, Valid;
    if ss != [] {
      PlayedShows(t, d, ss[..|ss| - 1], n);
      var m := Played(t, d, ss[..|ss| - 1]);
      FrameIsFullRepaint(t, m.display, m.previous, ss[|ss| - 1]);
    }
  }

  lemma PlayedOne(t: Terminal, d: Display, p: State)
    requires d.Shaped() && Valid(p)
    ensures Played(t, d, [p]) == World(Apply(t, d, Frame(t, None, p)), Some(p))
  {
    hide Apply, Frame, Valid;
    assert [p][..0] == [];
    assert Played(t, d, []) == World(d, None);
  }

  lemma OneDisagreement(t: Terminal, d: Display, p: State, s: State, n: nat)
    requires d.Shaped() && Valid(p) && Valid(s) && p.rows == n && s.rows == n
    requires var d' := Apply(t, d, Frame(t, None, p));
             Apply(t, d', Frame(t, Some(p), s)) != Apply(t, d', Frame(t, None, s))
    ensures !AlwaysAgree(t, d, n)
  {
    hide Apply, Frame, Valid, Played;
    PlayedOne(t, d, p);
    assert AllOf([p], n) && !Agree(t, d, [p], s);
  }

  lemma {:induction false} PlayedShowsUnder(t: Terminal, d: Display, ss: seq<State>)
    requires d.Shaped() && d.columns == 1 && AlwaysDraws(t) && AllOf(ss, 1)
    ensures var w := Played(t, d, ss);
            w.previous.Some? ==> Valid(w.previous.value) && w.previous.value.rows == 1
                                 && ShowsUnder(t, w.display, w.previous.value)
  {
    hide Apply, Frame, ShowsUnder, Valid, AlwaysDraws;
    if ss != [] {
      PlayedShowsUnder(t, d, ss[..|ss| - 1]);
      var m := Played(t, d, ss[..|ss| - 1]);
      SingleFrame(t, m.display, m.previous, ss[|ss| - 1]);
    }
  }

  lemma SingleAgrees(t: Terminal, d: Display)
    requires d.Shaped() && d.columns == 1 && AlwaysDraws(t)
    ensures AlwaysAgree(t, d, 1)
  {
    hide Apply, Frame, Valid, Played, ShowsUnder, AlwaysDraws;
    forall ss: seq<State>, s: State | AllOf(ss, 1) && Valid(s) && s.rows == 1 ensures Agree(t, d, ss, s) {
      PlayedShowsUnder(t, d, ss);
      var w := Played(t, d, ss);
      SingleFrame(t, w.display, w.previous, s);
    }
  }

  lemma FittingAgrees(t: Terminal, d: Display, n: nat)
    requires d.Shaped() && d.link == None && n <= |d.grid|
    ensures AlwaysAgree(t, d, n)
  {
    hide Apply, Frame, Valid, Played, Shows;
    forall ss: seq<State>, s: State | AllOf(ss, n) && Valid(s) && s.rows == n ensures Agree(t, d, ss, s) {
      PlayedShows(t, d, ss, n);
      var w := Played(t, d, ss);
      FrameIsFullRepaint(t, w.display, w.previous, s);
    }
  }

  /**
    On every display and for every number of rows: incremental and full repaint agree in all runs of
    states of that height if and only if the display has a line for every row and no link is open at
    the start.  Only where a single column shows a single row, and the terminal draws every text and
    accepts every link, does an open link do no harm.
   */
  lemma AgreementIsExact(t: Terminal, d: Display, n: nat)
    requires d.Shaped() && Prints(t) && 0 < n <= MAX_DIMENSION
    ensures AlwaysAgree(t, d, n) <==>
            n <= |d.grid| && (d.link == None || (d.columns == 1 && n == 1 && AlwaysDraws(t)))
  {
    hide Apply, Frame, Valid, Tall, AlwaysAgree, Played, AlwaysDraws;
    if n > |d.grid| {
      TallStateBreaks(t, d, n);
      OneDisagreement(t, d, Tall(n, A), Tall(n, C), n);
    } else if d.link == None {
      FittingAgrees(t, d, n);
    } else if d.columns == 1 && n == 1 && AlwaysDraws(t) {
      SingleAgrees(t, d);
    } else {
      var s := OpenLinkBreaks(t, d, n);
      OneDisagreement(t, d, s, s, n);
    }
  }
}
