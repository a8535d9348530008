/**
  The local display that the renderer writes to: a character grid driven by the
  control functions CUP, ED and EL (sections 8.3.21, 8.3.39 and 8.3.41 of ECMA-48),
  SGR, private modes and hyperlinks.  Positions count from zero.
 */
module CharacterDisplay {
  import opened Basics
  import opened TerminalState

  datatype Code =
    | Bold | Faint | Italic | UnderlineStyle(kind: nat) | SlowBlink | RapidBlink
    | Reverse | Invisible | Strikethrough | Overline
    | Foreground(color: Color) | Background(color: Color) | UnderlineColor(color: Color)

  /** The rendition codes since the last reset. */
  type Pen = seq<Code>

  datatype Link = Link(explicitId: string, uri: string)

  datatype Slot = Blank(pen: Pen) | Head(glyph: string, ink: Pen, link: Option<Link>) | Tail

  datatype Op =
    | EraseDisplay | EraseLine | CursorTo(row: nat, column: nat)
    | ResetPen | Draw(codes: seq<Code>) | OpenLink(link: Link) | CloseLink | Text(glyph: string)
    | PrivateMode(mode: nat, on: bool) | InsertOff | FullMargins
    | CursorShape(shape: nat) | Keypad(application: bool) | Keyboard(flags: nat)

  /** Everything besides the picture, the cursor, the pen and the link. */
  datatype Settings = Settings(modes: map<nat, bool>, insert: bool, margins: bool,
                               shape: nat, keypad: bool, keyboard: nat)

  datatype Display = Display(grid: seq<seq<Slot>>, columns: nat, x: nat, y: nat, pen: Pen,
                             link: Option<Link>, settings: Settings)
  {
    predicate Shaped() {
      && grid != [] && columns > 0
      && y < |grid| && x < columns
      && forall r :: 0 <= r < |grid| ==> |grid[r]| == columns
    }

    /** No origin, margin, wrap or insert mode changes where text goes. */
    predicate Plain() {
      && Off(settings.modes, 6) && Off(settings.modes, 69) && Off(settings.modes, 7)
      && !settings.insert && !settings.margins
    }
  }

  predicate Off(modes: map<nat, bool>, mode: nat) {
    mode in modes && !modes[mode]
  }

  /**
    What differs between terminals: how wide a grapheme is, which text holds a control
    character, and what positioning and text do while a special mode is on.
   */
  datatype Terminal = Terminal(width: string -> nat, control: string -> bool,
                               special: (Display, Op) -> Display)

  function BlankLine(columns: nat, pen: Pen): (line: seq<Slot>)
    ensures |line| == columns
  {
    seq(columns, _ => Blank(pen))
  }

  /** Writes a glyph of n columns at c; a wide glyph that is cut in half disappears. */
  function Put(line: seq<Slot>, c: nat, n: nat, head: Slot): (r: seq<Slot>)
    requires c < |line|
    ensures |r| == |line|
  {
    if n == 0 then line else
      seq(|line|, i requires 0 <= i < |line| =>
        if i == c then head
        else if c < i < c + n then Tail
        else if i == c + n && line[i].Tail? then Blank([])
        else if i == c - 1 && line[c].Tail? then Blank([])
        else line[i])
  }

  function Step(t: Terminal, d: Display, op: Op): Display
    requires d.Shaped()
  {
    match op
    case EraseDisplay => d.(grid := seq(|d.grid|, _ => BlankLine(d.columns, d.pen)))
    case ResetPen => d.(pen := [])
    case Draw(codes) => d.(pen := d.pen + codes)
    case OpenLink(link) => d.(link := Some(link))
    case CloseLink => d.(link := None)
    case PrivateMode(m, on) => d.(settings := d.settings.(modes := d.settings.modes[m := on]))
    case InsertOff => d.(settings := d.settings.(insert := false))
    case FullMargins => d.(settings := d.settings.(margins := false), x := 0, y := 0)
    case CursorShape(n) => d.(settings := d.settings.(shape := n))
    case Keypad(on) => d.(settings := d.settings.(keypad := on))
    case Keyboard(n) => d.(settings := d.settings.(keyboard := n))
    case CursorTo(r, c) =>
      if d.Plain() then d.(y := Min(r, |d.grid| - 1), x := Min(c, d.columns - 1)) else Reshape(d, t.special(d, op))
    case EraseLine =>
      if d.Plain() then d.(grid := d.grid[d.y := BlankLine(d.columns, d.pen)]) else Reshape(d, t.special(d, op))
    case Text(g) =>
      if d.Plain() then
        var n := Min(t.width(g), d.columns - d.x);
        d.(grid := d.grid[d.y := Put(d.grid[d.y], d.x, n, Head(g, d.pen, d.link))],
           x := Min(d.x + n, d.columns - 1))
      else Reshape(d, t.special(d, op))
  }

  /** A special mode may draw anything, but the display keeps its size. */
  function Reshape(d: Display, wanted: Display): (r: Display)
    requires d.Shaped()
    ensures r.Shaped() && |r.grid| == |d.grid| && r.columns == d.columns
  {
    if wanted.Shaped() && |wanted.grid| == |d.grid| && wanted.columns == d.columns then wanted else d
  }

  lemma StepShaped(t: Terminal, d: Display, op: Op)
    requires d.Shaped()
    ensures Step(t, d, op).Shaped()
    ensures |Step(t, d, op).grid| == |d.grid| && Step(t, d, op).columns == d.columns
  {
  }

  /** The display after the whole output. */
  function Apply(t: Terminal, d: Display, ops: seq<Op>): (r: Display)
    requires d.Shaped()
    ensures r.Shaped() && |r.grid| == |d.grid| && r.columns == d.columns
  {
    if ops == [] then d
    else
      var before := Apply(t, d, ops[..|ops| - 1]);
      StepShaped(t, before, ops[|ops| - 1]);
      Step(t, before, ops[|ops| - 1])
  }

  lemma {:induction false} ApplyConcat(t: Terminal, d: Display, a: seq<Op>, b: seq<Op>)
    requires d.Shaped()
    ensures Apply(t, d, a + b) == Apply(t, Apply(t, d, a), b)
  {
    hide Step;
    if b == [] {
      assert a + b == a;
    } else {
      ApplyConcat(t, d, a, b[..|b| - 1]);
      assert (a + b)[..|a + b| - 1] == a + b[..|b| - 1];
    }
  }

  lemma ApplyOne(t: Terminal, d: Display, op: Op)
    requires d.Shaped()
    ensures Apply(t, d, [op]) == Step(t, d, op)
  {
    hide Step;
    assert [op][..0] == [];
    assert Apply(t, d, []) == d;
  }

  lemma ApplyFirst(t: Terminal, d: Display, op: Op, rest: seq<Op>)
    requires d.Shaped()
    ensures Step(t, d, op).Shaped()
    ensures Apply(t, d, [op] + rest) == Apply(t, Step(t, d, op), rest)
  {
    hide Step;
    StepShaped(t, d, op);
    ApplyConcat(t, d, [op], rest);
    ApplyOne(t, d, op);
  }
}

/**
  The incremental viewport renderer (src/terminal_engine.rs): it repaints only the
  rows whose cells changed since the state it showed last.
 */
module ViewportRendering {
  import opened Basics
  import opened TerminalState
  import opened CharacterDisplay

  // ---------------------------------------------------------------- the visible part of a state

  function Active(s: State): Screen
    requires s.primary.Some? && s.alternate.Some?
  {
    if s.activeScreen == ALTERNATE_SCREEN then s.alternate.value else s.primary.value
  }

  function Visible(s: State): (rows: seq<Row>)
    requires Valid(s)
    ensures |rows| == s.rows
  {
    Active(s).rows[Active(s).viewportStart..Active(s).viewportStart + s.rows]
  }

  function FindStyle(styles: seq<Style>, id: nat): Option<Style> {
    if styles == [] then None
    else if styles[|styles| - 1].id == id then Some(styles[|styles| - 1])
    else FindStyle(styles[..|styles| - 1], id)
  }

  function FindLink(links: seq<Hyperlink>, id: nat): Option<Hyperlink> {
    if links == [] then None
    else if links[|links| - 1].id == id then Some(links[|links| - 1])
    else FindLink(links[..|links| - 1], id)
  }

  // ---------------------------------------------------------------- the output of one render

  /** A missing colour is written like the default colour. */
  function ColorCode(c: Option<Color>): Color {
    if c.None? then DefaultColor else c.value
  }

  function Weight(s: Style): seq<Code> {
    match s.intensity case 1 => [Bold] case 2 => [Faint] case _ => []
  }

  function Underlining(s: Style): seq<Code> {
    if 1 <= s.underline <= 5 then [UnderlineStyle(s.underline)] else []
  }

  function Blinking(s: Style): seq<Code> {
    match s.blink case 1 => [SlowBlink] case 2 => [RapidBlink] case _ => []
  }

  function Flag(on: bool, code: Code): seq<Code> {
    if on then [code] else []
  }

  function Colors(s: Style): seq<Code> {
    [Foreground(ColorCode(s.foreground)), Background(ColorCode(s.background)),
     UnderlineColor(ColorCode(s.underlineColor))]
  }

  function Rendition(s: Style): seq<Code> {
    Weight(s) + Flag(s.italic, Italic) + Underlining(s) + Blinking(s) + Flag(s.reverse, Reverse)
    + Flag(s.invisible, Invisible) + Flag(s.strikethrough, Strikethrough) + Flag(s.overline, Overline) + Colors(s)
  }

  /** The pen that a cell is drawn with. */
  function CellPen(styles: seq<Style>, cell: Cell): Pen {
    var style := FindStyle(styles, cell.style);
    if style.Some? then Rendition(style.value) else []
  }

  /** The link that a cell carries; a link with a control character is dropped. */
  function CellLink(t: Terminal, links: seq<Hyperlink>, cell: Cell): Option<Link> {
    var link := FindLink(links, cell.hyperlink);
    if link.Some? && !t.control(link.value.uri) && !t.control(link.value.explicitId)
    then Some(Link(link.value.explicitId, link.value.uri)) else None
  }

  function CellOps(t: Terminal, styles: seq<Style>, links: seq<Hyperlink>, r: nat, cell: Cell): seq<Op> {
    var style := FindStyle(styles, cell.style);
    var link := CellLink(t, links, cell);
    [CursorTo(r, cell.column)]
    + ([ResetPen]
       + ((if style.Some? then [Draw(Rendition(style.value))] else [])
          + ((if link.Some? then [OpenLink(link.value)] else [])
             + ((if t.control(cell.grapheme) then [] else [Text(cell.grapheme)])
                + (if cell.hyperlink != 0 then [CloseLink] else [])))))
  }

  function CellsOps(t: Terminal, styles: seq<Style>, links: seq<Hyperlink>, r: nat, cells: seq<Cell>): seq<Op> {
    if cells == [] then []
    else CellsOps(t, styles, links, r, cells[..|cells| - 1]) + CellOps(t, styles, links, r, cells[|cells| - 1])
  }

  function RowOps(t: Terminal, styles: seq<Style>, links: seq<Hyperlink>, r: nat, cells: seq<Cell>): seq<Op> {
    [CursorTo(r, 0), ResetPen, EraseLine] + CellsOps(t, styles, links, r, cells)
  }

  /** The state shown last can be built upon only if geometry and active screen are the same. */
  predicate Usable(p: Option<State>, s: State) {
    && p.Some? && Valid(p.value)
    && p.value.rows == s.rows && p.value.cols == s.cols && p.value.activeScreen == s.activeScreen
  }

  predicate Skips(p: Option<State>, s: State, r: nat)
    requires Valid(s) && r < s.rows
  {
    && Usable(p, s)
    && p.value.styles == s.styles && p.value.hyperlinks == s.hyperlinks && p.value.palette == s.palette
    && Visible(p.value)[r].cells == Visible(s)[r].cells
  }

  /** The output for the first n rows. */
  function RowsOps(t: Terminal, p: Option<State>, s: State, n: nat): seq<Op>
    requires Valid(s) && n <= s.rows
  {
    if n == 0 then []
    else RowsOps(t, p, s, n - 1)
         + (if Skips(p, s, n - 1) then [] else RowOps(t, s.styles, s.hyperlinks, n - 1, Visible(s)[n - 1].cells))
  }

  function Prefix(): seq<Op> {
    [PrivateMode(25, false), PrivateMode(6, false), PrivateMode(69, false), FullMargins,
     PrivateMode(7, false), InsertOff, ResetPen]
  }

  function CursorOps(s: State): seq<Op>
    requires Valid(s)
  {
    var c := Active(s).cursor.value;
    [CursorShape(if c.shape == 3 then 5 else if c.shape == 2 then 3 else 1),
     CursorTo(c.y, c.x), PrivateMode(25, c.visible)]
  }

  function FixedModes(m: Modes): seq<Op>
    requires ValidModes(m)
  {
    [PrivateMode(9, false), PrivateMode(1000, false), PrivateMode(1002, false), PrivateMode(1003, false),
     PrivateMode(1005, false), PrivateMode(1006, false), PrivateMode(1016, false),
     PrivateMode(1, m.flags[0]), PrivateMode(5, m.flags[10]),
     PrivateMode(1004, m.flags[3]), PrivateMode(1007, m.flags[11]), PrivateMode(2004, m.flags[2])]
  }

  function TrackingModes(m: Modes): seq<Op> {
    match m.mouseTracking
    case 1 => [PrivateMode(9, true)]
    case 2 => [PrivateMode(1000, true)]
    case 3 => [PrivateMode(1002, true)]
    case 4 => [PrivateMode(1003, true)]
    case _ => []
  }

  function EncodingModes(m: Modes): seq<Op> {
    match m.mouseEncoding
    case 1 => [PrivateMode(1005, true)]
    case 2 => [PrivateMode(1006, true)]
    case 3 => [PrivateMode(1016, true)]
    case _ => []
  }

  function ModeOps(m: Modes): seq<Op>
    requires ValidModes(m)
  {
    FixedModes(m) + (TrackingModes(m) + EncodingModes(m))
    + [Keypad(m.flags[1]),
       Keyboard(if m.keyboardEncoding == 2 then m.keyboardFlags else if m.keyboardEncoding == 1 then 1 else 0)]
  }

  function Frame(t: Terminal, p: Option<State>, s: State): seq<Op>
    requires Valid(s)
  {
    Body(t, p, s) + Closing(s)
  }

  function Body(t: Terminal, p: Option<State>, s: State): seq<Op>
    requires Valid(s)
  {
    Prefix() + (if Usable(p, s) then [] else [EraseDisplay, CursorTo(0, 0)]) + RowsOps(t, p, s, s.rows)
  }

  function Closing(s: State): seq<Op>
    requires Valid(s)
  {
    [ResetPen] + CursorOps(s) + ModeOps(s.modes.value)
  }

  class ViewportRenderer {
    var previous: Option<State>

    constructor ()
      ensures previous == None
    {
      previous := None;
    }

    method Invalidate()
      modifies this
      ensures previous == None
    {
      previous := None;
    }

    /** An invalid state is refused and changes nothing. */
    method Render(t: Terminal, s: State) returns (output: Option<seq<Op>>)
      modifies this
      ensures if Valid(s) then output == Some(Frame(t, old(previous), s)) && previous == Some(s)
              else output == None && previous == old(previous)
    {
      if !Valid(s) {
        return None;
      }
      var ops := RenderScreen(t, s, previous);
      previous := Some(s);
      output := Some(ops);
    }
  }

  method PaintRow(t: Terminal, styles: seq<Style>, links: seq<Hyperlink>, r: nat, cells: seq<Cell>)
    returns (output: seq<Op>)
    ensures output == RowOps(t, styles, links, r, cells)
  {
    hide CellOps;
    output := [CursorTo(r, 0), ResetPen, EraseLine];
    var i := 0;
    while i < |cells|
      invariant i <= |cells|
      invariant output == [CursorTo(r, 0), ResetPen, EraseLine] + CellsOps(t, styles, links, r, cells[..i])
    {
      output := output + CellOps(t, styles, links, r, cells[i]);
      i := i + 1;
      assert cells[..i][..i - 1] == cells[..i - 1];
    }
    assert cells[..i] == cells;
  }

  method RenderScreen(t: Terminal, s: State, previous: Option<State>) returns (output: seq<Op>)
    requires Valid(s)
    ensures output == Frame(t, previous, s)
  {
    hide Usable, Visible, Skips, Closing, ValidScreen, ValidModes, ValidTables, RowOps, CellCount;
    output := Prefix();
    if !Usable(previous, s) {
      output := output + [EraseDisplay, CursorTo(0, 0)];
    }
    var header := output;
    var r := 0;
    while r < s.rows
      invariant r <= s.rows
      invariant output == header + RowsOps(t, previous, s, r)
    {
      if !Skips(previous, s, r) {
        var row := PaintRow(t, s.styles, s.hyperlinks, r, Visible(s)[r].cells);
        output := output + row;
      }
      r := r + 1;
    }
    output := output + Closing(s);
  }

  // ---------------------------------------------------------------- what painting a row does

  /** Drawing one cell on a line, while the link `outer` is open. */
  function PutCell(t: Terminal, styles: seq<Style>, links: seq<Hyperlink>, outer: Option<Link>, line: seq<Slot>,
                   cell: Cell): (r: seq<Slot>)
    requires line != []
    ensures |r| == |line|
  {
    if t.control(cell.grapheme) then line
    else
      var c := Min(cell.column, |line| - 1);
      Put(line, c, Min(t.width(cell.grapheme), |line| - c),
          Head(cell.grapheme, CellPen(styles, cell), Under(CellLink(t, links, cell), outer)))
  }

  function Under(link: Option<Link>, outer: Option<Link>): Option<Link> {
    if link.Some? then link else outer
  }

  /** The link that is open after the cells if `outer` was open before: a linked cell closes what is open. */
  function LinkAfter(cells: seq<Cell>, outer: Option<Link>): Option<Link> {
    if cells == [] then outer
    else if cells[|cells| - 1].hyperlink != 0 then None else LinkAfter(cells[..|cells| - 1], outer)
  }

  /** The line that shows the given cells, painted while the link `outer` is open. */
  function LineUnder(t: Terminal, styles: seq<Style>, links: seq<Hyperlink>, cells: seq<Cell>, columns: nat,
                     outer: Option<Link>): (r: seq<Slot>)
    requires columns > 0
    ensures |r| == columns
  {
    if cells == [] then BlankLine(columns, [])
    else
      var fore := cells[..|cells| - 1];
      PutCell(t, styles, links, LinkAfter(fore, outer), LineUnder(t, styles, links, fore, columns, outer),
              cells[|cells| - 1])
  }

  /** The line that shows the given cells: it depends on nothing that was displayed before. */
  function PaintedLine(t: Terminal, styles: seq<Style>, links: seq<Hyperlink>, cells: seq<Cell>, columns: nat):
    (r: seq<Slot>)
    requires columns > 0
    ensures |r| == columns
  {
    if cells == [] then BlankLine(columns, [])
    else PutCell(t, styles, links, None, PaintedLine(t, styles, links, cells[..|cells| - 1], columns),
        cells[|cells| - 1])
  }

  predicate NamedLinks(links: seq<Hyperlink>) {
    forall i :: 0 <= i < |links| ==> links[i].id != 0
  }

  lemma {:induction false} FoundLinkIsNamed(links: seq<Hyperlink>, id: nat)
    requires NamedLinks(links) && FindLink(links, id).Some?
    ensures id != 0
  {
    if links[|links| - 1].id != id {
      FoundLinkIsNamed(links[..|links| - 1], id);
    }
  }

  predicate Ready(d: Display) {
    d.Shaped() && d.Plain()
  }

  /** The line that row r is painted on: the cursor stops at the last line. */
  function Clamp(d: Display, r: nat): (y: nat)
    requires d.Shaped()
    ensures y < |d.grid|
  {
    Min(r, |d.grid| - 1)
  }

  /** From d to d' only line y changed, and the open link is now `link`; pen and cursor may have moved. */
  predicate OnlyLine(d: Display, d': Display, y: nat, line: seq<Slot>, link: Option<Link>)
    requires y < |d.grid|
  {
    && d'.Shaped() && d'.columns == d.columns && d'.grid == d.grid[y := line]
    && d'.settings == d.settings && d'.link == link
  }

  lemma CellPaints(t: Terminal, styles: seq<Style>, links: seq<Hyperlink>, d: Display, r: nat, cell: Cell)
    requires Ready(d) && NamedLinks(links)
    ensures var y := Clamp(d, r);
            OnlyLine(d, Apply(t, d, CellOps(t, styles, links, r, cell)), y,
                     PutCell(t, styles, links, d.link, d.grid[y], cell), if cell.hyperlink != 0 then None else d.link)
  {
    hide Apply, Step, FindLink, Rendition, Put;
    var style := FindStyle(styles, cell.style);
    var link := CellLink(t, links, cell);
    if link.Some? {
      FoundLinkIsNamed(links, cell.hyperlink);
    }
    var close := if cell.hyperlink != 0 then [CloseLink] else [];
    var text := if t.control(cell.grapheme) then [] else [Text(cell.grapheme)];
    var draw := if style.Some? then [Draw(Rendition(style.value))] else [];
    CellStarts(t, d, r, cell.column, draw, link, text + close);
    CellEnds(t, d.(y := Clamp(d, r), x := Min(cell.column, d.columns - 1), pen := CellPen(styles, cell),
                   link := Under(link, d.link)),
             text, close);
  }

  /** Positioning, pen and link of a cell. */
  lemma CellStarts(t: Terminal, d: Display, r: nat, c: nat, draw: seq<Op>, link: Option<Link>, rest: seq<Op>)
    requires Ready(d)
    requires |draw| <= 1 && (draw != [] ==> draw[0].Draw?)
    ensures var open := if link.Some? then [OpenLink(link.value)] else [];
            Apply(t, d, [CursorTo(r, c)] + ([ResetPen] + (draw + (open + rest))))
            == Apply(t, d.(y := Clamp(d, r), x := Min(c, d.columns - 1), link := Under(link, d.link),
                           pen := if draw == [] then [] else draw[0].codes), rest)
  {
    hide Apply, Step;
    var open := if link.Some? then [OpenLink(link.value)] else [];
    var d1 := d.(y := Clamp(d, r), x := Min(c, d.columns - 1));
    ApplyFirst(t, d, CursorTo(r, c), [ResetPen] + (draw + (open + rest)));
    CursorStep(t, d, r, c);
    PenApplies(t, d1, draw, open + rest);
    var d2 := d1.(pen := if draw == [] then [] else draw[0].codes);
    Optional(t, d2, open, rest);
    LinkStep(t, d2);
  }

  /** The text of a cell and the end of its link. */
  lemma CellEnds(t: Terminal, d: Display, text: seq<Op>, close: seq<Op>)
    requires Ready(d)
    requires |text| <= 1 && (text != [] ==> text[0].Text?)
    requires |close| <= 1 && (close != [] ==> close[0] == CloseLink)
    ensures OnlyLine(d, Apply(t, d, text + close), d.y,
                     if text == [] then d.grid[d.y]
                     else Put(d.grid[d.y], d.x, Min(t.width(text[0].glyph), d.columns - d.x),
                              Head(text[0].glyph, d.pen, d.link)),
                     if close == [] then d.link else None)
  {
    hide Apply, Step, Put;
    Optional(t, d, text, close);
    if text != [] {
      TextStep(t, d, text[0].glyph);
    }
    var d1 := if text == [] then d else Step(t, d, text[0]);
    Optional(t, d1, close, []);
    LinkStep(t, d1);
    assert d.grid[d.y := d.grid[d.y]] == d.grid;
  }

  lemma CursorStep(t: Terminal, d: Display, r: nat, c: nat)
    requires Ready(d)
    ensures Step(t, d, CursorTo(r, c)) == d.(y := Clamp(d, r), x := Min(c, d.columns - 1))
  {
  }

  lemma LinkStep(t: Terminal, d: Display)
    requires d.Shaped()
    ensures Step(t, d, CloseLink) == d.(link := None)
    ensures forall link :: Step(t, d, OpenLink(link)) == d.(link := Some(link))
  {
  }

  lemma TextStep(t: Terminal, d: Display, g: string)
    requires Ready(d)
    ensures var line := Put(d.grid[d.y], d.x, Min(t.width(g), d.columns - d.x), Head(g, d.pen, d.link));
            var r := Step(t, d, Text(g));
            r.grid == d.grid[d.y := line] && r == d.(grid := r.grid, x := r.x) && r.Shaped()
  {
    StepShaped(t, d, Text(g));
  }

  /** Resetting the pen and then drawing with a rendition leaves exactly that rendition. */
  lemma PenApplies(t: Terminal, d: Display, draw: seq<Op>, rest: seq<Op>)
    requires d.Shaped() && |draw| <= 1 && (draw != [] ==> draw[0].Draw?)
    ensures Apply(t, d, [ResetPen] + (draw + rest))
            == Apply(t, d.(pen := if draw == [] then [] else draw[0].codes), rest)
  {
    hide Apply;
    ApplyFirst(t, d, ResetPen, draw + rest);
    Optional(t, d.(pen := []), draw, rest);
    if draw != [] {
      assert [] + draw[0].codes == draw[0].codes;
    }
  }

  /** An output of at most one operation, followed by the rest. */
  lemma Optional(t: Terminal, d: Display, first: seq<Op>, rest: seq<Op>)
    requires d.Shaped() && |first| <= 1
    ensures first != [] ==> Step(t, d, first[0]).Shaped()
    ensures Apply(t, d, first + rest) == Apply(t, if first == [] then d else Step(t, d, first[0]), rest)
    ensures Apply(t, d, []) == d
    ensures Apply(t, d, first) == if first == [] then d else Step(t, d, first[0])
  {
    hide Step;
    if first == [] {
      assert first + rest == rest;
    } else {
      assert first == [first[0]];
      ApplyFirst(t, d, first[0], rest);
      ApplyOne(t, d, first[0]);
    }
  }

  lemma {:induction false} ClosedLine(t: Terminal, styles: seq<Style>, links: seq<Hyperlink>, cells: seq<Cell>,
                                      columns: nat)
    requires columns > 0
    ensures LineUnder(t, styles, links, cells, columns, None) == PaintedLine(t, styles, links, cells, columns)
    ensures LinkAfter(cells, None) == None
  {
    hide PutCell;
    if cells != [] {
      ClosedLine(t, styles, links, cells[..|cells| - 1], columns);
    }
  }

  lemma {:induction false} CellsPaint(t: Terminal, styles: seq<Style>, links: seq<Hyperlink>, d: Display, r: nat,
                                      cells: seq<Cell>)
    requires Ready(d) && NamedLinks(links)
    requires d.grid[Clamp(d, r)] == BlankLine(d.columns, [])
    ensures OnlyLine(d, Apply(t, d, CellsOps(t, styles, links, r, cells)), Clamp(d, r),
                     LineUnder(t, styles, links, cells, d.columns, d.link), LinkAfter(cells, d.link))
  {
    hide Step, CellOps, PutCell, BlankLine;
    if cells == [] {
      assert d.grid[Clamp(d, r) := d.grid[Clamp(d, r)]] == d.grid;
    } else {
      var n := |cells| - 1;
      CellsPaint(t, styles, links, d, r, cells[..n]);
      var d1 := Apply(t, d, CellsOps(t, styles, links, r, cells[..n]));
      ApplyConcat(t, d, CellsOps(t, styles, links, r, cells[..n]), CellOps(t, styles, links, r, cells[n]));
      CellPaints(t, styles, links, d1, r, cells[n]);
    }
  }

  lemma RowStarts(t: Terminal, d: Display, r: nat)
    requires Ready(d)
    ensures OnlyLine(d, Apply(t, d, [CursorTo(r, 0), ResetPen, EraseLine]), Clamp(d, r), BlankLine(d.columns, []),
                     d.link)
  {
    hide Apply, BlankLine;
    assert [CursorTo(r, 0), ResetPen, EraseLine] == [CursorTo(r, 0)] + ([ResetPen] + [EraseLine]);
    ApplyFirst(t, d, CursorTo(r, 0), [ResetPen] + [EraseLine]);
    var d1 := d.(y := Clamp(d, r), x := 0);
    ApplyFirst(t, d1, ResetPen, [EraseLine]);
    ApplyOne(t, d1.(pen := []), EraseLine);
  }

  /** Painting a row erases it first, so the line shows exactly the row's cells, under the link that is open. */
  lemma RowPaintsUnder(t: Terminal, styles: seq<Style>, links: seq<Hyperlink>, d: Display, r: nat, cells: seq<Cell>)
    requires Ready(d) && NamedLinks(links)
    ensures OnlyLine(d, Apply(t, d, RowOps(t, styles, links, r, cells)), Clamp(d, r),
                     LineUnder(t, styles, links, cells, d.columns, d.link), LinkAfter(cells, d.link))
  {
    hide Apply, Step, CellsOps, LineUnder, BlankLine;
    var start := [CursorTo(r, 0), ResetPen, EraseLine];
    RowStarts(t, d, r);
    ApplyConcat(t, d, start, CellsOps(t, styles, links, r, cells));
    CellsPaint(t, styles, links, Apply(t, d, start), r, cells);
  }

  lemma RowPaints(t: Terminal, styles: seq<Style>, links: seq<Hyperlink>, d: Display, r: nat, cells: seq<Cell>)
    requires Ready(d) && d.link == None && NamedLinks(links)
    ensures OnlyLine(d, Apply(t, d, RowOps(t, styles, links, r, cells)), Clamp(d, r),
                     PaintedLine(t, styles, links, cells, d.columns), None)
  {
    hide Apply, RowOps, LineUnder, PaintedLine, LinkAfter;
    RowPaintsUnder(t, styles, links, d, r, cells);
    ClosedLine(t, styles, links, cells, d.columns);
  }

  // ---------------------------------------------------------------- whole frames

  /** Line r of the picture of a state: its cells, or blank below its last row. */
  function Line(t: Terminal, s: State, r: nat, columns: nat): (line: seq<Slot>)
    requires Valid(s) && columns > 0
    ensures |line| == columns
  {
    if r < s.rows then PaintedLine(t, s.styles, s.hyperlinks, Visible(s)[r].cells, columns) else BlankLine(columns, [])
  }

  /** The display shows the state, line by line. */
  predicate Shows(t: Terminal, d: Display, s: State)
    requires d.Shaped() && Valid(s)
  {
    forall r :: 0 <= r < |d.grid| ==> d.grid[r] == Line(t, s, r, d.columns)
  }

  predicate Same(d: Display, d': Display) {
    d'.Shaped() && |d'.grid| == |d.grid| && d'.columns == d.columns && d'.settings == d.settings && d'.link == d.link
  }

  /** After n rows: those show the state, the others are as before. */
  predicate Reached(t: Terminal, d: Display, d': Display, s: State, n: nat)
    requires d.Shaped() && Valid(s) && n <= s.rows
  {
    && Same(d, d')
    && (forall r :: 0 <= r < |d.grid| ==> d'.grid[r] == if r < n then Line(t, s, r, d.columns) else d.grid[r])
  }

  lemma SkippedRowIsShown(t: Terminal, d: Display, p: Option<State>, s: State, r: nat)
    requires d.Shaped() && Valid(s) && r < s.rows <= |d.grid| && Skips(p, s, r) && Shows(t, d, p.value)
    ensures d.grid[r] == Line(t, s, r, d.columns)
  {
    hide Valid, Visible, PaintedLine, BlankLine;
  }

  lemma {:induction false} RowsPaint(t: Terminal, d: Display, p: Option<State>, s: State, n: nat)
    requires Ready(d) && d.link == None && Valid(s) && n <= s.rows <= |d.grid| && NamedLinks(s.hyperlinks)
    requires Usable(p, s) ==> Shows(t, d, p.value)
    ensures Reached(t, d, Apply(t, d, RowsOps(t, p, s, n)), s, n)
  {
    hide Apply, Step, Valid, Visible, PaintedLine, BlankLine, RowOps, Shows;
    if n == 0 {
      Optional(t, d, [], []);
    } else {
      RowsPaint(t, d, p, s, n - 1);
      var done := RowsOps(t, p, s, n - 1);
      var d1 := Apply(t, d, done);
      if Skips(p, s, n - 1) {
        SkippedRowIsShown(t, d, p, s, n - 1);
        assert done + [] == done;
      } else {
        var row := RowOps(t, s.styles, s.hyperlinks, n - 1, Visible(s)[n - 1].cells);
        ApplyConcat(t, d, done, row);
        RowPaints(t, s.styles, s.hyperlinks, d1, n - 1, Visible(s)[n - 1].cells);
      }
    }
  }

  /** The prefix makes every later position and text plain, whatever the display was doing. */
  lemma PrefixIsPlain(t: Terminal, d: Display)
    requires d.Shaped()
    ensures var d' := Apply(t, d, Prefix());
            && Ready(d') && d'.grid == d.grid && d'.columns == d.columns && d'.pen == [] && d'.link == d.link
  {
    hide Apply;
    var m := Prefix();
    assert m == [m[0]] + ([m[1]] + ([m[2]] + ([m[3]] + ([m[4]] + ([m[5]] + [m[6]])))));
    ApplyFirst(t, d, m[0], [m[1]] + ([m[2]] + ([m[3]] + ([m[4]] + ([m[5]] + [m[6]])))));
    var d1 := Step(t, d, m[0]);
    ApplyFirst(t, d1, m[1], [m[2]] + ([m[3]] + ([m[4]] + ([m[5]] + [m[6]]))));
    var d2 := Step(t, d1, m[1]);
    ApplyFirst(t, d2, m[2], [m[3]] + ([m[4]] + ([m[5]] + [m[6]])));
    var d3 := Step(t, d2, m[2]);
    ApplyFirst(t, d3, m[3], [m[4]] + ([m[5]] + [m[6]]));
    var d4 := Step(t, d3, m[3]);
    ApplyFirst(t, d4, m[4], [m[5]] + [m[6]]);
    var d5 := Step(t, d4, m[4]);
    ApplyFirst(t, d5, m[5], [m[6]]);
    ApplyOne(t, Step(t, d5, m[5]), m[6]);
  }

  /** Clearing first, or building on the state shown last: either way the body shows the new state. */
  lemma BodyShows(t: Terminal, d: Display, p: Option<State>, s: State)
    requires d.Shaped() && d.link == None && Valid(s) && s.rows <= |d.grid|
    requires Usable(p, s) ==> Shows(t, d, p.value)
    ensures var b := Apply(t, d, Body(t, p, s));
            && Ready(b) && b.link == None && Shows(t, b, s) && |b.grid| == |d.grid| && b.columns == d.columns
            && b.settings == Apply(t, d, Prefix()).settings
  {
    hide Apply, Step, Prefix, Visible, PaintedLine, BlankLine, RowsOps, ValidScreen, ValidModes, CellCount,
        ValidPalette;
    var d1 := Apply(t, d, Prefix());
    PrefixIsPlain(t, d);
    if Usable(p, s) {
      assert Prefix() + [] == Prefix();
      ApplyConcat(t, d, Prefix(), RowsOps(t, p, s, s.rows));
      RowsPaint(t, d1, p, s, s.rows);
    } else {
      var clear := [EraseDisplay, CursorTo(0, 0)];
      ApplyConcat(t, d, Prefix(), clear);
      ApplyConcat(t, d, Prefix() + clear, RowsOps(t, p, s, s.rows));
      ClearBlanks(t, d1);
      RowsPaint(t, Apply(t, d1, clear), p, s, s.rows);
    }
  }

  lemma ClearBlanks(t: Terminal, d: Display)
    requires Ready(d) && d.pen == []
    ensures var d' := Apply(t, d, [EraseDisplay, CursorTo(0, 0)]);
            && Same(d, d')
            && (forall r :: 0 <= r < |d.grid| ==> d'.grid[r] == BlankLine(d.columns, []))
  {
    hide Apply, BlankLine;
    assert [EraseDisplay, CursorTo(0, 0)] == [EraseDisplay] + [CursorTo(0, 0)];
    ApplyFirst(t, d, EraseDisplay, [CursorTo(0, 0)]);
    ApplyOne(t, Step(t, d, EraseDisplay), CursorTo(0, 0));
  }

  /** Operations that leave picture, cursor position and link alone. */
  predicate Quiet(ops: seq<Op>) {
    forall i :: 0 <= i < |ops| ==> ops[i].PrivateMode? || ops[i].Keypad? || ops[i].Keyboard?
  }

  lemma {:induction false} QuietKeeps(t: Terminal, d: Display, ops: seq<Op>)
    requires d.Shaped() && Quiet(ops)
    ensures Apply(t, d, ops) == d.(settings := Apply(t, d, ops).settings)
  {
    if ops != [] {
      QuietKeeps(t, d, ops[..|ops| - 1]);
    }
  }

  lemma ModesAreQuiet(visible: bool, m: Modes)
    requires ValidModes(m)
    ensures Quiet([PrivateMode(25, visible)] + ModeOps(m)) && Quiet(ModeOps(m))
  {
    hide FixedModes, TrackingModes, EncodingModes;
    PartsAreQuiet(m);
  }

  lemma PartsAreQuiet(m: Modes)
    requires ValidModes(m)
    ensures Quiet(FixedModes(m)) && Quiet(TrackingModes(m)) && Quiet(EncodingModes(m))
  {
  }

  /** The closing output forgets where painting left the cursor and the pen, and keeps the picture. */
  lemma ClosingSettles(t: Terminal, b: Display, b': Display, s: State)
    requires Valid(s) && Ready(b) && Ready(b')
    requires b.grid == b'.grid && b.columns == b'.columns && b.settings == b'.settings && b.link == b'.link
    ensures Apply(t, b, Closing(s)) == Apply(t, b', Closing(s))
    ensures Apply(t, b, Closing(s)).grid == b.grid && Apply(t, b, Closing(s)).link == b.link
    ensures Apply(t, b, Closing(s)).y == Min(Active(s).cursor.value.y, |b.grid| - 1)
    ensures Apply(t, b, Closing(s)).x == Min(Active(s).cursor.value.x, b.columns - 1)
  {
    hide Apply, ValidModes, ValidPalette, ValidTables, ValidRows, CellCount, ValidCursor, ModeOps;
    var c := CursorOps(s);
    var rest := [c[2]] + ModeOps(s.modes.value);
    assert Closing(s) == [ResetPen] + ([c[0]] + ([c[1]] + rest));
    Three(t, b, ResetPen, c[0], c[1], rest);
    Three(t, b', ResetPen, c[0], c[1], rest);
    ModesAreQuiet(c[2].on, s.modes.value);
    QuietKeeps(t, Step(t, Step(t, Step(t, b, ResetPen), c[0]), c[1]), rest);
  }

  lemma Three(t: Terminal, d: Display, a: Op, b: Op, c: Op, rest: seq<Op>)
    requires d.Shaped()
    ensures Step(t, d, a).Shaped() && Step(t, Step(t, d, a), b).Shaped()
    ensures Step(t, Step(t, Step(t, d, a), b), c).Shaped()
    ensures Apply(t, d, [a] + ([b] + ([c] + rest))) == Apply(t, Step(t, Step(t, Step(t, d, a), b), c), rest)
  {
    hide Apply, Step;
    ApplyFirst(t, d, a, [b] + ([c] + rest));
    ApplyFirst(t, Step(t, d, a), b, [c] + rest);
    ApplyFirst(t, Step(t, Step(t, d, a), b), c, rest);
  }

  /** The display's cursor is where the state has it. */
  predicate AtCursor(d: Display, s: State)
    requires Valid(s) && d.columns > 0
  {
    d.y == Active(s).cursor.value.y && d.x == Min(Active(s).cursor.value.x, d.columns - 1)
  }

  /**
    One render: building on the state shown last leaves the very same display as clearing
    and repainting everything, and that display shows the new state and its cursor.
   */
  lemma FrameIsFullRepaint(t: Terminal, d: Display, p: Option<State>, s: State)
    requires d.Shaped() && d.link == None && Valid(s) && s.rows <= |d.grid|
    requires Usable(p, s) ==> Shows(t, d, p.value)
    ensures Apply(t, d, Frame(t, p, s)) == Apply(t, d, Frame(t, None, s))
    ensures Shows(t, Apply(t, d, Frame(t, p, s)), s) && Apply(t, d, Frame(t, p, s)).link == None
    ensures AtCursor(Apply(t, d, Frame(t, p, s)), s)
  {
    hide Apply, Step, Prefix, Line, Body, Closing, ValidRows, ValidModes, CellCount, ValidPalette, ValidTables;
    BodyShows(t, d, p, s);
    BodyShows(t, d, None, s);
    ApplyConcat(t, d, Body(t, p, s), Closing(s));
    ApplyConcat(t, d, Body(t, None, s), Closing(s));
    var b, b' := Apply(t, d, Body(t, p, s)), Apply(t, d, Body(t, None, s));
    assert b.grid == b'.grid;
    ClosingSettles(t, b, b', s);
  }

  // ---------------------------------------------------------------- whole runs

  /** Something else writes to or resizes the display; the client then invalidates the renderer. */
  datatype Event = Show(state: State) | Disturb(display: Display)

  datatype World = World(display: Display, previous: Option<State>)

  predicate Possible(w: World, e: Event) {
    match e
    case Show(s) => w.display.Shaped() && (Valid(s) ==> s.rows <= |w.display.grid|)
    case Disturb(d) => d.Shaped() && d.link == None
  }

  function Next(t: Terminal, w: World, e: Event): World
    requires Possible(w, e)
  {
    match e
    case Show(s) => if Valid(s) then World(Apply(t, w.display, Frame(t, w.previous, s)), Some(s)) else w
    case Disturb(d) => World(d, None)
  }

  function After(t: Terminal, w: World, es: seq<Event>): Option<World> {
    if es == [] then Some(w)
    else
      var before := After(t, w, es[..|es| - 1]);
      if before.Some? && Possible(before.value, es[|es| - 1])
      then Some(Next(t, before.value, es[|es| - 1])) else None
  }

  predicate Inv(t: Terminal, w: World) {
    && w.display.Shaped() && w.display.link == None
    && (w.previous.Some? ==> Valid(w.previous.value) && Shows(t, w.display, w.previous.value))
  }

  lemma {:induction false} RunOk(t: Terminal, d: Display, es: seq<Event>, w: World)
    requires d.Shaped() && d.link == None && After(t, World(d, None), es) == Some(w)
    ensures Inv(t, w)
  {
    hide Apply, Frame, Shows, Valid;
    if es != [] {
      var m := After(t, World(d, None), es[..|es| - 1]).value;
      RunOk(t, d, es[..|es| - 1], m);
      var e := es[|es| - 1];
      if e.Show? && Valid(e.state) {
        FrameIsFullRepaint(t, m.display, m.previous, e.state);
      }
    }
  }

  /**
    Over any run of states and disturbances, from any display: each incremental render leaves
    exactly the display that clearing and repainting the whole state would leave.
   */
  lemma IncrementalRefinesFull(t: Terminal, d: Display, es: seq<Event>, w: World, s: State)
    requires d.Shaped() && d.link == None && After(t, World(d, None), es) == Some(w)
    requires Valid(s) && w.display.Shaped() && s.rows <= |w.display.grid|
    ensures Apply(t, w.display, Frame(t, w.previous, s)) == Apply(t, w.display, Frame(t, None, s))
    ensures Shows(t, Apply(t, w.display, Frame(t, w.previous, s)), s)
  {
    hide Apply, Frame, Shows, Valid;
    RunOk(t, d, es, w);
    FrameIsFullRepaint(t, w.display, w.previous, s);
  }

  // ---------------------------------------------------------------- what the picture looks like

  predicate Covers(cell: Cell, c: nat) {
    cell.column <= c < cell.column + cell.width
  }

  /** The terminal agrees with the state about the width of every printed grapheme. */
  predicate WidthsAgree(t: Terminal, cells: seq<Cell>) {
    forall k :: 0 <= k < |cells| && !t.control(cells[k].grapheme) ==> t.width(cells[k].grapheme) == cells[k].width
  }

  /**
    Read directly from the cells: each printable cell shows its grapheme with its own style and
    link, its second column if it is wide, and every other column is blank.
   */
  predicate Depicts(t: Terminal, styles: seq<Style>, links: seq<Hyperlink>, cells: seq<Cell>, line: seq<Slot>) {
    && (forall k :: 0 <= k < |cells| ==> Inked(t, styles, links, cells[k], line))
    && (forall c :: 0 <= c < |line| ==> line[c] == Blank([]) || Occupied(t, cells, c))
  }

  predicate Inked(t: Terminal, styles: seq<Style>, links: seq<Hyperlink>, cell: Cell, line: seq<Slot>) {
    !t.control(cell.grapheme) ==>
      && cell.column < |line|
      && line[cell.column] == Head(cell.grapheme, CellPen(styles, cell), CellLink(t, links, cell))
      && (cell.width == 2 ==> cell.column + 1 < |line| && line[cell.column + 1] == Tail)
  }

  predicate Occupied(t: Terminal, cells: seq<Cell>, c: nat) {
    exists k :: 0 <= k < |cells| && Covers(cells[k], c) && !t.control(cells[k].grapheme)
  }

  lemma {:induction false} LineDepictsCells(t: Terminal, styles: seq<Style>, links: seq<Hyperlink>, cells: seq<Cell>,
                                            cols: nat, columns: nat)
    requires ValidCells(cells, cols, styles, links) && WidthsAgree(t, cells) && 0 < cols <= columns
    ensures Depicts(t, styles, links, cells, PaintedLine(t, styles, links, cells, columns))
  {
    hide CellPen, CellLink;
    if cells != [] {
      var n := |cells| - 1;
      var fore := cells[..n];
      LineDepictsCells(t, styles, links, fore, cols, columns);
      var line := PaintedLine(t, styles, links, fore, columns);
      EarlierEnd(cells, cols, styles, links, n);
      AddCell(t, styles, links, fore, line, cells[n]);
      assert fore + [cells[n]] == cells;
    }
  }

  lemma {:induction false} EarlierEnd(cells: seq<Cell>, cols: nat, styles: seq<Style>, links: seq<Hyperlink>, n: nat)
    requires ValidCells(cells, cols, styles, links) && n < |cells|
    ensures forall k :: 0 <= k < n ==> cells[k].column + cells[k].width <= cells[n].column
  {
    if n > 0 {
      EarlierEnd(cells, cols, styles, links, n - 1);
      assert cells[n - 1].column + cells[n - 1].width <= cells[n].column;
    }
  }

  lemma AddCell(t: Terminal, styles: seq<Style>, links: seq<Hyperlink>, cells: seq<Cell>, line: seq<Slot>, cell: Cell)
    requires Depicts(t, styles, links, cells, line)
    requires 1 <= cell.width <= 2 && cell.column + cell.width <= |line|
    requires !t.control(cell.grapheme) ==> t.width(cell.grapheme) == cell.width
    requires forall k :: 0 <= k < |cells| ==> cells[k].column + cells[k].width <= cell.column
    requires forall k :: 0 <= k < |cells| ==> 1 <= cells[k].width <= 2
    ensures Depicts(t, styles, links, cells + [cell], PutCell(t, styles, links, None, line, cell))
  {
    hide CellPen, CellLink, PutCell, Inked, Occupied;
    var all := cells + [cell];
    var r := PutCell(t, styles, links, None, line, cell);
    forall c | cell.column <= c < |line| ensures line[c] == Blank([]) {
      NotOccupied(t, cells, c, cell.column);
    }
    PutOnBlank(t, styles, links, line, cell);
    forall k | 0 <= k < |all| ensures Inked(t, styles, links, all[k], r) {
      if k < |cells| {
        InkKept(t, styles, links, line, cell, r, cells[k]);
      } else {
        InkAdded(t, styles, links, line, cell, r);
      }
    }
    forall c | 0 <= c < |line| ensures r[c] == Blank([]) || Occupied(t, all, c) {
      StillBlank(t, cells, cell, c);
      assert Drawn(t, styles, links, line, cell, r, c);
    }
  }

  lemma NotOccupied(t: Terminal, cells: seq<Cell>, c: nat, column: nat)
    requires forall k :: 0 <= k < |cells| ==> cells[k].column + cells[k].width <= column
    requires column <= c
    ensures !Occupied(t, cells, c)
  {
  }

  lemma InkKept(t: Terminal, styles: seq<Style>, links: seq<Hyperlink>, line: seq<Slot>, cell: Cell, r: seq<Slot>,
      c: Cell)
    requires |r| == |line| && forall i :: 0 <= i < |line| ==> Drawn(t, styles, links, line, cell, r, i)
    requires Inked(t, styles, links, c, line) && 1 <= c.width <= 2 && c.column + c.width <= cell.column
    ensures Inked(t, styles, links, c, r)
  {
    hide CellPen, CellLink;
    if !t.control(c.grapheme) {
      assert Drawn(t, styles, links, line, cell, r, c.column);
      if c.width == 2 {
        assert Drawn(t, styles, links, line, cell, r, c.column + 1);
      }
    }
  }

  lemma InkAdded(t: Terminal, styles: seq<Style>, links: seq<Hyperlink>, line: seq<Slot>, cell: Cell, r: seq<Slot>)
    requires |r| == |line| && forall i :: 0 <= i < |line| ==> Drawn(t, styles, links, line, cell, r, i)
    requires 1 <= cell.width <= 2 && cell.column + cell.width <= |line|
    ensures Inked(t, styles, links, cell, r)
  {
    hide CellPen, CellLink;
    assert Drawn(t, styles, links, line, cell, r, cell.column);
    if cell.width == 2 {
      assert Drawn(t, styles, links, line, cell, r, cell.column + 1);
    }
  }

  lemma StillBlank(t: Terminal, cells: seq<Cell>, cell: Cell, c: nat)
    ensures Occupied(t, cells + [cell], c) <==> Occupied(t, cells, c) || (Covers(cell, c) && !t.control(cell.grapheme))
  {
    var all := cells + [cell];
    if Occupied(t, cells, c) {
      var k :| 0 <= k < |cells| && Covers(cells[k], c) && !t.control(cells[k].grapheme);
      assert all[k] == cells[k];
    } else if Covers(cell, c) && !t.control(cell.grapheme) {
      assert all[|cells|] == cell;
    }
  }

  /** Column c after drawing a cell on blank columns: its own columns change, nothing else does. */
  predicate Drawn(t: Terminal, styles: seq<Style>, links: seq<Hyperlink>, line: seq<Slot>, cell: Cell, r: seq<Slot>,
      c: nat)
    requires c < |line| == |r|
  {
    r[c] == if t.control(cell.grapheme) || !Covers(cell, c) then line[c]
            else if c == cell.column then Head(cell.grapheme, CellPen(styles, cell), CellLink(t, links, cell)) else Tail
  }

  lemma PutOnBlank(t: Terminal, styles: seq<Style>, links: seq<Hyperlink>, line: seq<Slot>, cell: Cell)
    requires 1 <= cell.width <= 2 && cell.column + cell.width <= |line|
    requires !t.control(cell.grapheme) ==> t.width(cell.grapheme) == cell.width
    requires forall c :: cell.column <= c < |line| ==> line[c] == Blank([])
    ensures var r := PutCell(t, styles, links, None, line, cell);
            |r| == |line| && forall c :: 0 <= c < |line| ==> Drawn(t, styles, links, line, cell, r, c)
  {
    hide CellPen, CellLink;
  }

  // ---------------------------------------------------------------- what styles and modes become

  /** The meaning of a rendition code: the attribute it shows. */
  predicate Wears(s: Style, x: Code) {
    match x
    case Bold => s.intensity == 1
    case Faint => s.intensity == 2
    case Italic => s.italic
    case UnderlineStyle(k) => k == s.underline && 1 <= k <= 5
    case SlowBlink => s.blink == 1
    case RapidBlink => s.blink == 2
    case Reverse => s.reverse
    case Invisible => s.invisible
    case Strikethrough => s.strikethrough
    case Overline => s.overline
    case Foreground(c) => c == ColorCode(s.foreground)
    case Background(c) => c == ColorCode(s.background)
    case UnderlineColor(c) => c == ColorCode(s.underlineColor)
  }

  lemma InConcatenation(a: seq<Code>, b: seq<Code>, x: Code)
    ensures x in a + b <==> x in a || x in b
  {
  }

  lemma FlagHas(on: bool, code: Code, x: Code)
    ensures x in Flag(on, code) <==> on && x == code
  {
  }

  lemma PieceHas(s: Style, x: Code)
    ensures x in Weight(s) <==> (x == Bold && s.intensity == 1) || (x == Faint && s.intensity == 2)
    ensures x in Blinking(s) <==> (x == SlowBlink && s.blink == 1) || (x == RapidBlink && s.blink == 2)
    ensures x in Underlining(s) <==> 1 <= s.underline <= 5 && x == UnderlineStyle(s.underline)
    ensures x in Colors(s) <==>
              || x == Foreground(ColorCode(s.foreground)) || x == Background(ColorCode(s.background))
              || x == UnderlineColor(ColorCode(s.underlineColor))
  {
  }

  /** A rendition contains exactly the codes of the style's attributes. */
  lemma RenditionHas(s: Style, x: Code)
    ensures x in Rendition(s) <==> Wears(s, x)
  {
    hide Weight, Underlining, Blinking, Flag, Colors;
    PieceHas(s, x);
    FlagHas(s.italic, Italic, x);
    FlagHas(s.reverse, Reverse, x);
    FlagHas(s.invisible, Invisible, x);
    FlagHas(s.strikethrough, Strikethrough, x);
    FlagHas(s.overline, Overline, x);
    var r1 := Weight(s) + Flag(s.italic, Italic);
    var r2 := r1 + Underlining(s);
    var r3 := r2 + Blinking(s);
    var r4 := r3 + Flag(s.reverse, Reverse);
    var r5 := r4 + Flag(s.invisible, Invisible);
    var r6 := r5 + Flag(s.strikethrough, Strikethrough);
    var r7 := r6 + Flag(s.overline, Overline);
    InConcatenation(Weight(s), Flag(s.italic, Italic), x);
    InConcatenation(r1, Underlining(s), x);
    InConcatenation(r2, Blinking(s), x);
    InConcatenation(r3, Flag(s.reverse, Reverse), x);
    InConcatenation(r4, Flag(s.invisible, Invisible), x);
    InConcatenation(r5, Flag(s.strikethrough, Strikethrough), x);
    InConcatenation(r6, Flag(s.overline, Overline), x);
    InConcatenation(r7, Colors(s), x);
  }

  /** Two valid styles are drawn alike if and only if they agree in every attribute that can be seen. */
  lemma RenditionIsFaithful(a: Style, b: Style)
    requires ValidStyle(a) && ValidStyle(b)
    ensures Rendition(a) == Rendition(b) <==>
              && a.foreground == b.foreground && a.background == b.background && a.underlineColor == b.underlineColor
              && a.intensity == b.intensity && a.underline == b.underline && a.blink == b.blink
              && a.italic == b.italic && a.reverse == b.reverse && a.strikethrough == b.strikethrough
              && a.invisible == b.invisible && a.overline == b.overline
  {
    hide Rendition, Wears;
    if a.foreground == b.foreground && a.background == b.background && a.underlineColor == b.underlineColor
       && a.intensity == b.intensity && a.underline == b.underline && a.blink == b.blink
       && a.italic == b.italic && a.reverse == b.reverse && a.strikethrough == b.strikethrough
       && a.invisible == b.invisible && a.overline == b.overline {
      Alike(a, b);
    }
    if Rendition(a) == Rendition(b) {
      forall x ensures Wears(a, x) <==> Wears(b, x) {
        RenditionHas(a, x);
        RenditionHas(b, x);
      }
      WornAlike(a, b);
    }
  }

  lemma WornAlike(a: Style, b: Style)
    requires ValidStyle(a) && ValidStyle(b) && forall x :: Wears(a, x) <==> Wears(b, x)
    ensures a.foreground == b.foreground && a.background == b.background && a.underlineColor == b.underlineColor
    ensures a.intensity == b.intensity && a.underline == b.underline && a.blink == b.blink
    ensures a.italic == b.italic && a.reverse == b.reverse && a.strikethrough == b.strikethrough
    ensures a.invisible == b.invisible && a.overline == b.overline
  {
    assert Wears(a, Bold) <==> Wears(b, Bold);
    assert Wears(a, Faint) <==> Wears(b, Faint);
    assert Wears(a, Italic) <==> Wears(b, Italic);
    assert Wears(a, SlowBlink) <==> Wears(b, SlowBlink);
    assert Wears(a, RapidBlink) <==> Wears(b, RapidBlink);
    assert Wears(a, Reverse) <==> Wears(b, Reverse);
    assert Wears(a, Invisible) <==> Wears(b, Invisible);
    assert Wears(a, Strikethrough) <==> Wears(b, Strikethrough);
    assert Wears(a, Overline) <==> Wears(b, Overline);
    assert Wears(b, Foreground(ColorCode(a.foreground)));
    assert Wears(b, Background(ColorCode(a.background)));
    assert Wears(b, UnderlineColor(ColorCode(a.underlineColor)));
    assert 1 <= a.underline ==> Wears(b, UnderlineStyle(a.underline));
    assert 1 <= b.underline ==> Wears(a, UnderlineStyle(b.underline));
  }

  lemma Alike(a: Style, b: Style)
    requires a.foreground == b.foreground && a.background == b.background && a.underlineColor == b.underlineColor
    requires a.intensity == b.intensity && a.underline == b.underline && a.blink == b.blink
    requires a.italic == b.italic && a.reverse == b.reverse && a.strikethrough == b.strikethrough
    requires a.invisible == b.invisible && a.overline == b.overline
    ensures Rendition(a) == Rendition(b)
  {
  }

  /** The last operation on a private mode sets it to `on`. */
  ghost predicate LastSets(ops: seq<Op>, mode: nat, on: bool) {
    exists i :: 0 <= i < |ops| && ops[i] == PrivateMode(mode, on)
                && forall j :: i < j < |ops| ==> !(ops[j].PrivateMode? && ops[j].mode == mode)
  }

  lemma {:induction false} LastWins(t: Terminal, d: Display, ops: seq<Op>, mode: nat, on: bool)
    requires d.Shaped() && Quiet(ops) && LastSets(ops, mode, on)
    ensures mode in Apply(t, d, ops).settings.modes && Apply(t, d, ops).settings.modes[mode] == on
  {
    hide Step, Apply;
    var n := |ops| - 1;
    ApplyConcat(t, d, ops[..n], [ops[n]]);
    assert ops == ops[..n] + [ops[n]];
    ApplyOne(t, Apply(t, d, ops[..n]), ops[n]);
    QuietStep(t, Apply(t, d, ops[..n]), ops[n]);
    if !(ops[n].PrivateMode? && ops[n].mode == mode) {
      LastWins(t, d, ops[..n], mode, on);
    }
  }

  lemma QuietStep(t: Terminal, d: Display, op: Op)
    requires d.Shaped() && Quiet([op])
    ensures Step(t, d, op).settings.modes
            == if op.PrivateMode? then d.settings.modes[op.mode := op.on] else d.settings.modes
  {
    assert op == [op][0];
  }

  /** The value each private mode should have in a state: at most one tracking and one encoding mode is on. */
  function Wanted(m: Modes): map<nat, bool>
    requires ValidModes(m)
  {
    map[1 := m.flags[0], 5 := m.flags[10], 1004 := m.flags[3], 1007 := m.flags[11], 2004 := m.flags[2],
        9 := m.mouseTracking == 1, 1000 := m.mouseTracking == 2, 1002 := m.mouseTracking == 3,
        1003 := m.mouseTracking == 4,
        1005 := m.mouseEncoding == 1, 1006 := m.mouseEncoding == 2, 1016 := m.mouseEncoding == 3]
  }

  predicate Untouched(ops: seq<Op>, mode: nat) {
    forall i :: 0 <= i < |ops| ==> !(ops[i].PrivateMode? && ops[i].mode == mode)
  }

  lemma SetsBefore(a: seq<Op>, b: seq<Op>, mode: nat, on: bool)
    requires LastSets(a, mode, on) && Untouched(b, mode)
    ensures LastSets(a + b, mode, on)
  {
    var i :| 0 <= i < |a| && a[i] == PrivateMode(mode, on)
             && forall j :: i < j < |a| ==> !(a[j].PrivateMode? && a[j].mode == mode);
    assert (a + b)[i] == PrivateMode(mode, on);
  }

  lemma SetsAfter(a: seq<Op>, b: seq<Op>, mode: nat, on: bool)
    requires LastSets(b, mode, on)
    ensures LastSets(a + b, mode, on)
  {
    var i :| 0 <= i < |b| && b[i] == PrivateMode(mode, on)
             && forall j :: i < j < |b| ==> !(b[j].PrivateMode? && b[j].mode == mode);
    assert (a + b)[|a| + i] == PrivateMode(mode, on);
  }

  /** The fixed part sets each mode once; mouse modes to off. */
  lemma FixedSets(m: Modes, i: nat)
    requires ValidModes(m) && i < 12
    ensures LastSets(FixedModes(m), FixedModes(m)[i].mode, FixedModes(m)[i].on)
  {
    hide FixedModes;
    FixedIs(m, i);
    var f := FixedModes(m);
    assert f[i] == PrivateMode(f[i].mode, f[i].on);
    forall j | i < j < |f| ensures !(f[j].PrivateMode? && f[j].mode == f[i].mode) {
      FixedIs(m, j);
    }
  }

  function FixedMode(i: nat): nat {
    match i
    case 0 => 9 case 1 => 1000 case 2 => 1002 case 3 => 1003 case 4 => 1005 case 5 => 1006 case 6 => 1016
    case 7 => 1 case 8 => 5 case 9 => 1004 case 10 => 1007 case _ => 2004
  }

  lemma FixedIs(m: Modes, i: nat)
    requires ValidModes(m) && i < 12
    ensures |FixedModes(m)| == 12 && FixedModes(m)[i].PrivateMode? && FixedModes(m)[i].mode == FixedMode(i)
  {
  }

  /** The selected tracking or encoding mode is turned on later, all others stay as the fixed part left them. */
  lemma Selected(m: Modes, mode: nat)
    requires ValidModes(m)
    ensures var on := TrackingModes(m) + EncodingModes(m);
            if mode in {9, 1000, 1002, 1003, 1005, 1006, 1016} && Wanted(m)[mode]
            then LastSets(on, mode, true) else Untouched(on, mode)
  {
    var t, e := TrackingModes(m), EncodingModes(m);
    var on := t + e;
    if t != [] { assert on[0] == t[0]; }
    if e != [] { assert on[|t|] == e[0]; }
  }

  lemma ModesFollow(m: Modes, mode: nat)
    requires ValidModes(m) && mode in Wanted(m)
    ensures LastSets(ModeOps(m), mode, Wanted(m)[mode])
  {
    hide LastSets, Untouched, TrackingModes, EncodingModes;
    var f, on := FixedModes(m), TrackingModes(m) + EncodingModes(m);
    var rest := [Keypad(m.flags[1]),
                 Keyboard(if m.keyboardEncoding == 2 then m.keyboardFlags else if m.keyboardEncoding == 1 then 1
                     else 0)];
    var i := FixedIndex(m, mode);
    FixedSets(m, i);
    Selected(m, mode);
    if mode in {9, 1000, 1002, 1003, 1005, 1006, 1016} && Wanted(m)[mode] {
      SetsAfter(f, on, mode, true);
    } else {
      SetsBefore(f, on, mode, Wanted(m)[mode]);
    }
    RestUntouched(rest, mode);
    SetsBefore(f + on, rest, mode, Wanted(m)[mode]);
  }

  lemma RestUntouched(rest: seq<Op>, mode: nat)
    requires forall i :: 0 <= i < |rest| ==> !rest[i].PrivateMode?
    ensures Untouched(rest, mode)
  {
  }

  lemma FixedIndex(m: Modes, mode: nat) returns (i: nat)
    requires ValidModes(m) && mode in Wanted(m)
    ensures i < 12 && FixedModes(m)[i].mode == mode
    ensures FixedModes(m)[i].on == (mode in {1, 5, 1004, 1007, 2004} && Wanted(m)[mode])
  {
    i := match mode
         case 9 => 0 case 1000 => 1 case 1002 => 2 case 1003 => 3 case 1005 => 4 case 1006 => 5 case 1016 => 6
         case 1 => 7 case 5 => 8 case 1004 => 9 case 1007 => 10 case _ => 11;
  }

  /** After a frame the display's input, mouse and paste modes are those of the state. */
  lemma FrameSetsModes(t: Terminal, d: Display, p: Option<State>, s: State, mode: nat)
    requires d.Shaped() && d.link == None && Valid(s) && s.rows <= |d.grid|
    requires Usable(p, s) ==> Shows(t, d, p.value)
    requires mode in Wanted(s.modes.value)
    ensures var modes := Apply(t, d, Frame(t, p, s)).settings.modes;
            mode in modes && modes[mode] == Wanted(s.modes.value)[mode]
  {
    hide Apply, Step, Body, Line, LastSets, Wanted, ValidModes, ValidRows, ValidTables, CellCount, ValidPalette,
        ModeOps,
      Visible, Shows;
    BodyShows(t, d, p, s);
    ApplyConcat(t, d, Body(t, p, s), Closing(s));
    var b := Apply(t, d, Body(t, p, s));
    var fore := [ResetPen] + CursorOps(s);
    ApplyConcat(t, b, fore, ModeOps(s.modes.value));
    ModesFollow(s.modes.value, mode);
    ModesAreQuiet(true, s.modes.value);
    LastWins(t, Apply(t, b, fore), ModeOps(s.modes.value), mode, Wanted(s.modes.value)[mode]);
  }
}
