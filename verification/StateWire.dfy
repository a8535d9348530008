/**
  The wire encoding of the parts of a history page (src/terminal_state_v2.rs), field by
  field, and how long it can become.
 */
module StateWire {
  import opened Basics
  import opened TerminalState
  import opened ProtobufWire

  function EncodeAnchor(a: Anchor): Bytes {
    UintField(1, a.line) + UintField(2, a.offset)
  }

  function OptionalAnchor(field: nat, a: Option<Anchor>): Bytes {
    if a.None? then [] else MessageField(field, EncodeAnchor(a.value))
  }

  function EncodeCell(c: Cell): Bytes {
    UintField(1, c.column) + BytesField(2, Text(c.grapheme)) + UintField(3, c.width) + UintField(4, c.style)
    + UintField(5, c.hyperlink)
  }

  function EncodeCells(cells: seq<Cell>): Bytes {
    if cells == [] then []
    else EncodeCells(cells[..|cells| - 1]) + MessageField(3, EncodeCell(cells[|cells| - 1]))
  }

  function EncodeRow(r: Row): Bytes {
    OptionalAnchor(1, r.start) + UintField(2, r.version) + EncodeCells(r.cells) + BoolField(4, r.wrapped)
  }

  function EncodeRows(rows: seq<Row>): Bytes {
    if rows == [] then []
    else EncodeRows(rows[..|rows| - 1]) + MessageField(5, EncodeRow(rows[|rows| - 1]))
  }

  /** A chosen alternative is written even if its value is zero. */
  function EncodeColor(c: Color): Bytes {
    match c
    case DefaultColor => Tag(1, VARINT) + Varint(1)
    case PaletteIndex(i) => Tag(2, VARINT) + Varint(i)
    case Rgb(v) => Tag(3, VARINT) + Varint(v)
  }

  function OptionalColor(field: nat, c: Option<Color>): Bytes {
    if c.None? then [] else MessageField(field, EncodeColor(c.value))
  }

  function StyleColors(s: Style): Bytes {
    OptionalColor(2, s.foreground) + OptionalColor(3, s.background) + OptionalColor(4, s.underlineColor)
  }

  function StyleFlags(s: Style): Bytes {
    BoolField(8, s.italic) + BoolField(9, s.reverse) + BoolField(10, s.strikethrough) + BoolField(11, s.invisible)
    + BoolField(12, s.overline)
  }

  function EncodeStyle(s: Style): Bytes {
    UintField(1, s.id) + StyleColors(s) + UintField(5, s.intensity) + UintField(6, s.underline)
    + UintField(7, s.blink) + StyleFlags(s) + UintField(13, s.semanticType) + UintField(14, s.verticalAlign)
  }

  function EncodeStyles(styles: seq<Style>): Bytes {
    if styles == [] then []
    else EncodeStyles(styles[..|styles| - 1]) + MessageField(10, EncodeStyle(styles[|styles| - 1]))
  }

  function EncodeLink(h: Hyperlink): Bytes {
    UintField(1, h.id) + BytesField(2, Text(h.uri)) + BytesField(3, Text(h.explicitId))
  }

  function EncodeLinks(links: seq<Hyperlink>): Bytes {
    if links == [] then []
    else EncodeLinks(links[..|links| - 1]) + MessageField(11, EncodeLink(links[|links| - 1]))
  }

  // ---------------------------------------------------------------- sizes

  /** n items of r bytes. */
  function Times(n: nat, r: nat): nat {
    if n == 0 then 0 else Times(n - 1, r) + r
  }

  lemma {:induction false} TimesIs(n: nat, r: nat)
    ensures Times(n, r) == n * r
  {
    if n > 0 {
      TimesIs(n - 1, r);
    }
  }

  lemma {:induction false} TimesGrows(n: nat, m: nat, r: nat, s: nat)
    requires n <= m && r <= s
    ensures Times(n, r) <= Times(m, s)
  {
    if m > 0 {
      if n == m {
        TimesGrows(n - 1, m - 1, r, s);
      } else {
        TimesGrows(n, m - 1, r, s);
      }
    }
  }

  lemma UintSmall(field: nat, n: nat)
    requires field < 16
    ensures n < 128 ==> |UintField(field, n)| <= 2
    ensures n < 16384 ==> |UintField(field, n)| <= 3
    ensures n < 34359738368 ==> |UintField(field, n)| <= 6
    ensures n <= MAX_U64 ==> |UintField(field, n)| <= 11
    ensures 0 < n ==> |UintField(field, n)| >= 2
  {
    hide Varint, UintField;
    FieldSizes(field, n, []);
    VarintSizes(n);
    assert |Varint(n)| >= 1;
  }

  lemma MessageSmall(field: nat, b: Bytes)
    requires field < 16
    ensures |b| < 128 ==> |MessageField(field, b)| == |b| + 2
    ensures |b| < 16384 ==> |MessageField(field, b)| <= |b| + 3
    ensures |b| < 2097152 ==> |MessageField(field, b)| <= |b| + 4
    ensures |MessageField(field, b)| >= |b| + 2
  {
    hide Varint, MessageField;
    FieldSizes(field, 0, b);
    VarintSizes(|b|);
    assert |Varint(|b|)| >= 1;
  }

  lemma TextSmall(field: nat, b: Bytes)
    requires field < 16
    ensures |b| < 128 ==> |BytesField(field, b)| <= |b| + 2
    ensures |b| < 16384 ==> |BytesField(field, b)| <= |b| + 3
    ensures |b| < 2097152 ==> |BytesField(field, b)| <= |b| + 4
    ensures b != [] ==> |BytesField(field, b)| >= |b| + 2
  {
    hide Varint, MessageField;
    MessageSmall(field, b);
  }

  predicate SmallAnchor(a: Anchor) {
    a.line <= MAX_U64 && a.offset <= MAX_U32
  }

  lemma AnchorSize(field: nat, a: Option<Anchor>)
    requires field < 16 && (a.Some? ==> SmallAnchor(a.value))
    ensures |OptionalAnchor(field, a)| <= 19
  {
    hide UintField, MessageField;
    if a.Some? {
      UintSmall(1, a.value.line);
      UintSmall(2, a.value.offset);
      MessageSmall(field, EncodeAnchor(a.value));
    }
  }

  /** What every cell of a page satisfies, with its longest grapheme. */
  predicate SmallCell(c: Cell, longest: nat) {
    && c.column < 16384 && |c.grapheme| <= longest && c.width < 128
    && c.style < 16384 && c.hyperlink < 16384
  }

  // The estimates below hold for cells and links of up to this many bytes, far more than the wire accepts.
  const LONGEST_TEXT: nat := 2000
  const LONGEST_URI: nat := 1000000
  const LONGEST_ID: nat := 16000

  const CELL: nat := 17
  const ROW: nat := 36
  const STYLE: nat := 46
  const LINK: nat := 14
  const HEADER: nat := 123

  lemma CellSize(c: Cell, longest: nat)
    requires SmallCell(c, longest) && longest <= LONGEST_TEXT
    ensures |MessageField(3, EncodeCell(c))| <= CELL + longest
  {
    hide UintField, MessageField, BytesField;
    UintSmall(1, c.column);
    TextSmall(2, Text(c.grapheme));
    UintSmall(3, c.width);
    UintSmall(4, c.style);
    UintSmall(5, c.hyperlink);
    MessageSmall(3, EncodeCell(c));
  }

  lemma {:induction false} CellsSize(cells: seq<Cell>, longest: nat)
    requires longest <= LONGEST_TEXT && forall i :: 0 <= i < |cells| ==> SmallCell(cells[i], longest)
    ensures |EncodeCells(cells)| <= Times(|cells|, CELL + longest)
  {
    hide EncodeCell, MessageField;
    if cells != [] {
      CellsSize(cells[..|cells| - 1], longest);
      CellSize(cells[|cells| - 1], longest);
    }
  }

  predicate SmallRow(r: Row, cols: nat, longest: nat) {
    && (r.start.Some? ==> SmallAnchor(r.start.value)) && r.version <= MAX_U64
    && |r.cells| <= cols && forall i :: 0 <= i < |r.cells| ==> SmallCell(r.cells[i], longest)
  }

  lemma RowSize(r: Row, cols: nat, longest: nat)
    requires SmallRow(r, cols, longest) && longest <= LONGEST_TEXT && cols <= MAX_DIMENSION
    ensures |MessageField(5, EncodeRow(r))| <= ROW + Times(cols, CELL + longest)
  {
    hide UintField, MessageField, OptionalAnchor, EncodeCells, Times;
    AnchorSize(1, r.start);
    UintSmall(2, r.version);
    CellsSize(r.cells, longest);
    UintSmall(4, if r.wrapped then 1 else 0);
    TimesGrows(|r.cells|, cols, CELL + longest, CELL + longest);
    TimesGrows(cols, MAX_DIMENSION, CELL + longest, CELL + LONGEST_TEXT);
    TimesIs(MAX_DIMENSION, CELL + LONGEST_TEXT);
    MessageSmall(5, EncodeRow(r));
  }

  lemma {:induction false} RowsSize(rows: seq<Row>, cols: nat, longest: nat)
    requires longest <= LONGEST_TEXT && cols <= MAX_DIMENSION
    requires forall i :: 0 <= i < |rows| ==> SmallRow(rows[i], cols, longest)
    ensures |EncodeRows(rows)| <= Times(|rows|, ROW + Times(cols, CELL + longest))
  {
    hide EncodeRow, MessageField, SmallRow;
    if rows != [] {
      RowsSize(rows[..|rows| - 1], cols, longest);
      RowSize(rows[|rows| - 1], cols, longest);
    }
  }

  lemma ColorSize(field: nat, c: Option<Color>)
    requires field < 16 && ValidColor(c)
    ensures |OptionalColor(field, c)| <= 7
  {
    hide MessageField, Varint, Tag;
    var v := match c.value case DefaultColor => 1 case PaletteIndex(i) => i case Rgb(v) => v;
    VarintSizes(v);
    ShortTag(1, VARINT);
    ShortTag(2, VARINT);
    ShortTag(3, VARINT);
    MessageSmall(field, EncodeColor(c.value));
  }

  lemma StyleColorsSize(s: Style)
    requires ValidStyle(s)
    ensures |StyleColors(s)| <= 21
  {
    hide OptionalColor;
    ColorSize(2, s.foreground);
    ColorSize(3, s.background);
    ColorSize(4, s.underlineColor);
  }

  lemma StyleFlagsSize(s: Style)
    ensures |StyleFlags(s)| <= 10
  {
    hide UintField;
    UintSmall(8, if s.italic then 1 else 0);
    UintSmall(9, if s.reverse then 1 else 0);
    UintSmall(10, if s.strikethrough then 1 else 0);
    UintSmall(11, if s.invisible then 1 else 0);
    UintSmall(12, if s.overline then 1 else 0);
  }

  lemma StyleSize(s: Style)
    requires ValidStyle(s) && s.id < 16384
    ensures |MessageField(10, EncodeStyle(s))| <= STYLE
  {
    hide UintField, MessageField, StyleColors, StyleFlags;
    UintSmall(1, s.id);
    StyleColorsSize(s);
    StyleFlagsSize(s);
    UintSmall(5, s.intensity);
    UintSmall(6, s.underline);
    UintSmall(7, s.blink);
    UintSmall(13, s.semanticType);
    UintSmall(14, s.verticalAlign);
    MessageSmall(10, EncodeStyle(s));
  }

  lemma {:induction false} StylesSize(styles: seq<Style>)
    requires forall i :: 0 <= i < |styles| ==> ValidStyle(styles[i]) && styles[i].id < 16384
    ensures |EncodeStyles(styles)| <= Times(|styles|, STYLE)
  {
    hide EncodeStyle, MessageField, ValidStyle;
    if styles != [] {
      StylesSize(styles[..|styles| - 1]);
      StyleSize(styles[|styles| - 1]);
    }
  }

  predicate SmallLink(h: Hyperlink, longest: nat) {
    && h.id < 16384 && |h.uri| + |h.explicitId| <= longest
    && |h.uri| <= LONGEST_URI && |h.explicitId| <= LONGEST_ID
  }

  lemma LinkSize(h: Hyperlink, longest: nat)
    requires SmallLink(h, longest)
    ensures |MessageField(11, EncodeLink(h))| <= LINK + longest
  {
    hide UintField, MessageField, BytesField;
    UintSmall(1, h.id);
    TextSmall(2, Text(h.uri));
    TextSmall(3, Text(h.explicitId));
    MessageSmall(11, EncodeLink(h));
  }

  lemma {:induction false} LinksSize(links: seq<Hyperlink>, longest: nat)
    requires forall i :: 0 <= i < |links| ==> SmallLink(links[i], longest)
    ensures |EncodeLinks(links)| <= Times(|links|, LINK + longest)
  {
    hide EncodeLink, MessageField;
    if links != [] {
      LinksSize(links[..|links| - 1], longest);
      LinkSize(links[|links| - 1], longest);
    }
  }

  // ---------------------------------------------------------------- at least that long

  /** A visible cell away from the first column takes nine bytes or more. */
  lemma CellAtLeast(c: Cell)
    requires c.grapheme != "" && c.width > 0
    ensures |MessageField(3, EncodeCell(c))| >= if c.column > 0 then 9 else 7
  {
    hide UintField, MessageField, BytesField;
    UintSmall(1, c.column);
    TextSmall(2, Text(c.grapheme));
    UintSmall(3, c.width);
    MessageSmall(3, EncodeCell(c));
  }

  lemma {:induction false} CellsAtLeast(cells: seq<Cell>)
    requires forall i :: 0 <= i < |cells| ==> cells[i].grapheme != "" && cells[i].width > 0 && cells[i].column == i
    ensures |EncodeCells(cells)| + 2 >= 9 * |cells|
  {
    hide EncodeCell, MessageField;
    if cells != [] {
      CellsAtLeast(cells[..|cells| - 1]);
      CellAtLeast(cells[|cells| - 1]);
    }
  }

  lemma {:induction false} RowsAtLeast(rows: seq<Row>, n: nat)
    requires forall i :: 0 <= i < |rows| ==> |EncodeCells(rows[i].cells)| >= n
    ensures |EncodeRows(rows)| >= Times(|rows|, n)
  {
    hide EncodeCells, MessageField, OptionalAnchor, UintField;
    if rows != [] {
      var r := rows[|rows| - 1];
      RowsAtLeast(rows[..|rows| - 1], n);
      MessageSmall(5, EncodeRow(r));
    }
  }
}
