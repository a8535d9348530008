/**
  The compact cumulative viewport delta (src/terminal_streaming.rs) and the dense
  row diff it can fall back to (src/terminal_sync.rs).  The functions say what is
  computed; the methods are the loops that compute it.
 */
module ViewportDiff {
  import opened Basics
  import opened TerminalState

  const U32: nat := 0x1_0000_0000

  /** `value as u32`: the remainder modulo 2^32. */
  function AsU32(n: nat): nat { if n < U32 then n else AsU32(n - U32) }

  datatype RowPatch = RowPatch(index: nat, baseIndex: nat, metadata: Option<Row>,
                               cellStart: nat, deleteCount: nat, cells: seq<Cell>)

  /** One row of a dense diff: reuse the base row with that anchor, or replace it. */
  datatype RowSource = BaseAnchor(anchor: Anchor) | Replacement(row: Row) | NoSource

  datatype StateDiff = StateDiff(epoch: Epoch, baseGeneration: nat, targetGeneration: nat,
                                 metadata: Option<State>,
                                 primaryRows: seq<RowSource>, alternateRows: seq<RowSource>)

  /** Terminal and attachment identifiers. */
  datatype Route = Route(terminal: string, attachment: string)

  datatype Datagram = Datagram(route: Route, diff: StateDiff, inherited: bv32, sparse: bool,
                               primaryPatches: seq<RowPatch>, alternatePatches: seq<RowPatch>)

  const INHERIT_STYLES: bv32 := 1
  const INHERIT_HYPERLINKS: bv32 := 2
  const INHERIT_MODES: bv32 := 4
  const INHERIT_TITLE: bv32 := 8
  const INHERIT_WORKING_DIRECTORY: bv32 := 16
  const INHERIT_PALETTE: bv32 := 32
  const KNOWN_INHERIT_MASK: bv32 := 63

  // ---------------------------------------------------------------- rows

  /** How many leading cells two rows share, given that the first `n` are equal. */
  function CommonPrefix(a: seq<Cell>, b: seq<Cell>, n: nat): (r: nat)
    requires n <= |a| && n <= |b|
    requires forall i {:trigger a[i]} :: 0 <= i < n ==> a[i] == b[i]
    ensures n <= r <= |a| && r <= |b|
    ensures forall i {:trigger a[i]} :: 0 <= i < r ==> a[i] == b[i]
    ensures r < |a| && r < |b| ==> a[r] != b[r]
    decreases |a| - n
  {
    if n < |a| && n < |b| && a[n] == b[n] then CommonPrefix(a, b, n + 1) else n
  }

  /** The last `n` cells of two rows are equal. */
  predicate SameTail(a: seq<Cell>, b: seq<Cell>, n: nat)
    requires n <= |a| && n <= |b|
  {
    forall i :: |a| - n <= i < |a| ==> a[i] == b[i + |b| - |a|]
  }

  /** How many trailing cells two rows share beyond `from`, given that the last `n` are equal. */
  function CommonSuffix(a: seq<Cell>, b: seq<Cell>, from: nat, n: nat): (r: nat)
    requires from + n <= |a| && from + n <= |b|
    requires SameTail(a, b, n)
    ensures n <= r && from + r <= |a| && from + r <= |b|
    ensures SameTail(a, b, r)
    ensures from + r < |a| && from + r < |b| ==> a[|a| - 1 - r] != b[|b| - 1 - r]
    decreases |a| - n
  {
    if from + n < |a| && from + n < |b| && a[|a| - 1 - n] == b[|b| - 1 - n]
    then CommonSuffix(a, b, from, n + 1) else n
  }

  /** The last of the first `k` base rows that starts at `anchor`: a later row overwrites an earlier key. */
  function AnchorIndex(base: seq<Row>, anchor: Anchor, k: nat): (r: Option<nat>)
    requires k <= |base|
    ensures r.Some? ==> r.value < k && base[r.value].start == Some(anchor)
    ensures r.None? ==> forall i :: 0 <= i < k ==> base[i].start != Some(anchor)
  {
    if k == 0 then None
    else if base[k - 1].start == Some(anchor) then Some(k - 1)
    else AnchorIndex(base, anchor, k - 1)
  }

  /** The base row that row `index` of the target is encoded against. */
  function ReferenceRow(base: seq<Row>, row: Row, index: nat): (i: nat)
    requires index < |base|
    ensures i < |base|
  {
    if row.start.None? then index else
    match AnchorIndex(base, row.start.value, |base|)
    case Some(i) => i
    case None => index
  }

  function MakePatch(base: seq<Row>, row: Row, index: nat): RowPatch
    requires index < |base|
  {
    var baseIndex := ReferenceRow(base, row, index);
    var source := base[baseIndex].cells;
    var prefix := CommonPrefix(source, row.cells, 0);
    var suffix := CommonSuffix(source, row.cells, prefix, 0);
    RowPatch(AsU32(index), AsU32(baseIndex), Some(row.(cells := [])),
             AsU32(prefix), AsU32(|source| - prefix - suffix),
             row.cells[prefix..|row.cells| - suffix])
  }

  /** The patches for the first `k` target rows. */
  function SparsePatches(base: seq<Row>, target: seq<Row>, k: nat): (p: seq<RowPatch>)
    requires k <= |base| == |target|
    ensures |p| <= k
  {
    if k == 0 then [] else
    var before := SparsePatches(base, target, k - 1);
    if target[k - 1] == base[k - 1] then before else before + [MakePatch(base, target[k - 1], k - 1)]
  }

  method SparseRowPatches(base: seq<Row>, target: seq<Row>) returns (r: Option<seq<RowPatch>>)
    ensures r.Some? <==> |base| == |target|
    ensures r.Some? ==> r.value == SparsePatches(base, target, |target|)
  {
    if |base| != |target| { return None; }
    var anchors: map<Anchor, nat> := map[];
    for i := 0 to |base|
      invariant forall a :: a in anchors <==> AnchorIndex(base, a, i).Some?
      invariant forall a :: a in anchors ==> AnchorIndex(base, a, i) == Some(anchors[a])
    {
      if base[i].start.Some? { anchors := anchors[base[i].start.value := i]; }
    }
    var patches := [];
    for i := 0 to |target|
      invariant patches == SparsePatches(base, target, i)
    {
      var row := target[i];
      if row == base[i] { continue; }
      var baseIndex := if row.start.Some? && row.start.value in anchors
                       then anchors[row.start.value] else i;
      assert baseIndex == ReferenceRow(base, row, i);
      var patch := PatchRow(base, row, i, baseIndex);
      patches := patches + [patch];
    }
    r := Some(patches);
  }

  method PatchRow(base: seq<Row>, row: Row, index: nat, baseIndex: nat) returns (p: RowPatch)
    requires index < |base| && baseIndex == ReferenceRow(base, row, index)
    ensures p == MakePatch(base, row, index)
  {
    var source := base[baseIndex].cells;
    var prefix := CountPrefix(source, row.cells);
    var suffix := CountSuffix(source, row.cells, prefix);
    p := RowPatch(AsU32(index), AsU32(baseIndex), Some(row.(cells := [])),
                  AsU32(prefix), AsU32(|source| - prefix - suffix),
                  row.cells[prefix..|row.cells| - suffix]);
  }

  method CountPrefix(a: seq<Cell>, b: seq<Cell>) returns (n: nat)
    ensures n == CommonPrefix(a, b, 0)
  {
    n := 0;
    while n < |a| && n < |b| && a[n] == b[n]
      invariant n <= |a| && n <= |b|
      invariant forall i {:trigger a[i]} :: 0 <= i < n ==> a[i] == b[i]
      invariant CommonPrefix(a, b, 0) == CommonPrefix(a, b, n)
    {
      n := n + 1;
    }
  }

  method CountSuffix(a: seq<Cell>, b: seq<Cell>, from: nat) returns (n: nat)
    requires from <= |a| && from <= |b|
    ensures n == CommonSuffix(a, b, from, 0)
  {
    n := 0;
    while from + n < |a| && from + n < |b| && a[|a| - 1 - n] == b[|b| - 1 - n]
      invariant from + n <= |a| && from + n <= |b|
      invariant SameTail(a, b, n)
      invariant CommonSuffix(a, b, from, 0) == CommonSuffix(a, b, from, n)
    {
      n := n + 1;
    }
  }

  predicate Applicable(base: seq<Row>, p: RowPatch) {
    && p.index < |base| && p.baseIndex < |base|
    && p.cellStart + p.deleteCount <= |base[p.baseIndex].cells|
    && p.metadata.Some? && p.metadata.value.cells == []
  }

  /** The row that a patch describes: its metadata around the spliced cells of its reference row. */
  function PatchedRow(base: seq<Row>, p: RowPatch): Row
    requires Applicable(base, p)
  {
    var source := base[p.baseIndex].cells;
    p.metadata.value.(cells := source[..p.cellStart] + p.cells + source[p.cellStart + p.deleteCount..])
  }

  /** The rows after the first `k` patches; fails at an inapplicable patch or a repeated index. */
  function ApplyPatches(base: seq<Row>, patches: seq<RowPatch>, k: nat): (r: Option<seq<Row>>)
    requires k <= |patches|
    ensures r.Some? ==> |r.value| == |base|
  {
    if k == 0 then Some(base) else
    var p := patches[k - 1];
    var before := ApplyPatches(base, patches, k - 1);
    if before.None? || !Applicable(base, p) || (exists i :: 0 <= i < k - 1 && patches[i].index == p.index)
    then None
    else Some(before.value[p.index := PatchedRow(base, p)])
  }

  function SparseRows(base: seq<Row>, patches: seq<RowPatch>): Option<seq<Row>> {
    if |patches| > |base| then None else ApplyPatches(base, patches, |patches|)
  }

  method ApplySparseRows(base: seq<Row>, patches: seq<RowPatch>) returns (r: Option<seq<Row>>)
    ensures r == SparseRows(base, patches)
  {
    if |patches| > |base| { return None; }
    var target := base;
    var seen: set<nat> := {};
    for k := 0 to |patches|
      invariant ApplyPatches(base, patches, k) == Some(target)
      invariant forall x :: x in seen <==> exists i :: 0 <= i < k && patches[i].index == x
    {
      var p := patches[k];
      if !Applicable(base, p) || p.index in seen {
        FailureIsFinal(base, patches, k + 1, |patches|);
        return None;
      }
      seen := seen + {p.index};
      target := target[p.index := PatchedRow(base, p)];
    }
    r := Some(target);
  }

  lemma {:induction false} FailureIsFinal(base: seq<Row>, patches: seq<RowPatch>, k: nat, n: nat)
    requires k <= n <= |patches|
    requires ApplyPatches(base, patches, k).None?
    ensures ApplyPatches(base, patches, n).None?
  {
    if k < n { FailureIsFinal(base, patches, k, n - 1); }
  }

  /** Keeping a shared prefix and a shared suffix and splicing in the rest rebuilds the row. */
  lemma SpliceRebuilds(source: seq<Cell>, wanted: seq<Cell>, prefix: nat, suffix: nat)
    requires prefix + suffix <= |source| && prefix + suffix <= |wanted|
    requires forall i {:trigger source[i]} :: 0 <= i < prefix ==> source[i] == wanted[i]
    requires SameTail(source, wanted, suffix)
    ensures source[..prefix] + wanted[prefix..|wanted| - suffix] + source[|source| - suffix..] == wanted
  {
    assert source[..prefix] == wanted[..prefix];
    assert source[|source| - suffix..] == wanted[|wanted| - suffix..];
    assert wanted == wanted[..prefix] + wanted[prefix..|wanted| - suffix] + wanted[|wanted| - suffix..];
  }

  /** A patch made for a row rebuilds exactly that row, wherever its reference row is. */
  lemma PatchRebuildsRow(base: seq<Row>, row: Row, index: nat)
    requires index < |base| < U32 && |row.cells| < U32
    requires forall i :: 0 <= i < |base| ==> |base[i].cells| < U32
    ensures Applicable(base, MakePatch(base, row, index))
    ensures PatchedRow(base, MakePatch(base, row, index)) == row
    ensures MakePatch(base, row, index).index == index
  {
    hide ReferenceRow, CommonPrefix, CommonSuffix;
    var j := ReferenceRow(base, row, index);
    var source := base[j].cells;
    var prefix := CommonPrefix(source, row.cells, 0);
    var suffix := CommonSuffix(source, row.cells, prefix, 0);
    SpliceRebuilds(source, row.cells, prefix, suffix);
  }

  /** Patches for the first `k` rows name those rows only. */
  lemma {:induction false} PatchIndices(base: seq<Row>, target: seq<Row>, k: nat)
    requires k <= |base| == |target| < U32
    ensures forall i :: 0 <= i < |SparsePatches(base, target, k)| ==> SparsePatches(base, target, k)[i].index < k
  {
    if k > 0 { PatchIndices(base, target, k - 1); }
  }

  /** One more applicable patch with a new index rewrites exactly that row. */
  lemma ApplyOneMore(base: seq<Row>, patches: seq<RowPatch>, p: RowPatch)
    requires Applicable(base, p)
    requires ApplyPatches(base, patches, |patches|).Some?
    requires forall i :: 0 <= i < |patches| ==> patches[i].index != p.index
    ensures var rows := ApplyPatches(base, patches, |patches|).value;
            ApplyPatches(base, patches + [p], |patches| + 1) == Some(rows[p.index := PatchedRow(base, p)])
  {
    ApplyPrefix(base, patches, patches + [p], |patches|);
  }

  lemma {:induction false} ApplyPrefix(base: seq<Row>, p: seq<RowPatch>, q: seq<RowPatch>, k: nat)
    requires k <= |p| <= |q| && forall i :: 0 <= i < |p| ==> q[i] == p[i]
    ensures ApplyPatches(base, p, k) == ApplyPatches(base, q, k)
  {
    if k > 0 { ApplyPrefix(base, p, q, k - 1); }
  }

  /** The patch for row `k` extends a rebuilt prefix by that row. */
  lemma PatchExtendsPrefix(base: seq<Row>, target: seq<Row>, k: nat, before: seq<RowPatch>)
    requires k < |base| == |target| < U32
    requires forall i :: 0 <= i < |base| ==> |base[i].cells| < U32 && |target[i].cells| < U32
    requires forall i :: 0 <= i < |before| ==> before[i].index < k
    requires ApplyPatches(base, before, |before|) == Some(target[..k] + base[k..])
    ensures ApplyPatches(base, before + [MakePatch(base, target[k], k)], |before| + 1)
            == Some(target[..k + 1] + base[k + 1..])
  {
    PatchRebuildsRow(base, target[k], k);
    ApplyOneMore(base, before, MakePatch(base, target[k], k));
    assert (target[..k] + base[k..])[k := target[k]] == target[..k + 1] + base[k + 1..];
  }

  /** The rows rebuilt from the patches of the first `k` rows: target up to `k`, base from there. */
  lemma {:induction false} SparsePrefixRoundTrip(base: seq<Row>, target: seq<Row>, k: nat)
    requires k <= |base| == |target| < U32
    requires forall i :: 0 <= i < |base| ==> |base[i].cells| < U32 && |target[i].cells| < U32
    ensures var p := SparsePatches(base, target, k);
            ApplyPatches(base, p, |p|) == Some(target[..k] + base[k..])
  {
    if k == 0 {
      assert target[..0] + base[0..] == base;
    } else {
      SparsePrefixRoundTrip(base, target, k - 1);
      SparseStep(base, target, k);
    }
  }

  lemma SparseStep(base: seq<Row>, target: seq<Row>, k: nat)
    requires 0 < k <= |base| == |target| < U32
    requires forall i :: 0 <= i < |base| ==> |base[i].cells| < U32 && |target[i].cells| < U32
    requires var p := SparsePatches(base, target, k - 1);
             ApplyPatches(base, p, |p|) == Some(target[..k - 1] + base[k - 1..])
    ensures var p := SparsePatches(base, target, k);
            ApplyPatches(base, p, |p|) == Some(target[..k] + base[k..])
  {
    hide ApplyPatches, MakePatch;
    if target[k - 1] == base[k - 1] {
      assert target[..k - 1] + base[k - 1..] == target[..k] + base[k..];
    } else {
      var before := SparsePatches(base, target, k - 1);
      assert |SparsePatches(base, target, k)| == |before| + 1;
      PatchIndices(base, target, k - 1);
      PatchExtendsPrefix(base, target, k - 1, before);
    }
  }

  lemma SparseRowsRoundTrip(base: seq<Row>, target: seq<Row>)
    requires |base| == |target| < U32
    requires forall i :: 0 <= i < |base| ==> |base[i].cells| < U32 && |target[i].cells| < U32
    ensures SparseRows(base, SparsePatches(base, target, |target|)) == Some(target)
  {
    SparsePrefixRoundTrip(base, target, |target|);
    assert target[..|target|] + base[|target|..] == target;
  }

  // ---------------------------------------------------------------- compact deltas

  predicate Has(mask: bv32, field: bv32) { mask & field != 0 }

  predicate Unknown(mask: bv32) { mask & !KNOWN_INHERIT_MASK != 0 }

  function Bit(mask: bv32, on: bool): bv32 { if on then mask else 0 }

  /** The metadata fields a delta may leave out because the base already has them. */
  function InheritMask(base: State, target: State): bv32 {
    Bit(INHERIT_STYLES, target.styles == base.styles)
    | Bit(INHERIT_HYPERLINKS, target.hyperlinks == base.hyperlinks)
    | Bit(INHERIT_MODES, target.modes == base.modes)
    | Bit(INHERIT_TITLE, target.title == base.title)
    | Bit(INHERIT_WORKING_DIRECTORY, target.workingDirectory == base.workingDirectory)
    | Bit(INHERIT_PALETTE, target.palette == base.palette)
  }

  /** Every bit of the mask reads back as the flag it was built from. */
  lemma MaskReadsBack(a: bool, b: bool, c: bool, d: bool, e: bool, f: bool)
    ensures var m := Bit(INHERIT_STYLES, a) | Bit(INHERIT_HYPERLINKS, b) | Bit(INHERIT_MODES, c)
                     | Bit(INHERIT_TITLE, d) | Bit(INHERIT_WORKING_DIRECTORY, e) | Bit(INHERIT_PALETTE, f);
            && !Unknown(m)
            && (Has(m, INHERIT_STYLES) <==> a) && (Has(m, INHERIT_HYPERLINKS) <==> b)
            && (Has(m, INHERIT_MODES) <==> c) && (Has(m, INHERIT_TITLE) <==> d)
            && (Has(m, INHERIT_WORKING_DIRECTORY) <==> e) && (Has(m, INHERIT_PALETTE) <==> f)
  {
  }

  function WithoutRows(screen: Option<Screen>): Option<Screen> {
    if screen.None? then None else Some(screen.value.(rows := []))
  }

  /** `state_metadata`: everything but the rows of the two screens. */
  function Metadata(s: State): State {
    s.(primary := WithoutRows(s.primary), alternate := WithoutRows(s.alternate))
  }

  function StripInherited(m: State, base: State): State {
    m.(styles := if m.styles == base.styles then [] else m.styles,
       hyperlinks := if m.hyperlinks == base.hyperlinks then [] else m.hyperlinks,
       modes := if m.modes == base.modes then None else m.modes,
       title := if m.title == base.title then "" else m.title,
       workingDirectory := if m.workingDirectory == base.workingDirectory then "" else m.workingDirectory,
       palette := if m.palette == base.palette then None else m.palette)
  }

  /** `compact_viewport_datagram`: the cumulative delta from `base` to `target`. */
  function Encode(route: Route, base: State, target: State): Option<Datagram> {
    if route.terminal == "" || route.attachment == "" then None
    else if base.epoch != target.epoch || target.generation <= base.generation then None
    else if base.primary.None? || target.primary.None? || base.alternate.None? || target.alternate.None? then None
    else if |base.primary.value.rows| != |target.primary.value.rows| then None
    else if |base.alternate.value.rows| != |target.alternate.value.rows| then None
    else
      Some(Datagram(route,
                    StateDiff(target.epoch, base.generation, target.generation,
                              Some(StripInherited(Metadata(target), base)), [], []),
                    InheritMask(base, target), true,
                    SparsePatches(base.primary.value.rows, target.primary.value.rows, |target.primary.value.rows|),
                    SparsePatches(base.alternate.value.rows, target.alternate.value.rows,
                        |target.alternate.value.rows|)))
  }

  /** An inherited field must not be encoded as well. */
  predicate NoDoubleEncoding(m: State, mask: bv32) {
    && (Has(mask, INHERIT_STYLES) ==> m.styles == [])
    && (Has(mask, INHERIT_HYPERLINKS) ==> m.hyperlinks == [])
    && (Has(mask, INHERIT_MODES) ==> m.modes == None)
    && (Has(mask, INHERIT_TITLE) ==> m.title == "")
    && (Has(mask, INHERIT_WORKING_DIRECTORY) ==> m.workingDirectory == "")
    && (Has(mask, INHERIT_PALETTE) ==> m.palette == None)
  }

  function Inherit(m: State, base: State, mask: bv32): State {
    m.(styles := if Has(mask, INHERIT_STYLES) then base.styles else m.styles,
       hyperlinks := if Has(mask, INHERIT_HYPERLINKS) then base.hyperlinks else m.hyperlinks,
       modes := if Has(mask, INHERIT_MODES) then base.modes else m.modes,
       title := if Has(mask, INHERIT_TITLE) then base.title else m.title,
       workingDirectory := if Has(mask, INHERIT_WORKING_DIRECTORY) then base.workingDirectory
                           else m.workingDirectory,
       palette := if Has(mask, INHERIT_PALETTE) then base.palette else m.palette)
  }

  /** Rebuild one screen of the target from its rowless metadata. */
  function RebuildScreen(screen: Option<Screen>, base: Option<Screen>, patches: seq<RowPatch>): Option<Screen> {
    if screen.None? || screen.value.rows != [] || base.None? then None else
    match SparseRows(base.value.rows, patches)
    case None => None
    case Some(rows) => Some(screen.value.(rows := rows))
  }

  /** `apply_compact_viewport_delta`; `None` is its error result. */
  function Decode(base: State, d: Datagram): Option<State> {
    if Unknown(d.inherited) || d.diff.metadata.None? then None
    else if !NoDoubleEncoding(d.diff.metadata.value, d.inherited) then None else
    var m := Inherit(d.diff.metadata.value, base, d.inherited);
    if !d.sparse then
      if d.primaryPatches != [] || d.alternatePatches != [] then None
      else ApplyDense(base, d.diff.(metadata := Some(m)))
    else if d.diff.primaryRows != [] || d.diff.alternateRows != [] then None
    else DecodeSparse(base, d, m)
  }

  /** The sparse case, once inherited fields are filled in. */
  function DecodeSparse(base: State, d: Datagram, m: State): Option<State> {
    if !(base.epoch == d.diff.epoch && base.generation == d.diff.baseGeneration
         && d.diff.targetGeneration > d.diff.baseGeneration) then None
    else if !(m.epoch == d.diff.epoch && m.generation == d.diff.targetGeneration
              && m.rows == base.rows && m.cols == base.cols) then None
    else
      var primary := RebuildScreen(m.primary, base.primary, d.primaryPatches);
      var alternate := RebuildScreen(m.alternate, base.alternate, d.alternatePatches);
      if primary.None? || alternate.None? then None else
      var target := m.(primary := primary, alternate := alternate);
      if ValidViewport(target) then Some(target) else None
  }

  /** Two live states between which the sender encodes a delta. */
  predicate DeltaPair(base: State, target: State) {
    && ValidViewport(base) && ValidViewport(target)
    && base.epoch == target.epoch && base.generation < target.generation
    && base.rows == target.rows && base.cols == target.cols
  }

  /** Inheriting on the receiver undoes stripping on the sender, for every combination of fields. */
  lemma InheritUndoesStrip(base: State, target: State)
    ensures var m, mask := StripInherited(Metadata(target), base), InheritMask(base, target);
            && !Unknown(mask)
            && NoDoubleEncoding(m, mask)
            && Inherit(m, base, mask) == Metadata(target)
  {
    MaskReadsBack(target.styles == base.styles, target.hyperlinks == base.hyperlinks,
                  target.modes == base.modes, target.title == base.title,
                  target.workingDirectory == base.workingDirectory, target.palette == base.palette);
  }

  /** Rows of a valid screen are few and short enough for the 32-bit patch fields. */
  lemma RowsFit(screen: Screen, alternate: bool, s: State)
    requires ValidScreen(screen, alternate, s) && s.cols <= MAX_DIMENSION
    ensures forall i :: 0 <= i < |screen.rows| ==> |screen.rows[i].cells| < U32
  {
    forall i | 0 <= i < |screen.rows| ensures |screen.rows[i].cells| < U32 {
      CellsFitColumns(screen.rows[i].cells, s.cols, s.styles, s.hyperlinks);
    }
  }

  lemma ScreenRoundTrip(b: Screen, t: Screen)
    requires |b.rows| == |t.rows| < U32
    requires forall i :: 0 <= i < |b.rows| ==> |b.rows[i].cells| < U32 && |t.rows[i].cells| < U32
    ensures RebuildScreen(WithoutRows(Some(t)), Some(b), SparsePatches(b.rows, t.rows, |t.rows|)) == Some(t)
  {
    SparseRowsRoundTrip(b.rows, t.rows);
  }

  lemma ScreensRoundTrip(base: State, target: State)
    requires DeltaPair(base, target)
    ensures var bp, tp := base.primary.value, target.primary.value;
            |bp.rows| == |tp.rows| &&
            RebuildScreen(WithoutRows(target.primary), base.primary,
                          SparsePatches(bp.rows, tp.rows, |tp.rows|)) == target.primary
    ensures var ba, ta := base.alternate.value, target.alternate.value;
            |ba.rows| == |ta.rows| &&
            RebuildScreen(WithoutRows(target.alternate), base.alternate,
                          SparsePatches(ba.rows, ta.rows, |ta.rows|)) == target.alternate
  {
    RowsFit(base.primary.value, false, base);
    RowsFit(target.primary.value, false, target);
    RowsFit(base.alternate.value, true, base);
    RowsFit(target.alternate.value, true, target);
    ScreenRoundTrip(base.primary.value, target.primary.value);
    ScreenRoundTrip(base.alternate.value, target.alternate.value);
  }

  /** The delta from a base to a later live state, applied to that base, is exactly that state. */
  lemma DeltaRoundTrip(route: Route, base: State, target: State)
    requires route.terminal != "" && route.attachment != ""
    requires DeltaPair(base, target)
    ensures Encode(route, base, target).Some?
    ensures Decode(base, Encode(route, base, target).value) == Some(target)
  {
    hide ValidViewport, StripInherited, Inherit, InheritMask, NoDoubleEncoding, DecodeSparse, Metadata;
    InheritUndoesStrip(base, target);
    SparseRoundTrip(route, base, target);
  }

  lemma SparseRoundTrip(route: Route, base: State, target: State)
    requires route.terminal != "" && route.attachment != ""
    requires DeltaPair(base, target)
    ensures Encode(route, base, target).Some?
    ensures DecodeSparse(base, Encode(route, base, target).value, Metadata(target)) == Some(target)
  {
    ScreensRoundTrip(base, target);
    assert Metadata(target).(primary := target.primary, alternate := target.alternate) == target;
  }

  // ---------------------------------------------------------------- dense diffs

  predicate AllAnchored(rows: seq<Row>) {
    forall i :: 0 <= i < |rows| ==> rows[i].start.Some?
  }

  /** `rows_by_anchor` succeeds: every row has an anchor and no anchor repeats. */
  predicate Anchored(rows: seq<Row>) {
    && AllAnchored(rows)
    && (forall i, j :: 0 <= i < j < |rows| ==> rows[i].start != rows[j].start)
  }

  /** Reuse a base row that is identical and has the same anchor, replace anything else. */
  function SourceOf(base: seq<Row>, row: Row): RowSource
    requires row.start.Some?
  {
    match AnchorIndex(base, row.start.value, |base|)
    case Some(i) => if base[i] == row then BaseAnchor(row.start.value) else Replacement(row)
    case None => Replacement(row)
  }

  function DiffRows(base: seq<Row>, target: seq<Row>, k: nat): (r: seq<RowSource>)
    requires k <= |target| && AllAnchored(target)
    ensures |r| == k
  {
    if k == 0 then [] else DiffRows(base, target, k - 1) + [SourceOf(base, target[k - 1])]
  }

  function Reconstruct(base: seq<Row>, source: RowSource): Option<Row> {
    match source
    case BaseAnchor(a) => (match AnchorIndex(base, a, |base|)
                           case Some(i) => Some(base[i])
                           case None => None)
    case Replacement(row) => Some(row)
    case NoSource => None
  }

  /** Rebuild the first `k` rows; a missing source, a row without an anchor or a repeated one fails. */
  function RebuildRows(base: seq<Row>, sources: seq<RowSource>, k: nat): Option<seq<Row>>
    requires k <= |sources|
  {
    if k == 0 then Some([]) else
    var before := RebuildRows(base, sources, k - 1);
    var row := Reconstruct(base, sources[k - 1]);
    if before.None? || row.None? || row.value.start.None? then None
    else if exists r :: r in before.value && r.start == row.value.start then None
    else Some(before.value + [row.value])
  }

  function ApplyRows(base: seq<Row>, sources: seq<RowSource>): Option<seq<Row>> {
    if |sources| > MAX_INCLUDED_ROWS || !Anchored(base) then None
    else RebuildRows(base, sources, |sources|)
  }

  function DiffScreens(base: Option<Screen>, target: Option<Screen>): Option<seq<RowSource>> {
    if base.None? || target.None? || !Anchored(base.value.rows) || !AllAnchored(target.value.rows) then None
    else Some(DiffRows(base.value.rows, target.value.rows, |target.value.rows|))
  }

  /** `terminal_state_diff`. */
  function DenseDiff(base: State, target: State): Option<StateDiff> {
    if !Valid(base) || !Valid(target) || base.epoch != target.epoch || target.generation <= base.generation then None
    else
      var primary := DiffScreens(base.primary, target.primary);
      var alternate := DiffScreens(base.alternate, target.alternate);
      if primary.None? || alternate.None? then None
      else Some(StateDiff(target.epoch, base.generation, target.generation, Some(Metadata(target)),
                          primary.value, alternate.value))
  }

  function ApplyScreen(screen: Option<Screen>, base: Option<Screen>, sources: seq<RowSource>): Option<Screen> {
    if screen.None? || screen.value.rows != [] || base.None? then None else
    match ApplyRows(base.value.rows, sources)
    case None => None
    case Some(rows) => Some(screen.value.(rows := rows))
  }

  /** `apply_terminal_state_diff`. */
  function ApplyDense(base: State, diff: StateDiff): Option<State> {
    if !Valid(base) || base.epoch != diff.epoch || base.generation != diff.baseGeneration then None
    else if diff.targetGeneration <= diff.baseGeneration || diff.metadata.None? then None else
    var m := diff.metadata.value;
    if m.epoch != diff.epoch || m.generation != diff.targetGeneration then None
    else
      var primary := ApplyScreen(m.primary, base.primary, diff.primaryRows);
      var alternate := ApplyScreen(m.alternate, base.alternate, diff.alternateRows);
      if primary.None? || alternate.None? then None else
      var target := m.(primary := primary, alternate := alternate);
      if Valid(target) then Some(target) else None
  }

  lemma ValidRowsAnchored(rows: seq<Row>, cols: nat, generation: nat,
                          styles: seq<Style>, hyperlinks: seq<Hyperlink>)
    requires ValidRows(rows, cols, generation, styles, hyperlinks)
    ensures Anchored(rows)
  {
    forall i, j | 0 <= i < j < |rows| ensures rows[i].start != rows[j].start {
      AnchorsAscend(rows, cols, generation, styles, hyperlinks, i, j);
    }
  }

  lemma {:induction false} RebuildUndoesDiff(base: seq<Row>, target: seq<Row>, k: nat)
    requires Anchored(base) && Anchored(target) && k <= |target|
    ensures RebuildRows(base, DiffRows(base, target, |target|), k) == Some(target[..k])
  {
    if k > 0 {
      RebuildUndoesDiff(base, target, k - 1);
      DiffRowAt(base, target, |target|, k - 1);
      assert target[..k] == target[..k - 1] + [target[k - 1]];
    }
  }

  lemma {:induction false} DiffRowAt(base: seq<Row>, target: seq<Row>, k: nat, i: nat)
    requires i < k <= |target| && AllAnchored(target)
    ensures DiffRows(base, target, k)[i] == SourceOf(base, target[i])
  {
    if i < k - 1 { DiffRowAt(base, target, k - 1, i); }
  }

  /** The dense diff round-trips between any two valid full states of one epoch, scrollback included. */
  lemma DenseRoundTrip(base: State, target: State)
    requires Valid(base) && Valid(target)
    requires base.epoch == target.epoch && base.generation < target.generation
    ensures DenseDiff(base, target).Some?
    ensures ApplyDense(base, DenseDiff(base, target).value) == Some(target)
  {
    hide ApplyScreen, DiffScreens, ValidScreen, ValidTables, CellCount;
    DenseScreens(base, target);
    assert Metadata(target).(primary := target.primary, alternate := target.alternate) == target;
  }

  lemma DenseScreens(base: State, target: State)
    requires Valid(base) && Valid(target)
    ensures var primary, alternate := DiffScreens(base.primary, target.primary),
                                      DiffScreens(base.alternate, target.alternate);
            && primary.Some? && alternate.Some?
            && ApplyScreen(WithoutRows(target.primary), base.primary, primary.value) == target.primary
            && ApplyScreen(WithoutRows(target.alternate), base.alternate, alternate.value) == target.alternate
  {
    AnchoredScreens(base);
    AnchoredScreens(target);
    DenseScreen(base.primary.value, target.primary.value);
    DenseScreen(base.alternate.value, target.alternate.value);
  }

  lemma AnchoredScreens(s: State)
    requires Valid(s)
    ensures Anchored(s.primary.value.rows) && Anchored(s.alternate.value.rows)
  {
    ValidRowsAnchored(s.primary.value.rows, s.cols, s.generation, s.styles, s.hyperlinks);
    ValidRowsAnchored(s.alternate.value.rows, s.cols, s.generation, s.styles, s.hyperlinks);
  }

  lemma DenseScreen(base: Screen, target: Screen)
    requires Anchored(base.rows) && Anchored(target.rows) && |target.rows| <= MAX_INCLUDED_ROWS
    ensures DiffScreens(Some(base), Some(target)).Some?
    ensures ApplyScreen(WithoutRows(Some(target)), Some(base), DiffScreens(Some(base), Some(target)).value)
            == Some(target)
  {
    RebuildUndoesDiff(base.rows, target.rows, |target.rows|);
    assert target.rows[..|target.rows|] == target.rows;
  }
}
