/** Fragmented viewport updates, version 3 (src/terminal_datagram_v3.rs). */
module ViewportFragments {
  import opened Basics
  import opened ProtobufWire

  const MAX_WORKING_BYTES: nat := 65535
  const MAX_FRAGMENTS: nat := 128
  const RAW: nat := 0
  const ZSTD: nat := 1

  datatype Diff = Diff(epoch: Bytes, base: nat, target: nat)

  /** A version 2 delta, with its encoding `raw`. */
  datatype Delta = Delta(terminal: Bytes, attachment: Bytes, diff: Option<Diff>, nested: bool, raw: Bytes)

  datatype Fragment = Fragment(epoch: Bytes, base: nat, target: nat, transferId: Bytes, index: nat, count: nat,
                               totalEncoded: nat, rawLength: nat, encoding: nat, sha256: Bytes, data: Bytes)

  datatype Packet = Packet(terminal: Bytes, attachment: Bytes, fragment: Fragment)

  function EncodeFragment(f: Fragment): Bytes {
    BytesField(1, f.epoch) + UintField(2, f.base) + UintField(3, f.target) + BytesField(4, f.transferId)
    + UintField(5, f.index) + UintField(6, f.count) + UintField(7, f.totalEncoded) + UintField(8, f.rawLength)
    + UintField(9, f.encoding) + BytesField(10, f.sha256) + BytesField(11, f.data)
  }

  function EncodePacket(p: Packet): Bytes {
    BytesField(1, p.terminal) + BytesField(2, p.attachment) + MessageField(8, EncodeFragment(p.fragment))
  }

  /** Where fragment `index` of `count` starts in the body; it ends where the next one starts. */
  function Cut(index: nat, count: nat, total: nat): nat
    requires count > 0
  {
    Quotient(Product(index, total), count)
  }

  function Product(a: nat, b: nat): nat {
    a * b
  }

  function Quotient(a: nat, c: nat): nat
    requires c > 0
  {
    a / c
  }

  datatype Transfer = Transfer(terminal: Bytes, attachment: Bytes, header: Fragment, encoded: Bytes)
  {
    predicate Cuts() {
      0 < header.count <= |encoded| && header.data == []
    }

    function Data(index: nat): Bytes
      requires Cuts() && index < header.count
    {
      CutsAscend(index, header.count, |encoded|);
      encoded[Cut(index, header.count, |encoded|)..Cut(index + 1, header.count, |encoded|)]
    }

    function PacketAt(index: nat): Packet
      requires Cuts() && index < header.count
    {
      Packet(terminal, attachment, header.(index := index, data := Data(index)))
    }

    /** `packet_len`: exact framing without building the packet. */
    function PacketLength(index: nat): nat
      requires Cuts() && index < header.count
    {
      CutsAscend(index, header.count, |encoded|);
      var n := Cut(index + 1, header.count, |encoded|) - Cut(index, header.count, |encoded|);
      var inner := |EncodeFragment(header.(index := index))| + 1 + |Varint(n)| + n;
      var route := 1 + |Varint(|terminal|)| + |terminal| + 1 + |Varint(|attachment|)| + |attachment|;
      route + 1 + |Varint(inner)| + inner
    }
  }

  /** Consecutive cuts differ by at least one and stay inside the body. */
  lemma CutsAscend(index: nat, count: nat, total: nat)
    requires 0 < count <= total && index < count
    ensures Cut(index, count, total) < Cut(index + 1, count, total) <= total
    ensures Cut(0, count, total) == 0 && Cut(count, count, total) == total
  {
    hide Product, Quotient;
    Successor(index, total);
    Ordered(index + 1, count, total);
    Bounds(Product(index, total), count);
    Successor(Quotient(Product(index, total), count), count);
    AtLeast(Product(index + 1, total), count, Quotient(Product(index, total), count) + 1);
    Commute(count, total);
    AtMost(Product(index + 1, total), count, total);
    AtLeast(Product(count, total), count, total);
    AtMost(Product(count, total), count, total);
    Commute(0, total);
    AtMost(0, count, 0);
  }

  lemma Successor(a: nat, b: nat)
    ensures Product(a + 1, b) == Product(a, b) + b
  {
  }

  lemma Commute(a: nat, b: nat)
    ensures Product(a, b) == Product(b, a) && Product(0, b) == 0
  {
  }

  lemma Ordered(a: nat, b: nat, c: nat)
    requires a <= b
    ensures Product(a, c) <= Product(b, c)
  {
  }

  lemma Bounds(a: nat, c: nat)
    requires c > 0
    ensures Product(Quotient(a, c), c) <= a < Product(Quotient(a, c), c) + c
  {
  }

  lemma AtLeast(a: nat, c: nat, q: nat)
    requires c > 0 && Product(q, c) <= a
    ensures q <= Quotient(a, c)
  {
    hide Product, Quotient;
    Bounds(a, c);
    if Quotient(a, c) + 1 <= q {
      Ordered(Quotient(a, c) + 1, q, c);
      Successor(Quotient(a, c), c);
      assert false;
    }
  }

  lemma AtMost(a: nat, c: nat, q: nat)
    requires c > 0 && a <= Product(q, c)
    ensures Quotient(a, c) <= q
  {
    hide Product, Quotient;
    Bounds(a, c);
    if q + 1 <= Quotient(a, c) {
      Ordered(q + 1, Quotient(a, c), c);
      Successor(q, c);
      assert false;
    }
  }

  // ---------------------------------------------------------------- exact sizes and reassembly

  /** The computed size is the length of the packet's actual encoding. */
  lemma PacketLengthExact(t: Transfer, index: nat)
    requires t.Cuts() && index < t.header.count && t.terminal != [] && t.attachment != []
    ensures |EncodePacket(t.PacketAt(index))| == t.PacketLength(index)
    ensures t.Data(index) != []
  {
    hide Cut, Varint, UintField, Tag;
    CutsAscend(index, t.header.count, |t.encoded|);
    var data := t.Data(index);
    var bare := t.header.(index := index);
    FragmentLength(bare, data);
    ShortTag(1, DELIMITED);
    ShortTag(2, DELIMITED);
    ShortTag(8, DELIMITED);
  }

  lemma FragmentLength(bare: Fragment, data: Bytes)
    requires bare.data == [] && data != []
    ensures |EncodeFragment(bare.(data := data))| == |EncodeFragment(bare)| + 1 + |Varint(|data|)| + |data|
  {
    hide Varint, UintField, Tag;
    ShortTag(11, DELIMITED);
  }

  /** The first k fragments one after the other. */
  function Joined(t: Transfer, k: nat): Bytes
    requires t.Cuts() && k <= t.header.count
  {
    if k == 0 then [] else Joined(t, k - 1) + t.Data(k - 1)
  }

  lemma {:induction false} FragmentsJoin(t: Transfer, k: nat)
    requires t.Cuts() && k <= t.header.count
    ensures Cut(k, t.header.count, |t.encoded|) <= |t.encoded|
    ensures Joined(t, k) == t.encoded[..Cut(k, t.header.count, |t.encoded|)]
  {
    hide Cut;
    CutsAscend(0, t.header.count, |t.encoded|);
    if k > 0 {
      FragmentsJoin(t, k - 1);
      CutsAscend(k - 1, t.header.count, |t.encoded|);
    }
  }

  // ---------------------------------------------------------------- choosing encoding and count

  function MaximumEncoded(raw: nat): nat
    requires raw < MAX_WORKING_BYTES
  {
    (MAX_WORKING_BYTES - raw - 1) / 2
  }

  predicate WorkingBytesFit(raw: nat, encoded: nat) {
    raw > 0 && encoded > 0 && 2 * encoded + raw + 1 <= MAX_WORKING_BYTES
  }

  function Choose(raw: Bytes, compressed: Option<Bytes>): (nat, Bytes) {
    if compressed.Some? && Saves(|raw|, |compressed.value|) then (ZSTD, compressed.value) else (RAW, raw)
  }

  predicate WellFormed(d: Delta) {
    && !d.nested && d.terminal != [] && d.attachment != [] && d.diff.Some?
    && |d.diff.value.epoch| == 16 && 0 < d.diff.value.base < d.diff.value.target
  }

  predicate SmallEnough(d: Delta, budget: nat) {
    0 < |d.raw| < MAX_WORKING_BYTES && budget > 0
  }

  predicate Eligible(d: Delta, budget: nat, compressed: Option<Bytes>) {
    && SmallEnough(d, budget) && WellFormed(d)
    && MaximumEncoded(|d.raw|) > 0
    && WorkingBytesFit(|d.raw|, |Choose(d.raw, compressed).1|)
  }

  /** The transfer while its fragment count is still being searched; the identifier is a placeholder. */
  function Draft(d: Delta, compressed: Option<Bytes>, digest: Bytes, count: nat): Transfer
    requires WellFormed(d)
  {
    var (encoding, encoded) := Choose(d.raw, compressed);
    var diff := d.diff.value;
    Transfer(d.terminal, d.attachment,
             Fragment(diff.epoch, diff.base, diff.target, seq(16, _ => 0 as byte), 0, count, |encoded|, |d.raw|,
                 encoding,
                      digest, []),
             encoded)
  }

  predicate AllFit(t: Transfer, budget: nat)
    requires t.Cuts()
  {
    forall i :: 0 <= i < t.header.count ==> t.PacketLength(i) <= budget
  }

  function WireBytes(t: Transfer, k: nat): nat
    requires t.Cuts() && k <= t.header.count
  {
    if k == 0 then 0 else WireBytes(t, k - 1) + t.PacketLength(k - 1)
  }

  function Limit(total: nat): nat {
    if total < MAX_FRAGMENTS then total else MAX_FRAGMENTS
  }

  predicate FitsWith(d: Delta, compressed: Option<Bytes>, digest: Bytes, budget: nat, count: nat)
    requires WellFormed(d)
  {
    1 <= count <= |Choose(d.raw, compressed).1| && AllFit(Draft(d, compressed, digest, count), budget)
  }

  /** The smallest count whose packets all fit. */
  predicate Smallest(d: Delta, compressed: Option<Bytes>, digest: Bytes, budget: nat, count: nat)
    requires WellFormed(d)
  {
    && 1 <= count <= Limit(|Choose(d.raw, compressed).1|)
    && FitsWith(d, compressed, digest, budget, count)
    && forall c :: 1 <= c < count ==> !FitsWith(d, compressed, digest, budget, c)
  }

  datatype Outcome = Invalid | Keyframe | Send(transfer: Transfer)

  function Identified(t: Transfer, identify: Fragment -> Bytes): Transfer {
    t.(header := t.header.(transferId := identify(t.header)))
  }

  /** `prepare`: a transfer is sent exactly if it is eligible and its smallest fitting form beats the keyframe. */
  method Prepare(d: Delta, budget: nat, keyframeBytes: nat, compressed: Option<Bytes>, digest: Bytes,
                 identify: Fragment -> Bytes)
    returns (r: Outcome)
    ensures r.Invalid? <==> SmallEnough(d, budget) && !WellFormed(d)
    ensures r.Send? ==>
              && Eligible(d, budget, compressed)
              && var count := r.transfer.header.count;
              && Smallest(d, compressed, digest, budget, count)
              && WireBytes(Draft(d, compressed, digest, count), count) < keyframeBytes
              && r.transfer == Identified(Draft(d, compressed, digest, count), identify)
    ensures r.Keyframe? && Eligible(d, budget, compressed) ==>
              forall count :: Smallest(d, compressed, digest, budget, count) ==>
                WireBytes(Draft(d, compressed, digest, count), count) >= keyframeBytes
  {
    hide Draft, Varint, UintField, BytesField, MessageField, Transfer.PacketLength;
    if |d.raw| == 0 || |d.raw| >= MAX_WORKING_BYTES || budget == 0 {
      return Keyframe;
    }
    if !WellFormed(d) {
      return Invalid;
    }
    if MaximumEncoded(|d.raw|) == 0 {
      return Keyframe;
    }
    var (_, encoded) := Choose(d.raw, compressed);
    if !WorkingBytesFit(|d.raw|, |encoded|) {
      return Keyframe;
    }
    var count := 1;
    while count <= Limit(|encoded|)
      invariant 1 <= count <= Limit(|encoded|) + 1
      invariant forall c :: 1 <= c < count ==> !FitsWith(d, compressed, digest, budget, c)
    {
      DraftCuts(d, compressed, digest, count);
      var t := Draft(d, compressed, digest, count);
      var wire, index, fits := 0, 0, true;
      while index < count && fits
        invariant index <= count
        invariant fits ==> wire == WireBytes(t, index) && forall i :: 0 <= i < index ==> t.PacketLength(i) <= budget
        invariant !fits ==> index < count && t.PacketLength(index) > budget
        decreases fits, count - index
      {
        var size := t.PacketLength(index);
        if size > budget {
          fits := false;
        } else {
          wire := wire + size;
          index := index + 1;
        }
      }
      if fits {
        if wire >= keyframeBytes {
          forall c | Smallest(d, compressed, digest, budget, c) ensures c == count {
            OneSmallest(d, compressed, digest, budget, c, count);
          }
          return Keyframe;
        }
        return Send(Identified(t, identify));
      }
      count := count + 1;
    }
    r := Keyframe;
  }

  lemma OneSmallest(d: Delta, compressed: Option<Bytes>, digest: Bytes, budget: nat, a: nat, b: nat)
    requires WellFormed(d) && Smallest(d, compressed, digest, budget, a) && Smallest(d, compressed, digest, budget, b)
    ensures a == b
  {
  }

  lemma DraftCuts(d: Delta, compressed: Option<Bytes>, digest: Bytes, count: nat)
    requires WellFormed(d) && 1 <= count <= |Choose(d.raw, compressed).1|
    ensures var t := Draft(d, compressed, digest, count); t.Cuts() && t.header.count == count
  {
  }

  // ---------------------------------------------------------------- what is sent

  /** The placeholder and the real identifier have the same length, so the search measured the real packets. */
  lemma SameLengths(t: Transfer, identify: Fragment -> Bytes, index: nat)
    requires t.Cuts() && index < t.header.count && |t.header.transferId| == 16 && |identify(t.header)| == 16
    ensures Identified(t, identify).Cuts()
    ensures Identified(t, identify).PacketLength(index) == t.PacketLength(index)
    ensures Identified(t, identify).Data(index) == t.Data(index)
  {
    hide Cut, Varint, UintField, Tag;
  }

  lemma {:induction false} SameWire(t: Transfer, identify: Fragment -> Bytes, k: nat)
    requires t.Cuts() && k <= t.header.count && |t.header.transferId| == 16 && |identify(t.header)| == 16
    ensures Identified(t, identify).Cuts()
    ensures WireBytes(Identified(t, identify), k) == WireBytes(t, k)
  {
    hide Cut, Varint, UintField, Tag, Transfer.PacketLength;
    if k > 0 {
      SameWire(t, identify, k - 1);
      SameLengths(t, identify, k - 1);
    }
  }

  /** Total length of the encodings of the first k packets. */
  function Sent(t: Transfer, k: nat): nat
    requires t.Cuts() && k <= t.header.count
  {
    if k == 0 then 0 else Sent(t, k - 1) + |EncodePacket(t.PacketAt(k - 1))|
  }

  lemma {:induction false} SentIsWire(t: Transfer, k: nat)
    requires t.Cuts() && k <= t.header.count && t.terminal != [] && t.attachment != []
    ensures Sent(t, k) == WireBytes(t, k)
  {
    hide Cut, Varint, UintField, Tag, EncodePacket, Transfer.PacketLength, Transfer.PacketAt;
    if k > 0 {
      SentIsWire(t, k - 1);
      PacketLengthExact(t, k - 1);
    }
  }

  /**
    Everything that is promised of a sent transfer, about the bytes that actually leave: at most 128
    nonempty fragments that concatenate to the chosen encoding, each packet within the budget, all
    of them together smaller than the keyframe, and the working memory bound kept.
   */
  lemma TransferIsSound(d: Delta, budget: nat, keyframeBytes: nat, compressed: Option<Bytes>, digest: Bytes,
                        identify: Fragment -> Bytes, count: nat)
    requires Eligible(d, budget, compressed) && Smallest(d, compressed, digest, budget, count)
    requires WireBytes(Draft(d, compressed, digest, count), count) < keyframeBytes
    requires |identify(Draft(d, compressed, digest, count).header)| == 16
    ensures var t := Identified(Draft(d, compressed, digest, count), identify);
            && t.Cuts() && t.header.count == count <= MAX_FRAGMENTS
            && t.encoded == Choose(d.raw, compressed).1 && Joined(t, count) == t.encoded
            && (forall i :: 0 <= i < count ==> t.Data(i) != [] && |EncodePacket(t.PacketAt(i))| <= budget)
            && Sent(t, count) < keyframeBytes
            && 2 * |t.encoded| + |d.raw| + 1 <= MAX_WORKING_BYTES
  {
    hide Cut, Varint, UintField, Tag, EncodePacket, Transfer.PacketLength, Transfer.PacketAt, Transfer.Data;
    var p := Draft(d, compressed, digest, count);
    var t := Identified(p, identify);
    SameWire(p, identify, count);
    SentIsWire(t, count);
    FragmentsJoin(t, count);
    CutsAscend(0, count, |t.encoded|);
    forall i | 0 <= i < count ensures t.Data(i) != [] && |EncodePacket(t.PacketAt(i))| <= budget {
      SameLengths(p, identify, i);
      PacketLengthExact(t, i);
    }
  }
}
