/**
  Keyframes and history pages on the reliable stream: optional compression
  (src/compression.rs), splitting into chunks (src/server.rs) and reassembly
  (src/terminal_streaming.rs).  Compression is an abstract codec and SHA-256 an
  uninterpreted function.
 */
module ReliableTransfer {
  import opened Basics

  const CHUNK_BYTES: nat := 524288
  const MAX_TRANSFER_CHUNKS: nat := 4096
  const MAX_ENCODED_STATE_BYTES: nat := 8388608
  const RAW: nat := 0
  const ZSTD: nat := 1

  datatype Codec = Codec(compress: Bytes -> Bytes, decompress: Bytes -> Option<Bytes>, digest: Bytes -> Bytes)

  /** Decompression undoes compression, and digests have 32 bytes. */
  ghost predicate Sound(c: Codec) {
    (forall b :: c.decompress(c.compress(b)) == Some(b)) && (forall b :: |c.digest(b)| == 32)
  }

  // ---------------------------------------------------------------- payload encoding

  datatype Payload = Payload(data: Bytes, encoding: nat, uncompressedSize: nat)

  function Encode(c: Codec, data: Bytes, enabled: bool, maximum: nat): Option<Payload> {
    if |data| > maximum then None
    else if enabled && Saves(|data|, |c.compress(data)|)
    then Some(Payload(c.compress(data), ZSTD, |data|))
    else Some(Payload(data, RAW, 0))
  }

  predicate ValidHeader(encoding: nat, uncompressedSize: nat, wireSize: nat, enabled: bool, maximum: nat) {
    && wireSize <= maximum
    && (if encoding == RAW then uncompressedSize == 0
        else encoding == ZSTD && enabled && 0 < uncompressedSize <= maximum)
  }

  function Decode(c: Codec, p: Payload, enabled: bool, maximum: nat, sha256: Bytes): Option<Bytes> {
    if |sha256| != 32 || !ValidHeader(p.encoding, p.uncompressedSize, |p.data|, enabled, maximum) then None
    else
      var data := if p.encoding == RAW then Some(p.data) else c.decompress(p.data);
      if data.None? || (p.encoding == ZSTD && |data.value| != p.uncompressedSize) then None
      else if c.digest(data.value) != sha256 then None
      else data
  }

  /** What is encoded decodes to itself, compressed or not, and never grows. */
  lemma PayloadRoundTrip(c: Codec, data: Bytes, enabled: bool, maximum: nat)
    requires Sound(c) && |data| <= maximum
    ensures var p := Encode(c, data, enabled, maximum);
            && p.Some? && |p.value.data| <= |data|
            && ValidHeader(p.value.encoding, p.value.uncompressedSize, |p.value.data|, enabled, maximum)
            && Decode(c, p.value, enabled, maximum, c.digest(data)) == Some(data)
  {
  }

  // ---------------------------------------------------------------- chunks

  datatype Chunk = Chunk(transferId: Bytes, index: nat, count: nat, totalSize: nat, sha256: Bytes, data: Bytes,
                         encoding: nat, uncompressedSize: nat)

  function ChunkCount(total: nat): nat {
    ((if total == 0 then 1 else total) + CHUNK_BYTES - 1) / CHUNK_BYTES
  }

  /** Start of chunk i, which is also the end of the chunk before. */
  function Edge(i: nat, total: nat): nat {
    if i * CHUNK_BYTES < total then i * CHUNK_BYTES else total
  }

  function ChunkAt(p: Payload, transferId: Bytes, sha256: Bytes, i: nat): Chunk {
    Chunk(transferId, i, ChunkCount(|p.data|), |p.data|, sha256, p.data[Edge(i, |p.data|)..Edge(i + 1, |p.data|)],
          p.encoding, p.uncompressedSize)
  }

  method Split(p: Payload, transferId: Bytes, sha256: Bytes) returns (chunks: seq<Chunk>)
    ensures |chunks| == ChunkCount(|p.data|)
    ensures forall i :: 0 <= i < |chunks| ==> chunks[i] == ChunkAt(p, transferId, sha256, i)
  {
    var count := ChunkCount(|p.data|);
    chunks := [];
    while |chunks| < count
      invariant |chunks| <= count
      invariant forall i :: 0 <= i < |chunks| ==> chunks[i] == ChunkAt(p, transferId, sha256, i)
    {
      var i := |chunks|;
      var start := i * CHUNK_BYTES;
      var end := if start + CHUNK_BYTES < |p.data| then start + CHUNK_BYTES else |p.data|;
      chunks := chunks + [Chunk(transferId, i, count, |p.data|, sha256, p.data[start..end], p.encoding,
          p.uncompressedSize)];
    }
  }

  // ---------------------------------------------------------------- reassembly

  datatype Pending = Pending(transferId: Bytes, totalSize: nat, sha256: Bytes, chunks: seq<Option<Bytes>>,
                             receivedSize: nat, receivedChunks: nat, encoding: nat, uncompressedSize: nat)

  datatype Result = Waiting | Complete(data: Bytes) | Failed

  predicate Acceptable(k: Chunk, enabled: bool, maximum: nat) {
    && |k.transferId| == 16 && |k.sha256| == 32
    && 1 <= k.count <= MAX_TRANSFER_CHUNKS && k.index < k.count && k.totalSize <= maximum
    && ValidHeader(k.encoding, k.uncompressedSize, k.totalSize, enabled, maximum)
  }

  predicate Matches(p: Pending, k: Chunk) {
    && p.transferId == k.transferId && p.totalSize == k.totalSize && p.sha256 == k.sha256
    && p.encoding == k.encoding && p.uncompressedSize == k.uncompressedSize && |p.chunks| == k.count
  }

  function Opened(k: Chunk): Pending {
    Pending(k.transferId, k.totalSize, k.sha256, seq(k.count, _ => None), 0, 0, k.encoding, k.uncompressedSize)
  }

  function Concat(chunks: seq<Option<Bytes>>): Bytes {
    if chunks == [] then []
    else Concat(chunks[..|chunks| - 1]) + (if chunks[|chunks| - 1].Some? then chunks[|chunks| - 1].value else [])
  }

  function Pushed(c: Codec, pending: Option<Pending>, k: Chunk, enabled: bool, maximum: nat): (Option<Pending>,
      Result) {
    if !Acceptable(k, enabled, maximum) then (pending, Failed)
    else if pending.Some? && pending.value.transferId != k.transferId then (pending, Failed)
    else if pending.None? && k.index != 0 then (pending, Failed)
    else
      var p := if pending.Some? then pending.value else Opened(k);
      if !Matches(p, k) then (Some(p), Failed)
      else if p.chunks[k.index].Some? then (Some(p), if p.chunks[k.index].value == k.data then Waiting else Failed)
      else Store(c, p, k, enabled, maximum)
  }

  function Store(c: Codec, p: Pending, k: Chunk, enabled: bool, maximum: nat): (Option<Pending>, Result)
    requires k.index < |p.chunks|
  {
    var size := p.receivedSize + |k.data|;
    if size > p.totalSize then (Some(p.(receivedSize := size)), Failed)
    else
      var p' := p.(receivedSize := size, receivedChunks := p.receivedChunks + 1,
          chunks := p.chunks[k.index := Some(k.data)]);
      if p'.receivedChunks != |p'.chunks| then (Some(p'), Waiting)
      else if |Concat(p'.chunks)| != p'.totalSize || (exists i :: 0 <= i < |p'.chunks| && p'.chunks[i].None?) then
        (None, Failed)
      else
        var data := Decode(c, Payload(Concat(p'.chunks), p'.encoding, p'.uncompressedSize), enabled, maximum,
            p'.sha256);
        (None, if data.Some? then Complete(data.value) else Failed)
  }

  class TransferAssembler {
    var pending: Option<Pending>
    const enabled: bool

    constructor (zstd: bool)
      ensures pending == None && enabled == zstd
    {
      pending, enabled := None, zstd;
    }

    method Push(c: Codec, k: Chunk, maximum: nat) returns (r: Result)
      modifies this
      ensures (pending, r) == Pushed(c, old(pending), k, enabled, maximum)
    {
      hide Decode, Concat, ValidHeader;
      if |k.transferId| != 16 || |k.sha256| != 32 { return Failed; }
      if k.count < 1 || k.count > MAX_TRANSFER_CHUNKS || k.index >= k.count { return Failed; }
      if k.totalSize > maximum { return Failed; }
      if !ValidHeader(k.encoding, k.uncompressedSize, k.totalSize, enabled, maximum) { return Failed; }
      if pending.Some? {
        if pending.value.transferId != k.transferId { return Failed; }
      } else {
        if k.index != 0 { return Failed; }
        pending := Some(Opened(k));
      }
      var p := pending.value;
      if !Matches(p, k) { return Failed; }
      if p.chunks[k.index].Some? {
        if p.chunks[k.index].value != k.data { return Failed; }
        return Waiting;
      }
      p := p.(receivedSize := p.receivedSize + |k.data|);
      pending := Some(p);
      if p.receivedSize > p.totalSize { return Failed; }
      p := p.(receivedChunks := p.receivedChunks + 1, chunks := p.chunks[k.index := Some(k.data)]);
      pending := Some(p);
      if p.receivedChunks != |p.chunks| { return Waiting; }
      pending := None;
      var encoded := Join(p.chunks);
      if encoded.None? || |encoded.value| != p.totalSize { return Failed; }
      var data := Decode(c, Payload(encoded.value, p.encoding, p.uncompressedSize), enabled, maximum, p.sha256);
      r := if data.Some? then Complete(data.value) else Failed;
    }
  }

  /** All chunks in order, or None if one is missing. */
  method Join(chunks: seq<Option<Bytes>>) returns (encoded: Option<Bytes>)
    ensures encoded.None? <==> exists i :: 0 <= i < |chunks| && chunks[i].None?
    ensures encoded.Some? ==> encoded.value == Concat(chunks)
  {
    var joined: Bytes := [];
    var i := 0;
    while i < |chunks|
      invariant i <= |chunks|
      invariant forall j :: 0 <= j < i ==> chunks[j].Some?
      invariant joined == Concat(chunks[..i])
    {
      if chunks[i].None? { return None; }
      joined := joined + chunks[i].value;
      assert chunks[..i + 1][..i] == chunks[..i];
      i := i + 1;
    }
    assert chunks[..i] == chunks;
    encoded := Some(joined);
  }

  // ---------------------------------------------------------------- accounting

  function SizeOf(chunks: seq<Option<Bytes>>): nat {
    if chunks == [] then 0
    else SizeOf(chunks[..|chunks| - 1]) + (if chunks[|chunks| - 1].Some? then |chunks[|chunks| - 1].value| else 0)
  }

  function CountOf(chunks: seq<Option<Bytes>>): nat {
    if chunks == [] then 0
    else CountOf(chunks[..|chunks| - 1]) + (if chunks[|chunks| - 1].Some? then 1 else 0)
  }

  lemma {:induction false} FillOne(chunks: seq<Option<Bytes>>, i: nat, data: Bytes)
    requires i < |chunks| && chunks[i].None?
    ensures SizeOf(chunks[i := Some(data)]) == SizeOf(chunks) + |data|
    ensures CountOf(chunks[i := Some(data)]) == CountOf(chunks) + 1
  {
    var n := |chunks| - 1;
    if i == n {
      assert chunks[i := Some(data)][..n] == chunks[..n];
    } else {
      FillOne(chunks[..n], i, data);
      assert chunks[i := Some(data)][..n] == chunks[..n][i := Some(data)];
    }
  }

  lemma {:induction false} CountAll(chunks: seq<Option<Bytes>>)
    ensures CountOf(chunks) <= |chunks|
    ensures CountOf(chunks) == |chunks| <==> forall i :: 0 <= i < |chunks| ==> chunks[i].Some?
    ensures |Concat(chunks)| == SizeOf(chunks)
  {
    if chunks != [] {
      var n := |chunks| - 1;
      CountAll(chunks[..n]);
      assert forall i :: 0 <= i < n ==> chunks[..n][i] == chunks[i];
    }
  }

  lemma {:induction false} NothingYet(n: nat)
    ensures var chunks: seq<Option<Bytes>> := seq(n, _ => None); SizeOf(chunks) == 0 && CountOf(chunks) == 0
  {
    if n > 0 {
      NothingYet(n - 1);
      var chunks: seq<Option<Bytes>> := seq(n, _ => None);
      assert chunks[..n - 1] == seq(n - 1, _ => None);
    }
  }

  /** The counters say what has been stored, and the transfer is not yet complete. */
  predicate PendingOk(p: Pending, maximum: nat) {
    && p.receivedSize == SizeOf(p.chunks) <= p.totalSize <= maximum
    && p.receivedChunks == CountOf(p.chunks) < |p.chunks| <= MAX_TRANSFER_CHUNKS
  }

  /** The chunk that makes a transfer longer than declared. */
  predicate Exceeds(pending: Option<Pending>, k: Chunk) {
    var p := if pending.Some? then pending.value else Opened(k);
    && (pending.None? ==> k.index == 0)
    && Matches(p, k) && k.index < |p.chunks| && p.chunks[k.index].None? && p.receivedSize + |k.data| > p.totalSize
  }

  /**
    Any chunk, honest or not: the accounting stays right exactly unless an acceptable chunk makes the
    transfer longer than it declared, and whatever is published has the announced digest and obeys
    the size limit.
   */
  lemma PushKeepsAccounts(c: Codec, pending: Option<Pending>, k: Chunk, enabled: bool, maximum: nat)
    requires pending.Some? ==> PendingOk(pending.value, maximum)
    ensures var (pending', r) := Pushed(c, pending, k, enabled, maximum);
            && ((pending'.Some? ==> PendingOk(pending'.value, maximum))
                <==> !(Acceptable(k, enabled, maximum) && Exceeds(pending, k)))
            && (r.Complete? ==>
                  && pending'.None? && c.digest(r.data) == k.sha256
                  && (k.encoding == RAW ==> |r.data| == k.totalSize) && |r.data| <= maximum)
  {
    hide Decode, SizeOf, CountOf, Concat;
    if Acceptable(k, enabled, maximum) && (pending.None? ==> k.index == 0) {
      NothingYet(k.count);
      CountAll(seq(k.count, _ => None));
      var p := if pending.Some? then pending.value else Opened(k);
      if Matches(p, k) && p.chunks[k.index].None? {
        FillOne(p.chunks, k.index, k.data);
        var full := p.chunks[k.index := Some(k.data)];
        CountAll(full);
        Decoded(c, Payload(Concat(full), p.encoding, p.uncompressedSize), enabled, maximum, p.sha256);
      }
    }
  }

  lemma Decoded(c: Codec, p: Payload, enabled: bool, maximum: nat, sha256: Bytes)
    ensures var d := Decode(c, p, enabled, maximum, sha256);
            d.Some? ==> c.digest(d.value) == sha256 && |d.value| <= maximum && (p.encoding == RAW ==> d.value == p.data)
  {
  }

  /** A first chunk that is longer than the transfer it announces. */
  function LongChunk(): Chunk {
    Chunk(seq(16, _ => 0 as byte), 0, 2, 0, seq(32, _ => 0 as byte), [0 as byte], RAW, 0)
  }

  /** It is acceptable, it is refused, and it leaves a transfer that counts a byte it does not hold. */
  lemma LongChunkSpoils(c: Codec, enabled: bool, maximum: nat)
    ensures Acceptable(LongChunk(), enabled, maximum) && Exceeds(None, LongChunk())
    ensures var (pending, r) := Pushed(c, None, LongChunk(), enabled, maximum);
            && r == Failed && pending.Some? && Spoiled(pending.value) && !PendingOk(pending.value, maximum)
  {
    NothingYet(2);
  }

  /** The count is beyond the declared size. */
  predicate Spoiled(p: Pending) {
    p.receivedSize > p.totalSize
  }

  /** The chunk repeats one that is stored, metadata included. */
  predicate Repeats(p: Pending, k: Chunk) {
    Matches(p, k) && k.index < |p.chunks| && p.chunks[k.index] == Some(k.data)
  }

  lemma SpoiledStays(c: Codec, p: Pending, k: Chunk, enabled: bool, maximum: nat)
    requires Spoiled(p)
    ensures var (pending, r) := Pushed(c, Some(p), k, enabled, maximum);
            && pending.Some? && Spoiled(pending.value)
            && pending.value.transferId == p.transferId && pending.value.chunks == p.chunks
            && (if Acceptable(k, enabled, maximum) && Repeats(p, k) then r == Waiting else r == Failed)
            && (k.transferId != p.transferId ==> r == Failed && pending.value == p)
  {
    hide Decode, ValidHeader;
  }

  /** The assembler and all its answers to a list of chunks. */
  function PushAll(c: Codec, pending: Option<Pending>, ks: seq<Chunk>, enabled: bool, maximum: nat):
    (Option<Pending>, seq<Result>)
  {
    if ks == [] then (pending, [])
    else
      var (before, rs) := PushAll(c, pending, ks[..|ks| - 1], enabled, maximum);
      var (after, r) := Pushed(c, before, ks[|ks| - 1], enabled, maximum);
      (after, rs + [r])
  }

  /**
    After the chunk that exceeds the declared size the assembler is of no more use: whatever arrives,
    nothing is ever published, every chunk of another transfer is refused, and of this transfer only
    repetitions of stored chunks are tolerated.
   */
  lemma {:induction false} SpoiledForEver(c: Codec, p: Pending, ks: seq<Chunk>, enabled: bool, maximum: nat)
    requires Spoiled(p)
    ensures var (pending, rs) := PushAll(c, Some(p), ks, enabled, maximum);
            && pending.Some? && Spoiled(pending.value)
            && pending.value.transferId == p.transferId && pending.value.chunks == p.chunks
            && |rs| == |ks|
            && (forall i :: 0 <= i < |rs| ==> !rs[i].Complete?)
            && (forall i :: 0 <= i < |rs| && ks[i].transferId != p.transferId ==> rs[i] == Failed)
            && (forall i :: 0 <= i < |rs| && rs[i] == Waiting ==>
                  ks[i].index < |p.chunks| && p.chunks[ks[i].index] == Some(ks[i].data))
  {
    hide Pushed, Acceptable, Matches;
    if ks != [] {
      var n := |ks| - 1;
      SpoiledForEver(c, p, ks[..n], enabled, maximum);
      var (before, rs) := PushAll(c, Some(p), ks[..n], enabled, maximum);
      SpoiledStays(c, before.value, ks[n], enabled, maximum);
      assert forall i :: 0 <= i < n ==> ks[..n][i] == ks[i];
    }
  }

  // ---------------------------------------------------------------- any order of delivery

  lemma Edges(total: nat, maximum: nat)
    requires total <= maximum <= MAX_ENCODED_STATE_BYTES
    ensures 1 <= ChunkCount(total) <= MAX_TRANSFER_CHUNKS
    ensures Edge(ChunkCount(total), total) == total && Edge(0, total) == 0
  {
  }

  function Piece(p: Payload, i: nat): Bytes {
    p.data[Edge(i, |p.data|)..Edge(i + 1, |p.data|)]
  }

  /** The chunk table once the given indices have arrived. */
  function Arrived(p: Payload, order: seq<nat>, n: nat): (chunks: seq<Option<Bytes>>)
    ensures |chunks| == n
  {
    seq(n, i requires 0 <= i < n => if i in order then Some(Piece(p, i)) else None)
  }

  predicate Covers(order: seq<nat>, n: nat) {
    forall i :: 0 <= i < n ==> i in order
  }

  lemma ArrivedGrows(p: Payload, order: seq<nat>, n: nat)
    ensures Arrived(p, order, n + 1) == Arrived(p, order, n) + [if n in order then Some(Piece(p, n)) else None]
  {
    hide Piece;
  }

  lemma OneMoreChunk(chunks: seq<Option<Bytes>>, last: Option<Bytes>)
    ensures SizeOf(chunks + [last]) == SizeOf(chunks) + if last.Some? then |last.value| else 0
    ensures Concat(chunks + [last]) == Concat(chunks) + if last.Some? then last.value else []
  {
    assert (chunks + [last])[..|chunks|] == chunks;
  }

  lemma PieceJoins(p: Payload, i: nat)
    ensures Edge(i, |p.data|) <= Edge(i + 1, |p.data|) <= |p.data| && Edge(0, |p.data|) == 0
    ensures |Piece(p, i)| == Edge(i + 1, |p.data|) - Edge(i, |p.data|)
    ensures p.data[..Edge(i, |p.data|)] + Piece(p, i) == p.data[..Edge(i + 1, |p.data|)]
  {
  }

  /** What has arrived never exceeds the payload, and everything together is the payload. */
  lemma {:induction false} ArrivedFits(p: Payload, order: seq<nat>, n: nat)
    ensures SizeOf(Arrived(p, order, n)) <= Edge(n, |p.data|)
    ensures Covers(order, n) ==> Concat(Arrived(p, order, n)) == p.data[..Edge(n, |p.data|)]
  {
    hide Arrived, Edge, Piece, SizeOf, Concat;
    if n == 0 {
      NothingArrived(p, order);
    } else {
      ArrivedFits(p, order, n - 1);
      ArrivedGrows(p, order, n - 1);
      OneMoreChunk(Arrived(p, order, n - 1), if n - 1 in order then Some(Piece(p, n - 1)) else None);
      PieceJoins(p, n - 1);
    }
  }

  lemma NothingArrived(p: Payload, order: seq<nat>)
    ensures SizeOf(Arrived(p, order, 0)) == 0 == Edge(0, |p.data|) && Concat(Arrived(p, order, 0)) == []
  {
    assert Arrived(p, order, 0) == [];
  }

  lemma CoveredIsFull(p: Payload, order: seq<nat>, n: nat)
    ensures Covers(order, n) <==> forall i :: 0 <= i < n ==> Arrived(p, order, n)[i].Some?
  {
    var chunks := Arrived(p, order, n);
    if forall i :: 0 <= i < n ==> chunks[i].Some? {
      forall i | 0 <= i < n ensures i in order {
        assert chunks[i].Some?;
      }
    }
  }

  lemma CoversMore(order: seq<nat>, k: nat, n: nat)
    requires k <= |order| && Covers(order[..k], n)
    ensures Covers(order, n)
  {
    forall i | 0 <= i < n ensures i in order {
      assert i in order[..k];
    }
  }

  function PendingFor(p: Payload, transferId: Bytes, sha256: Bytes, order: seq<nat>): Pending {
    var chunks := Arrived(p, order, ChunkCount(|p.data|));
    Pending(transferId, |p.data|, sha256, chunks, SizeOf(chunks), CountOf(chunks), p.encoding, p.uncompressedSize)
  }

  /** The assembler and its last answer after pushing the chunks in the given order. */
  function Deliver(c: Codec, p: Payload, transferId: Bytes, sha256: Bytes, order: seq<nat>, enabled: bool,
      maximum: nat):
    (Option<Pending>, Result)
  {
    if order == [] then (None, Waiting)
    else
      var before := Deliver(c, p, transferId, sha256, order[..|order| - 1], enabled, maximum).0;
      Pushed(c, before, ChunkAt(p, transferId, sha256, order[|order| - 1]), enabled, maximum)
  }

  /** One more chunk, new or repeated, for a transfer that is not complete. */
  lemma DeliverOne(c: Codec, p: Payload, transferId: Bytes, sha256: Bytes, order: seq<nat>, enabled: bool, maximum: nat)
    requires |transferId| == 16 && |sha256| == 32 && |p.data| <= maximum <= MAX_ENCODED_STATE_BYTES
    requires ValidHeader(p.encoding, p.uncompressedSize, |p.data|, enabled, maximum)
    requires order != [] && order[|order| - 1] < ChunkCount(|p.data|)
    ensures var n := ChunkCount(|p.data|);
            var r := Pushed(c, Some(PendingFor(p, transferId, sha256, order[..|order| - 1])),
                            ChunkAt(p, transferId, sha256, order[|order| - 1]), enabled, maximum);
            !Covers(order[..|order| - 1], n) ==>
              if Covers(order, n)
              then r == (None, match Decode(c, p, enabled, maximum,
                  sha256) case Some(d) => Complete(d) case None => Failed)
              else r == (Some(PendingFor(p, transferId, sha256, order)), Waiting)
  {
    hide Decode, SizeOf, CountOf, Concat, ChunkCount, Edge;
    var n := ChunkCount(|p.data|);
    Edges(|p.data|, maximum);
    var fore, j := order[..|order| - 1], order[|order| - 1];
    var chunks, chunks' := Arrived(p, fore, n), Arrived(p, order, n);
    assert forall i :: 0 <= i < n ==> (i in order <==> i in fore || i == j);
    CountAll(chunks');
    ArrivedFits(p, order, n);
    if j in fore {
      assert chunks' == chunks;
      assert Covers(order, n) ==> Covers(fore, n);
    } else {
      FillOne(chunks, j, Piece(p, j));
      assert chunks' == chunks[j := Some(Piece(p, j))];
      CoveredIsFull(p, order, n);
      assert p.data[..|p.data|] == p.data;
    }
  }

  /** The first chunk opens the transfer with an empty table. */
  lemma OpensEmpty(c: Codec, p: Payload, transferId: Bytes, sha256: Bytes, enabled: bool, maximum: nat)
    requires |transferId| == 16 && |sha256| == 32 && |p.data| <= maximum <= MAX_ENCODED_STATE_BYTES
    requires ValidHeader(p.encoding, p.uncompressedSize, |p.data|, enabled, maximum)
    ensures var k := ChunkAt(p, transferId, sha256, 0);
            Pushed(c, None, k, enabled, maximum) == Pushed(c, Some(PendingFor(p, transferId, sha256, [])), k,
                enabled, maximum)
  {
    hide Decode, Store, ChunkCount, Edge;
    Edges(|p.data|, maximum);
    NothingYet(ChunkCount(|p.data|));
    assert Arrived(p, [], ChunkCount(|p.data|)) == seq(ChunkCount(|p.data|), _ => None);
  }

  lemma {:induction false} DeliverAny(c: Codec, p: Payload, transferId: Bytes, sha256: Bytes, order: seq<nat>,
                                      enabled: bool, maximum: nat)
    requires |transferId| == 16 && |sha256| == 32 && |p.data| <= maximum <= MAX_ENCODED_STATE_BYTES
    requires ValidHeader(p.encoding, p.uncompressedSize, |p.data|, enabled, maximum)
    requires order != [] && order[0] == 0 && forall i :: 0 <= i < |order| ==> order[i] < ChunkCount(|p.data|)
    requires !Covers(order[..|order| - 1], ChunkCount(|p.data|))
    ensures Deliver(c, p, transferId, sha256, order, enabled, maximum)
            == if Covers(order, ChunkCount(|p.data|))
               then (None, match Decode(c, p, enabled, maximum, sha256) case Some(d) => Complete(d) case None => Failed)
               else (Some(PendingFor(p, transferId, sha256, order)), Waiting)
  {
    hide Decode, Pushed, PendingFor, ChunkCount, Edge, ChunkAt;
    DeliverOne(c, p, transferId, sha256, order, enabled, maximum);
    if |order| == 1 {
      OpensEmpty(c, p, transferId, sha256, enabled, maximum);
      assert order[..0] == [];
    } else {
      var fore := order[..|order| - 1];
      if Covers(fore[..|fore| - 1], ChunkCount(|p.data|)) {
        CoversMore(fore, |fore| - 1, ChunkCount(|p.data|));
      }
      DeliverAny(c, p, transferId, sha256, fore, enabled, maximum);
    }
  }

  /**
    Every payload within the limit, chunked and delivered with chunk zero first and the others in any
    order with any repetitions: nothing is published before the last distinct chunk, and that chunk
    publishes exactly the original bytes.
   */
  lemma TransferRoundTrip(c: Codec, data: Bytes, transferId: Bytes, order: seq<nat>, enabled: bool, maximum: nat)
    requires Sound(c) && |data| <= maximum <= MAX_ENCODED_STATE_BYTES && |transferId| == 16
    requires order != [] && order[0] == 0
    requires var p := Encode(c, data, enabled, maximum).value;
             && (forall i :: 0 <= i < |order| ==> order[i] < ChunkCount(|p.data|))
             && !Covers(order[..|order| - 1], ChunkCount(|p.data|))
    ensures var p := Encode(c, data, enabled, maximum).value;
            var r := Deliver(c, p, transferId, c.digest(data), order, enabled, maximum);
            if Covers(order, ChunkCount(|p.data|)) then r == (None, Complete(data)) else r.1 == Waiting && r.0.Some?
  {
    hide Decode, Encode, Deliver, ChunkCount;
    PayloadRoundTrip(c, data, enabled, maximum);
    var p := Encode(c, data, enabled, maximum).value;
    DeliverAny(c, p, transferId, c.digest(data), order, enabled, maximum);
  }
}
