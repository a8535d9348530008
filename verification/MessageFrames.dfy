/**
  Length-prefixed message frames and their cancel-safe reader (src/protocol.rs).
  Message bodies are encoded by an abstract injective codec.
 */
module MessageFrames {
  import opened Basics

  const MAX_FRAME_SIZE: nat := 4194304
  const HEADER: nat := 4

  datatype Codec<!M> = Codec(encode: M -> Bytes, decode: Bytes -> Option<M>)

  ghost predicate Invertible<M(!new)>(c: Codec<M>) {
    forall m: M :: c.decode(c.encode(m)) == Some(m)
  }

  // ---------------------------------------------------------------- big-endian lengths

  function BigEndian(n: nat, k: nat): (b: Bytes)
    ensures |b| == k
  {
    if k == 0 then [] else BigEndian(n / 256, k - 1) + [(n % 256) as byte]
  }

  function Value(b: Bytes): nat {
    if b == [] then 0 else 256 * Value(b[..|b| - 1]) + b[|b| - 1] as nat
  }

  function Bound(k: nat): nat {
    if k == 0 then 1 else 256 * Bound(k - 1)
  }

  lemma {:induction false} BigEndianRoundTrip(n: nat, k: nat)
    requires n < Bound(k)
    ensures Value(BigEndian(n, k)) == n
  {
    if k > 0 {
      BigEndianRoundTrip(n / 256, k - 1);
      var b := BigEndian(n, k);
      assert b[..k - 1] == BigEndian(n / 256, k - 1);
    }
  }

  lemma LengthRoundTrip(n: nat)
    requires n <= MAX_FRAME_SIZE
    ensures Value(BigEndian(n, HEADER)) == n
  {
    assert Bound(4) == 256 * Bound(3) == 256 * 256 * Bound(2);
    assert Bound(2) == 256 * Bound(1) == 256 * 256 * Bound(0);
    BigEndianRoundTrip(n, HEADER);
  }

  // ---------------------------------------------------------------- writing

  function Frame(payload: Bytes): Bytes {
    BigEndian(|payload|, HEADER) + payload
  }

  /** `write_message`: an oversized message is refused before anything is written. */
  function WriteMessage<M>(c: Codec<M>, m: M): Option<Bytes> {
    if |c.encode(m)| > MAX_FRAME_SIZE then None else Some(Frame(c.encode(m)))
  }

  // ---------------------------------------------------------------- what a read means

  datatype Outcome<+M> = Cancelled | Message(message: M) | Undecodable | End | Truncated | Oversized

  function Limit(limit: nat): nat {
    if limit < MAX_FRAME_SIZE then limit else MAX_FRAME_SIZE
  }

  /** The outcome of an undisturbed read on the bytes that are still unread, and what it leaves. */
  function Next<M>(c: Codec<M>, unread: Bytes, limit: nat): (Outcome<M>, Bytes) {
    if unread == [] then (End, unread)
    else if |unread| < HEADER then (Truncated, unread)
    else
      var length := Value(unread[..HEADER]);
      if length > Limit(limit) then (Oversized, unread)
      else if |unread| < HEADER + length then (Truncated, unread)
      else
        var m := c.decode(unread[HEADER..HEADER + length]);
        (if m.Some? then Message(m.value) else Undecodable, unread[HEADER + length..])
  }

  lemma NextShort<M>(c: Codec<M>, unread: Bytes, limit: nat)
    requires |unread| < HEADER || (Value(unread[..HEADER]) <= Limit(limit)
        && |unread| < HEADER + Value(unread[..HEADER]))
    ensures Next(c, unread, limit) == (if unread == [] then End else Truncated, unread)
  {
  }

  lemma NextOversized<M>(c: Codec<M>, unread: Bytes, limit: nat)
    requires |unread| >= HEADER && Value(unread[..HEADER]) > Limit(limit)
    ensures Next(c, unread, limit) == (Oversized, unread)
  {
  }

  lemma NextFrame<M>(c: Codec<M>, header: Bytes, payload: Bytes, rest: Bytes, limit: nat)
    requires |header| == HEADER && |payload| == Value(header) <= Limit(limit)
    ensures var m := c.decode(payload);
            Next(c, header + payload + rest, limit) == (if m.Some? then Message(m.value) else Undecodable, rest)
  {
    var unread := header + payload + rest;
    assert unread[..HEADER] == header;
    assert unread[HEADER..HEADER + |payload|] == payload;
    assert unread[HEADER + |payload|..] == rest;
  }

  /** A read either was cancelled and consumed nothing, or had its undisturbed outcome. */
  ghost predicate Reads<M(!new)>(c: Codec<M>, unread: Bytes, limit: nat, r: Outcome<M>, unread': Bytes) {
    (r == Cancelled && unread' == unread) || (r, unread') == Next(c, unread, limit)
  }

  /**
    A byte stream that hands out its bytes in arbitrary pieces.  The script gives the size of each
    piece; a zero, or the end of the script, means that the read is cancelled at this point.
   */
  class ByteStream {
    var rest: Bytes
    var script: seq<nat>

    constructor (bytes: Bytes, pieces: seq<nat>)
      ensures rest == bytes && script == pieces
    {
      rest, script := bytes, pieces;
    }

    /** None: cancelled.  An empty piece means the end of the stream. */
    method Read(space: nat) returns (piece: Option<Bytes>)
      requires space > 0
      modifies this
      ensures piece.None? ==> rest == old(rest)
      ensures piece.Some? ==> piece.value + rest == old(rest) && |piece.value| <= space
      ensures piece.Some? ==> (piece.value == [] <==> old(rest) == [])
    {
      if script == [] || script[0] == 0 {
        script := if script == [] then [] else script[1..];
        return None;
      }
      var n := script[0];
      script := script[1..];
      n := if n > space then space else n;
      n := if n > |rest| then |rest| else n;
      piece := Some(rest[..n]);
      rest := rest[n..];
    }
  }

  datatype Progress = Filled | Stopped | Ended

  /** The parser keeps what it has consumed of the current frame across cancelled reads. */
  class MessageReader {
    const header: array<byte>
    var headerRead: nat
    var payload: Bytes
    var payloadRead: nat

    ghost predicate Valid()
      reads this, header
    {
      && header.Length == HEADER && headerRead <= HEADER
      && payloadRead <= |payload|
      && (headerRead < HEADER ==> payloadRead == 0 && payload == [])
      && (payload != [] ==> |payload| == Value(header[..]))
      && (payloadRead > 0 ==> headerRead == HEADER)
    }

    /** The consumed bytes of the current frame. */
    ghost function Consumed(): Bytes
      requires Valid()
      reads this, header
    {
      header[..headerRead] + payload[..payloadRead]
    }

    constructor ()
      ensures Valid() && Consumed() == [] && fresh(header)
    {
      header := new byte[HEADER];
      headerRead, payload, payloadRead := 0, [], 0;
    }

    /** Reads until the header is complete. */
    method ReadHeader(stream: ByteStream) returns (p: Progress)
      requires Valid()
      modifies this`headerRead, header, stream
      ensures Valid() && Consumed() + stream.rest == old(Consumed() + stream.rest)
      ensures p == Filled ==> headerRead == HEADER
      ensures p == Ended ==> headerRead < HEADER && stream.rest == []
    {
      ghost var unread := Consumed() + stream.rest;
      while headerRead < HEADER
        invariant Valid() && Consumed() + stream.rest == unread
        decreases HEADER - headerRead
      {
        var piece := stream.Read(HEADER - headerRead);
        if piece.None? {
          return Stopped;
        }
        if piece.value == [] {
          return Ended;
        }
        Fill(piece.value);
      }
      p := Filled;
    }

    /** Reads until the payload is complete. */
    method ReadPayload(stream: ByteStream) returns (p: Progress)
      requires Valid() && headerRead == HEADER && |payload| == Value(header[..])
      modifies this`payload, this`payloadRead, stream
      ensures Valid() && Consumed() + stream.rest == old(Consumed() + stream.rest)
      ensures |payload| == old(|payload|)
      ensures p == Filled ==> payloadRead == |payload|
      ensures p == Ended ==> payloadRead < |payload| && stream.rest == []
    {
      ghost var unread := Consumed() + stream.rest;
      while payloadRead < |payload|
        invariant Valid() && |payload| == old(|payload|) && Consumed() + stream.rest == unread
        decreases |payload| - payloadRead
      {
        ghost var before := payload[..payloadRead];
        var piece := stream.Read(|payload| - payloadRead);
        if piece.None? {
          return Stopped;
        }
        if piece.value == [] {
          return Ended;
        }
        payload := payload[..payloadRead] + piece.value + payload[payloadRead + |piece.value|..];
        payloadRead := payloadRead + |piece.value|;
        assert payload[..payloadRead] == before + piece.value;
      }
      p := Filled;
    }

    /**
      A cancelled read loses nothing; any other read is the undisturbed read of the consumed and
      the unread bytes together, however they arrive.
     */
    method ReadLimited<M(!new)>(c: Codec<M>, stream: ByteStream, limit: nat) returns (r: Outcome<M>)
      requires Valid()
      modifies this, header, stream
      ensures Valid()
      ensures Reads(c, old(Consumed() + stream.rest), limit, r, Consumed() + stream.rest)
    {
      hide Next, Value;
      ghost var unread := Consumed() + stream.rest;
      var p := ReadHeader(stream);
      if p == Stopped {
        return Cancelled;
      }
      if p == Ended {
        assert unread == header[..headerRead];
        NextShort(c, unread, limit);
        return if headerRead == 0 then End else Truncated;
      }
      var length := Value(header[..]);
      assert unread[..HEADER] == header[..];
      if length > Limit(limit) {
        NextOversized(c, unread, limit);
        return Oversized;
      }
      if |payload| < length {
        payload := payload + seq(length - |payload|, _ => 0 as byte);
      }
      assert Consumed() + stream.rest == unread;
      p := ReadPayload(stream);
      if p == Stopped {
        return Cancelled;
      }
      if p == Ended {
        assert |unread| == HEADER + payloadRead;
        NextShort(c, unread, limit);
        return Truncated;
      }
      var decoded := c.decode(payload);
      assert payload[..payloadRead] == payload && header[..headerRead] == header[..];
      assert unread == header[..] + payload + stream.rest;
      NextFrame(c, header[..], payload, stream.rest, limit);
      headerRead, payloadRead, payload := 0, 0, [];
      assert Consumed() + stream.rest == stream.rest;
      r := if decoded.Some? then Message(decoded.value) else Undecodable;
    }

    /** Copies a piece behind the header bytes read so far. */
    method Fill(piece: Bytes)
      requires Valid() && headerRead + |piece| <= HEADER && payload == [] && piece != []
      modifies this`headerRead, header
      ensures Valid() && headerRead == old(headerRead) + |piece|
      ensures header[..headerRead] == old(header[..headerRead]) + piece
    {
      var i := 0;
      while i < |piece|
        invariant i <= |piece|
        invariant header[..headerRead] == old(header[..headerRead])
        invariant header[headerRead..headerRead + i] == piece[..i]
        modifies header
      {
        header[headerRead + i] := piece[i];
        i := i + 1;
      }
      headerRead := headerRead + |piece|;
    }
  }

  // ---------------------------------------------------------------- whole conversations

  /** What a list of messages leaves on the stream; a refused message leaves nothing. */
  function WriteAll<M>(c: Codec<M>, ms: seq<M>): Bytes {
    if ms == [] then []
    else (match WriteMessage(c, ms[0]) case Some(frame) => frame case None => []) + WriteAll(c, ms[1..])
  }

  ghost predicate Writable<M(!new)>(c: Codec<M>, ms: seq<M>, limit: nat) {
    forall i :: 0 <= i < |ms| ==> |c.encode(ms[i])| <= Limit(limit)
  }

  /** A tail that is cut off inside a frame: part of a header, or a header whose payload is incomplete. */
  predicate CutOff(tail: Bytes, limit: nat) {
    && tail != []
    && (|tail| < HEADER || (Value(tail[..HEADER]) <= Limit(limit) && |tail| < HEADER + Value(tail[..HEADER])))
  }

  /** Successive reads: `unread[i]` is what is unread before call i. */
  ghost predicate Calls<M(!new)>(c: Codec<M>, limit: nat, unread: seq<Bytes>, rs: seq<Outcome<M>>) {
    && |unread| == |rs| + 1
    && forall i :: 0 <= i < |rs| ==> Reads(c, unread[i], limit, rs[i], unread[i + 1])
  }

  /** The answers that were not cancellations. */
  function Answers<M(==)>(rs: seq<Outcome<M>>): seq<Outcome<M>> {
    if rs == [] then []
    else Answers(rs[..|rs| - 1]) + (if rs[|rs| - 1].Cancelled? then [] else [rs[|rs| - 1]])
  }

  /** Answer k of a reader that gets the messages and then the tail. */
  function Expected<M>(ms: seq<M>, tail: Bytes, k: nat): Outcome<M> {
    if k < |ms| then Message(ms[k]) else if tail == [] then End else Truncated
  }

  /** What is unread after k answers. */
  function Left<M>(c: Codec<M>, ms: seq<M>, tail: Bytes, k: nat): Bytes {
    if k < |ms| then WriteAll(c, ms[k..]) + tail else tail
  }

  lemma NextAnswer<M(!new)>(c: Codec<M>, ms: seq<M>, tail: Bytes, limit: nat, k: nat)
    requires Invertible(c) && Writable(c, ms, limit) && (tail == [] || CutOff(tail, limit))
    ensures Next(c, Left(c, ms, tail, k), limit) == (Expected(ms, tail, k), Left(c, ms, tail, k + 1))
  {
    hide Next, Value, BigEndian;
    if k < |ms| {
      assert WriteMessage(c, ms[k]) == Some(Frame(c.encode(ms[k])));
      var payload := c.encode(ms[k]);
      LengthRoundTrip(|payload|);
      var rest := Left(c, ms, tail, k + 1);
      assert ms[k..][1..] == ms[k + 1..];
      if k + 1 == |ms| {
        assert ms[k + 1..] == [];
      }
      assert ms[k..][0] == ms[k];
      var h, others := BigEndian(|payload|, HEADER), WriteAll(c, ms[k + 1..]);
      assert WriteAll(c, ms[k..]) == h + payload + others;
      assert rest == others + tail;
      assert h + payload + others + tail == h + payload + (others + tail);
      NextFrame(c, BigEndian(|payload|, HEADER), payload, rest, limit);
    } else {
      NextShort(c, tail, limit);
    }
  }

  /**
    However the bytes are split and whichever reads are cancelled: the answers are exactly the written
    messages in order, then end of stream if the stream ends at a frame boundary and an error if it
    ends inside a frame.
   */
  lemma {:induction false} CancelSafe<M(!new)>(c: Codec<M>, ms: seq<M>, tail: Bytes, limit: nat, unread: seq<Bytes>,
                                               rs: seq<Outcome<M>>)
    requires Invertible(c) && Writable(c, ms, limit) && (tail == [] || CutOff(tail, limit))
    requires Calls(c, limit, unread, rs) && unread[0] == WriteAll(c, ms) + tail
    ensures unread[|rs|] == Left(c, ms, tail, |Answers(rs)|)
    ensures forall k :: 0 <= k < |Answers(rs)| ==> Answers(rs)[k] == Expected(ms, tail, k)
  {
    hide Next, Frame, CutOff, Invertible, WriteAll, Left, Expected;
    if rs == [] {
      NothingRead(c, ms, tail);
    } else {
      var n := |rs| - 1;
      CancelSafe(c, ms, tail, limit, unread[..|unread| - 1], rs[..n]);
      var k := |Answers(rs[..n])|;
      NextAnswer(c, ms, tail, limit, k);
      NotCancelled(c, unread[n], limit);
      assert Reads(c, unread[n], limit, rs[n], unread[n + 1]);
    }
  }

  lemma NothingRead<M>(c: Codec<M>, ms: seq<M>, tail: Bytes)
    ensures Left(c, ms, tail, 0) == WriteAll(c, ms) + tail
  {
    hide WriteMessage;
    assert ms[0..] == ms;
    assert [] + tail == tail;
  }

  lemma NotCancelled<M>(c: Codec<M>, unread: Bytes, limit: nat)
    ensures !Next(c, unread, limit).0.Cancelled?
  {
  }

  /** Every frame that is broken off before its end leaves such a tail. */
  lemma BrokenFrame(payload: Bytes, n: nat, limit: nat)
    requires |payload| <= Limit(limit) && 0 < n < |Frame(payload)|
    ensures CutOff(Frame(payload)[..n], limit)
  {
    hide Value, BigEndian;
    LengthRoundTrip(|payload|);
    var tail := Frame(payload)[..n];
    if n >= HEADER {
      assert tail[..HEADER] == BigEndian(|payload|, HEADER);
    }
  }
}
