/** Protocol Buffers wire format, as far as field lengths need it: base-128 varints and fields. */
module ProtobufWire {
  import opened Basics

  /** Seven bits per byte, least significant first, all but the last byte marked. */
  function Varint(n: nat): (b: Bytes)
    ensures b != []
  {
    if n < 128 then [n as byte] else [(n % 128 + 128) as byte] + Varint(n / 128)
  }

  const VARINT: nat := 0
  const DELIMITED: nat := 2

  function Tag(field: nat, wireType: nat): Bytes {
    Varint(8 * field + wireType)
  }

  /** A scalar field with the default value is omitted. */
  function UintField(field: nat, n: nat): Bytes {
    if n == 0 then [] else Tag(field, VARINT) + Varint(n)
  }

  function BytesField(field: nat, b: Bytes): Bytes {
    if b == [] then [] else MessageField(field, b)
  }

  /** A present message is written even if it is empty. */
  function MessageField(field: nat, b: Bytes): Bytes {
    Tag(field, DELIMITED) + Varint(|b|) + b
  }

  /** A boolean or enumeration is a scalar; `true` is one. */
  function BoolField(field: nat, b: bool): Bytes {
    UintField(field, if b then 1 else 0)
  }

  /** Text as bytes: in this model the characters of a string are its UTF-8 bytes. */
  function Text(s: string): (b: Bytes)
    ensures |b| == |s|
  {
    seq(|s|, i requires 0 <= i < |s| => (s[i] as int % 256) as byte)
  }

  /** The first number that needs more than k bytes. */
  function Capacity(k: nat): nat {
    if k == 0 then 1 else 128 * Capacity(k - 1)
  }

  lemma {:induction false} VarintAtMost(n: nat, k: nat)
    requires k > 0 && n < Capacity(k)
    ensures |Varint(n)| <= k
  {
    if k > 1 && n >= 128 {
      VarintAtMost(n / 128, k - 1);
    }
  }

  /** How many bytes numbers of the usual ranges take. */
  lemma VarintSizes(n: nat)
    ensures n < 128 ==> |Varint(n)| == 1
    ensures n < 16384 ==> |Varint(n)| <= 2
    ensures n < 2097152 ==> |Varint(n)| <= 3
    ensures n < 268435456 ==> |Varint(n)| <= 4
    ensures n < 34359738368 ==> |Varint(n)| <= 5
    ensures n <= 0xffff_ffff_ffff_ffff ==> |Varint(n)| <= 10
  {
    hide Varint;
    assert Capacity(1) == 128 && Capacity(2) == 16384 by { assert Capacity(0) == 1; }
    assert Capacity(3) == 2097152 && Capacity(4) == 268435456;
    assert Capacity(5) == 34359738368 && Capacity(6) == 4398046511104;
    assert Capacity(8) == 128 * 128 * Capacity(6) && Capacity(10) == 128 * 128 * Capacity(8);
    if n < 128 { OneByte(n); }
    if n < 16384 { VarintAtMost(n, 2); }
    if n < 2097152 { VarintAtMost(n, 3); }
    if n < 268435456 { VarintAtMost(n, 4); }
    if n < 34359738368 { VarintAtMost(n, 5); }
    if n <= 0xffff_ffff_ffff_ffff { VarintAtMost(n, 10); }
  }

  lemma OneByte(n: nat)
    requires n < 128
    ensures |Varint(n)| == 1
  {
  }

  /** Exact field lengths for fields below sixteen. */
  lemma FieldSizes(field: nat, n: nat, b: Bytes)
    requires field < 16
    ensures |UintField(field, n)| == if n == 0 then 0 else 1 + |Varint(n)|
    ensures |MessageField(field, b)| == 1 + |Varint(|b|)| + |b|
    ensures |BytesField(field, b)| == if b == [] then 0 else 1 + |Varint(|b|)| + |b|
  {
    hide Varint, Tag;
    ShortTag(field, VARINT);
    ShortTag(field, DELIMITED);
  }

  lemma ShortTag(field: nat, wireType: nat)
    requires field < 16 && wireType < 8
    ensures |Tag(field, wireType)| == 1
  {
  }

  /** `varint_len`: counts the bytes without writing them. */
  method VarintLength(n: nat) returns (length: nat)
    ensures length == |Varint(n)|
  {
    length := 1;
    var value := n;
    while value >= 128
      invariant length + |Varint(value)| == |Varint(n)| + 1
    {
      value := value / 128;
      length := length + 1;
    }
  }
}
