/** What several modules share: options, bytes, integer widths, identifiers and the compression rule. */
module Basics {
  datatype Option<+T> = None | Some(value: T)

  newtype byte = x: int | 0 <= x < 256
  type Bytes = seq<byte>

  const MAX_U32: nat := 0xffff_ffff
  const MAX_U64: nat := 0xffff_ffff_ffff_ffff

  function Min(a: nat, b: nat): nat {
    if a < b then a else b
  }

  /** The canonical text of a UUID: lower-case hexadecimal in groups of 8-4-4-4-12. */
  predicate CanonicalUuid(s: string) {
    && |s| == 36
    && forall i :: 0 <= i < 36 ==>
         if i == 8 || i == 13 || i == 18 || i == 23 then s[i] == '-'
         else '0' <= s[i] <= '9' || 'a' <= s[i] <= 'f'
  }

  const MIN_COMPRESSION_INPUT: nat := 1024
  const MIN_COMPRESSION_SAVING: nat := 64

  /** Compressing n bytes is worth while if it saves 64 bytes and five percent of them. */
  predicate Saves(n: nat, compressed: nat) {
    && n >= MIN_COMPRESSION_INPUT
    && compressed + (if MIN_COMPRESSION_SAVING < (n + 19) / 20 then (n + 19) / 20 else MIN_COMPRESSION_SAVING) <= n
  }
}
