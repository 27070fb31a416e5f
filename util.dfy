/**
 * Byte-level helpers shared by the VR registry and the data element:
 * the byte type, an Option type, byte reversal, the byte-swap primitives
 * Swap16/Swap32/Swap64 and the resize of a byte vector.
 *
 * Swap16, Swap32 and Swap64 live in a header that is not part of this model;
 * they are modelled by their evident intent: reverse the 2, 4 or 8 bytes at
 * the start of the caller's storage, in place.
 */
module Util {

  type Byte = bv8
  type Bytes = seq<Byte>

  datatype Option<T> = None | Some(value: T)

  // ASCII codes used by the validators and the padding rules.
  const NUL: Byte := 0x00
  const SPACE: Byte := 0x20
  const PLUS: Byte := 0x2B
  const MINUS: Byte := 0x2D
  const UNDERSCORE: Byte := 0x5F

  /** The bytes of s in the opposite order. */
  function Reversed(s: Bytes): (r: Bytes)
    ensures |r| == |s|
    ensures forall i | 0 <= i < |s| :: r[i] == s[|s| - 1 - i]
  {
    seq(|s|, i requires 0 <= i < |s| => s[|s| - 1 - i])
  }

  /**
   * std::vector<char>::resize: keeps the first n bytes, or appends
   * value-initialised (zero) bytes up to n.
   */
  function Resize(b: Bytes, n: nat): (r: Bytes)
    ensures |r| == n
    ensures forall i | 0 <= i < n && i < |b| :: r[i] == b[i]
    ensures forall i | |b| <= i < n :: r[i] == NUL
  {
    if n <= |b| then b[..n] else b + seq(n - |b|, _ => NUL)
  }

  /**
   * b is a with its first n bytes reversed and the rest unchanged, stated
   * elementwise; ReversedPrefix turns it into the sequence form.
   */
  ghost predicate PrefixReversed(b: Bytes, a: Bytes, n: nat)
  {
    && |b| == |a| && n <= |a|
    && (forall i | 0 <= i < n :: b[i] == a[n - 1 - i])
    && (forall i | n <= i < |a| :: b[i] == a[i])
  }

  lemma ReversedPrefix(b: Bytes, a: Bytes, n: nat)
    requires PrefixReversed(b, a, n)
    ensures b == Reversed(a[..n]) + a[n..]
  {
    assert forall i | 0 <= i < |b| :: b[i] == (Reversed(a[..n]) + a[n..])[i];
  }

  /** Reverse the first two bytes of value in place. */
  method Swap16(value: array<Byte>)
    requires 2 <= value.Length
    modifies value
    ensures value[..] == Reversed(old(value[..2])) + old(value[2..])
  {
    value[0], value[1] := value[1], value[0];
  }

  /** Reverse the first four bytes of value in place. */
  method Swap32(value: array<Byte>)
    requires 4 <= value.Length
    modifies value
    ensures value[..] == Reversed(old(value[..4])) + old(value[4..])
  {
    ghost var before := value[..];
    var word := value[..4];
    forall i | 0 <= i < 4 {
      value[i] := word[4 - 1 - i];
    }
    ReversedPrefix(value[..], before, 4);
  }

  /** Reverse the first eight bytes of value in place. */
  method Swap64(value: array<Byte>)
    requires 8 <= value.Length
    modifies value
    ensures value[..] == Reversed(old(value[..8])) + old(value[8..])
  {
    ghost var before := value[..];
    var word := value[..8];
    forall i | 0 <= i < 8 {
      value[i] := word[8 - 1 - i];
    }
    ReversedPrefix(value[..], before, 8);
  }
}
