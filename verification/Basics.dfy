/** Vocabulary shared by the models: optional values, bytes and the Rust integer bounds. */
module Basics {

  datatype Option<+T> = None | Some(value: T)

  datatype Result<+T, +E> = Ok(value: T) | Err(error: E)

  newtype byte = b: int | 0 <= b < 256

  type Bytes = seq<byte>

  /** The largest `u64`; `usize` is the same width on the provider's architectures. */
  const U64_MAX: nat := 0xFFFF_FFFF_FFFF_FFFF

  function Min(a: int, b: int): int {
    if a <= b then a else b
  }

  function Max(a: int, b: int): int {
    if a <= b then b else a
  }

  function SaturatingAdd(a: nat, b: nat): (sum: nat)
    ensures a <= U64_MAX && b <= U64_MAX ==> a <= sum && b <= sum
    ensures sum <= U64_MAX
  {
    if a + b > U64_MAX then U64_MAX else a + b
  }

  /** The numbers below `n`, in order. */
  function Upto(n: nat): seq<nat> {
    if n == 0 then [] else Upto(n - 1) + [n - 1]
  }

  lemma Fewer<T>(a: set<T>, b: set<T>)
    requires a <= b
    ensures |a| <= |b|
  {
    assert b == a + (b - a);
  }

  /** The control characters of Unicode. */
  predicate IsControl(c: char) {
    (c as int) < 0x20 || 0x7F <= c as int <= 0x9F
  }

  /** The number of bytes a character takes in UTF-8. */
  function Utf8Width(c: char): nat {
    if c as int < 0x80 then 1 else if c as int < 0x800 then 2 else if c as int < 0x1_0000 then 3 else 4
  }

  /** The length of a string in UTF-8 bytes, which is Rust's `len()`. */
  function Utf8Length(s: string): nat {
    if s == "" then 0 else Utf8Length(s[..|s| - 1]) + Utf8Width(s[|s| - 1])
  }

  lemma {:induction false} Utf8LengthOfConcat(s: string, t: string)
    ensures Utf8Length(s + t) == Utf8Length(s) + Utf8Length(t)
  {
    if t == "" {
      assert s + t == s;
    } else {
      assert (s + t)[..|s + t| - 1] == s + t[..|t| - 1];
      Utf8LengthOfConcat(s, t[..|t| - 1]);
    }
  }
}
