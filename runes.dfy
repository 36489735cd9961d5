/**
  Go runes as the generator sees them.

  A Go `rune` is a 32-bit signed integer. The generator converts instruction
  operands (Go `int`) to runes with `rune(x)`, which keeps the low 32 bits, and
  writes runes to a `bytes.Buffer` with `WriteRune`, which writes U+FFFD for any
  value that is not a Unicode scalar value. The model keeps buffer contents as
  `string` (a sequence of Unicode scalar values), so `Written` is the character
  a rune turns into once written.
 */
module Runes {

  type Rune = int

  const MaxInt32: int := 0x7fff_ffff
  const MinInt32: int := -0x8000_0000

  /** `rune(x)`: the two's-complement truncation of `x` to 32 bits. */
  function RuneOf(x: int): (r: Rune)
    ensures MinInt32 <= r <= MaxInt32
    ensures (r - x) % 0x1_0000_0000 == 0
  {
    var m := x % 0x1_0000_0000;
    if m > MaxInt32 then m - 0x1_0000_0000 else m
  }

  /** A rune that already fits in 32 bits is left unchanged by `rune(x)`. */
  lemma RuneOfFits(x: int)
    requires MinInt32 <= x <= MaxInt32
    ensures RuneOf(x) == x
  {
    if x < 0 {
      assert x % 0x1_0000_0000 == x + 0x1_0000_0000;
    }
  }

  /** The values Go's UTF-8 encoder accepts: everything but negatives, surrogates and values above U+10FFFF. */
  predicate IsScalar(r: Rune)
  {
    (0 <= r < 0xD800) || (0xE000 <= r <= 0x10FFFF)
  }

  /** The character that `WriteRune(r)` puts into a buffer. */
  function Written(r: Rune): (c: char)
    ensures IsScalar(r) ==> c as int == r
    ensures !IsScalar(r) ==> c == '\U{FFFD}'
  {
    if IsScalar(r) then r as char else '\U{FFFD}'
  }

  /** What writing every rune of `rs` in order, one `WriteRune` each, adds to a buffer. */
  function WrittenAll(rs: seq<Rune>): (s: string)
    ensures |s| == |rs|
    ensures forall i :: 0 <= i < |rs| ==> s[i] == Written(rs[i])
  {
    if rs == [] then [] else WrittenAll(rs[..|rs| - 1]) + [Written(rs[|rs| - 1])]
  }

  /** Writing a concatenation is writing each part in turn. */
  lemma {:induction false} WrittenAllAppend(a: seq<Rune>, b: seq<Rune>)
    ensures WrittenAll(a + b) == WrittenAll(a) + WrittenAll(b)
  {
    if b != [] {
      WrittenAllAppend(a, b[..|b| - 1]);
      assert (a + b)[..|a + b| - 1] == a + b[..|b| - 1];
    } else {
      assert a + b == a;
    }
  }

  /** The runes of a Go string literal: every character is already a scalar value. */
  function RunesOf(s: string): (rs: seq<Rune>)
    ensures |rs| == |s|
    ensures forall i :: 0 <= i < |s| ==> rs[i] == s[i] as int && Written(rs[i]) == s[i]
  {
    seq(|s|, i requires 0 <= i < |s| => s[i] as int)
  }
}
