/**
  The instruction set of a compiled regexp2 program and the width table
  `opcodeSize` (gen.go).

  An instruction is one `int` holding the opcode, possibly with modifier bits
  above `Mask` (right-to-left, backtracking and case-insensitivity flags), followed
  by zero, one or two operand `int`s. The numbering below is that of the regexp2
  syntax package's `InstOp` constants; that package is not part of this model.
 */
module Opcodes {
  import opened Wrappers

  /** The low bits that carry the opcode; the modifier bits are 64, 128, 256 and 512. */
  const Mask: int := 63

  datatype Opcode =
    | Onerep | Notonerep | Setrep
    | Oneloop | Notoneloop | Setloop
    | Onelazy | Notonelazy | Setlazy
    | One | Notone | Set
    | Multi | Ref
    | Bol | Eol | Boundary | Nonboundary | Beginning | Start | EndZ | End
    | Nothing
    | Lazybranch | Branchmark | Lazybranchmark
    | Nullcount | Setcount | Branchcount | Lazybranchcount
    | Nullmark | Setmark | Capturemark | Getmark
    | Setjump | Backjump | Forejump
    | Testref | Goto | Prune | Stop
    | ECMABoundary | NonECMABoundary

  /** `op & Mask` on a Go `int`: two's-complement masking equals the Euclidean remainder. */
  function Masked(code: int): (m: int)
    ensures 0 <= m <= Mask
    ensures (code - m) % (Mask + 1) == 0
  {
    code % (Mask + 1)
  }

  /** The numeric value of each opcode. */
  function Encode(op: Opcode): (v: int)
    ensures 0 <= v < 43
  {
    match op
    case Onerep => 0
    case Notonerep => 1
    case Setrep => 2
    case Oneloop => 3
    case Notoneloop => 4
    case Setloop => 5
    case Onelazy => 6
    case Notonelazy => 7
    case Setlazy => 8
    case One => 9
    case Notone => 10
    case Set => 11
    case Multi => 12
    case Ref => 13
    case Bol => 14
    case Eol => 15
    case Boundary => 16
    case Nonboundary => 17
    case Beginning => 18
    case Start => 19
    case EndZ => 20
    case End => 21
    case Nothing => 22
    case Lazybranch => 23
    case Branchmark => 24
    case Lazybranchmark => 25
    case Nullcount => 26
    case Setcount => 27
    case Branchcount => 28
    case Lazybranchcount => 29
    case Nullmark => 30
    case Setmark => 31
    case Capturemark => 32
    case Getmark => 33
    case Setjump => 34
    case Backjump => 35
    case Forejump => 36
    case Testref => 37
    case Goto => 38
    case Prune => 39
    case Stop => 40
    case ECMABoundary => 41
    case NonECMABoundary => 42
  }

  /** The opcode a masked value names, if any. */
  function Decode(v: int): Option<Opcode>
  {
    match v
    case 0 => Some(Onerep)
    case 1 => Some(Notonerep)
    case 2 => Some(Setrep)
    case 3 => Some(Oneloop)
    case 4 => Some(Notoneloop)
    case 5 => Some(Setloop)
    case 6 => Some(Onelazy)
    case 7 => Some(Notonelazy)
    case 8 => Some(Setlazy)
    case 9 => Some(One)
    case 10 => Some(Notone)
    case 11 => Some(Set)
    case 12 => Some(Multi)
    case 13 => Some(Ref)
    case 14 => Some(Bol)
    case 15 => Some(Eol)
    case 16 => Some(Boundary)
    case 17 => Some(Nonboundary)
    case 18 => Some(Beginning)
    case 19 => Some(Start)
    case 20 => Some(EndZ)
    case 21 => Some(End)
    case 22 => Some(Nothing)
    case 23 => Some(Lazybranch)
    case 24 => Some(Branchmark)
    case 25 => Some(Lazybranchmark)
    case 26 => Some(Nullcount)
    case 27 => Some(Setcount)
    case 28 => Some(Branchcount)
    case 29 => Some(Lazybranchcount)
    case 30 => Some(Nullmark)
    case 31 => Some(Setmark)
    case 32 => Some(Capturemark)
    case 33 => Some(Getmark)
    case 34 => Some(Setjump)
    case 35 => Some(Backjump)
    case 36 => Some(Forejump)
    case 37 => Some(Testref)
    case 38 => Some(Goto)
    case 39 => Some(Prune)
    case 40 => Some(Stop)
    case 41 => Some(ECMABoundary)
    case 42 => Some(NonECMABoundary)
    case _ => None
  }

  /** Decoding an encoded opcode gives it back. */
  lemma DecodeEncode(op: Opcode)
    ensures Decode(Encode(op)) == Some(op)
  {
  }

  /** Exactly the values 0 to 42 name an opcode, and each names the opcode that encodes to it. */
  lemma EncodeDecode(v: int)
    ensures Decode(v).Some? <==> 0 <= v < 43
    ensures Decode(v).Some? ==> Encode(Decode(v).value) == v
  {
  }

  /** The three width classes of the table: 18 one-word, 13 two-word and 12 three-word opcodes. */
  function Width(op: Opcode): (w: nat)
    ensures 1 <= w <= 3
  {
    match op
    case Nothing | Bol | Eol | Boundary | Nonboundary | ECMABoundary | NonECMABoundary | Beginning | Start | EndZ
      | End | Nullmark | Setmark | Getmark | Setjump | Backjump | Forejump | Stop => 1
    case One | Notone | Multi | Ref | Testref | Goto | Nullcount | Setcount | Lazybranch | Branchmark | Lazybranchmark
      | Prune | Set => 2
    case Capturemark | Branchcount | Lazybranchcount | Onerep | Notonerep | Oneloop | Notoneloop | Onelazy | Notonelazy
      | Setlazy | Setrep | Setloop => 3
  }

  /**
    `opcodeSize`: the width of the instruction whose first word is `code`, after
    masking off the modifier bits; `None` stands for the panic on an opcode
    outside the table.
   */
  function OpcodeSize(code: int): (r: Option<nat>)
    ensures r.Some? <==> 0 <= Masked(code) < 43
    ensures r.Some? ==> r.value in {1, 2, 3} && r.value == Width(Decode(Masked(code)).value)
  {
    match Decode(Masked(code))
    case None => None
    case Some(op) => Some(Width(op))
  }

  /** Modifier bits (any multiple of 64 added to the word) never change the width, nor whether it panics. */
  lemma OpcodeSizeIgnoresModifiers(code: int, modifiers: int)
    ensures OpcodeSize(code + (Mask + 1) * modifiers) == OpcodeSize(code)
  {
    assert Masked(code + (Mask + 1) * modifiers) == Masked(code) by {
      MaskedShift(code, modifiers);
    }
  }

  /** Euclidean remainder modulo 64 ignores multiples of 64. */
  lemma MaskedShift(code: int, k: int)
    ensures (code + 64 * k) % 64 == code % 64
  {
    var q := code / 64;
    var r := code % 64;
    assert code + 64 * k == 64 * (q + k) + r;
  }
}
