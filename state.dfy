/**
  The generation settings and the random source (state.go).

  `math/rand` is not modelled: the seeded generator is an oracle that, asked for
  its n-th draw with bound `bound`, answers some integer, which `Intn` reduces into
  `[0, bound)`. The oracle is fixed when the state is built, so every output
  below is a function of the oracle and of how many draws came before.
 */
module States {
  import opened Wrappers
  import opened Runes
  import opened Alphabet

  /** The seeded stream: draw number and bound to an integer. */
  type Oracle = (nat, int) -> int

  /** What `Intn(bound)` answers as the `k`-th draw of the stream. */
  function Pick(oracle: Oracle, k: nat, bound: int): (i: int)
    requires bound > 0
    ensures 0 <= i < bound
  {
    oracle(k, bound) % bound
  }

  /**
    The runes `randomRunes(chars, length)` returns when the stream has already
    given `start` draws: the `j`-th rune is `chars` at the index of draw `start + j`.
   */
  function Draw(oracle: Oracle, start: nat, chars: seq<Rune>, length: int): (r: seq<Rune>)
    requires length > 0 ==> |chars| > 0
    ensures |r| == if length <= 0 then 0 else length
    decreases length
  {
    if length <= 0 then []
    else Draw(oracle, start, chars, length - 1) + [chars[Pick(oracle, start + length - 1, |chars|)]]
  }

  /** Every drawn rune is one of the candidates. */
  lemma {:induction false} DrawFromChars(oracle: Oracle, start: nat, chars: seq<Rune>, length: int)
    requires length > 0 ==> |chars| > 0
    ensures forall j :: 0 <= j < |Draw(oracle, start, chars, length)| ==> Draw(oracle, start, chars, length)[j] in chars
    decreases length
  {
    if length > 0 {
      DrawFromChars(oracle, start, chars, length - 1);
    }
  }

  /** Each output rune is decided by exactly one draw, the `j`-th by draw `start + j`. */
  lemma {:induction false} DrawAt(oracle: Oracle, start: nat, chars: seq<Rune>, length: int, j: nat)
    requires |chars| > 0 && j < length
    ensures Draw(oracle, start, chars, length)[j] == chars[Pick(oracle, start + j, |chars|)]
    decreases length
  {
    if j < length - 1 {
      DrawAt(oracle, start, chars, length - 1, j);
    }
  }

  /** Drawing `m` runes and then `n` more continues the stream where the first call stopped. */
  lemma {:induction false} DrawSplit(oracle: Oracle, start: nat, chars: seq<Rune>, m: nat, n: nat)
    requires |chars| > 0
    ensures Draw(oracle, start, chars, m + n) == Draw(oracle, start, chars, m) + Draw(oracle, start + m, chars, n)
    decreases n
  {
    if n > 0 {
      DrawSplit(oracle, start, chars, m, n - 1);
    }
  }

  /** Drawing from a single rune yields that rune `length` times, whatever the stream says. */
  lemma {:induction false} DrawSingleton(oracle: Oracle, start: nat, r: Rune, length: int)
    ensures forall j :: 0 <= j < |Draw(oracle, start, [r], length)| ==> Draw(oracle, start, [r], length)[j] == r
  {
    DrawFromChars(oracle, start, [r], length);
  }

  /** The part of `math/rand.Rand` the generator uses: `Intn`, which consumes one draw. */
  class Rand {
    const oracle: Oracle
    var drawn: nat

    constructor (oracle: Oracle)
      ensures this.oracle == oracle && drawn == 0
    {
      this.oracle := oracle;
      drawn := 0;
    }

    /** `Intn(bound)`; Go panics when `bound <= 0`. */
    method Intn(bound: int) returns (i: int)
      requires bound > 0
      modifies this
      ensures 0 <= i < bound
      ensures i == Pick(oracle, old(drawn), bound) && drawn == old(drawn) + 1
    {
      i := Pick(oracle, drawn, bound);
      drawn := drawn + 1;
    }
  }

  /** `defaultBoundary`. */
  const DefaultBoundary: Rune := ' ' as int

  /** The alphabet `NewState` keeps: the caller's when it is non-nil (even if empty), the default otherwise. */
  function ChosenChars(chars: Option<seq<Rune>>): (r: seq<Rune>)
    ensures chars.Some? ==> r == chars.value
    ensures chars.None? ==> r == RunesOf(PrintableCharsNoNL()) && |r| == 66
    ensures chars.None? ==> '\n' as int !in r && '\r' as int !in r
  {
    PrintableCharsNoNLHasNoLineBreak();
    match chars
    case Some(cs) => cs
    case None => RunesOf(PrintableCharsNoNL())
  }

  /** `state`: settings fixed at construction; only the random source changes afterwards. */
  class State {
    const debug: bool
    const rng: Rand
    const limit: int
    /** The alphabet used for `.`-like choices. */
    const chars: seq<Rune>
    const boundary: Rune

    /** `NewState(debug, limit, chars, seed)`, with the generator built from `seed` given as `oracle`; `None` is a nil slice. */
    constructor (debug: bool, limit: int, chars: Option<seq<Rune>>, oracle: Oracle)
      ensures this.debug == debug && this.limit == limit
      ensures this.chars == ChosenChars(chars)
      ensures boundary == DefaultBoundary
      ensures fresh(rng) && rng.oracle == oracle && rng.drawn == 0
    {
      this.debug := debug;
      this.limit := limit;
      this.chars := ChosenChars(chars);
      boundary := DefaultBoundary;
      rng := new Rand(oracle);
    }

    /** `randomRunes`: `length` independent draws from `chars`, none when `length <= 0`. */
    method RandomRunes(chars: seq<Rune>, length: int) returns (result: seq<Rune>)
      requires length > 0 ==> |chars| > 0
      modifies rng
      ensures result == Draw(rng.oracle, old(rng.drawn), chars, length)
      ensures rng.drawn == old(rng.drawn) + |result|
    {
      result := [];
      var j := 0;
      while j < length
        invariant 0 <= j && (length > 0 ==> j <= length) && (length <= 0 ==> j == 0)
        invariant result == Draw(rng.oracle, old(rng.drawn), chars, j)
        invariant rng.drawn == old(rng.drawn) + j
      {
        var k := rng.Intn(|chars|);
        result := result + [chars[k]];
        j := j + 1;
      }
    }
  }
}

/** The default alphabet of state.go. */
module Alphabet {

  const Digits: string := "0123456789"
  const Lower: string := "abcdefghijklmnopqrstuvwxyz"
  const Upper: string := "ABCDEFGHIJKLMNOPQRSTUVWXYZ"

  /** `printableChars` (one Go literal, written here in pieces): printable ASCII, then `'\n'` and `'\r'`. */
  const PrintableChars: string := Digits + Lower + Upper + "-_ \\\n\r"

  /** `printableCharsNoNL`: `printableChars[:len(printableChars)-2]`. */
  function PrintableCharsNoNL(): (s: string)
    ensures PrintableChars == s + "\n\r"
  {
    PrintableChars[..|PrintableChars| - 2]
  }

  lemma DigitsHaveNoLineBreak() ensures '\n' !in Digits && '\r' !in Digits {}
  lemma LowerHasNoLineBreak() ensures '\n' !in Lower && '\r' !in Lower {}
  lemma UpperHasNoLineBreak() ensures '\n' !in Upper && '\r' !in Upper {}

  /** The default alphabet contains neither line terminator, and only drops those two. */
  lemma PrintableCharsNoNLHasNoLineBreak()
    ensures '\n' !in PrintableCharsNoNL() && '\r' !in PrintableCharsNoNL()
    ensures |PrintableCharsNoNL()| == |PrintableChars| - 2 == 66
  {
    assert PrintableCharsNoNL() == Digits + Lower + Upper + "-_ \\";
    DigitsHaveNoLineBreak();
    LowerHasNoLineBreak();
    UpperHasNoLineBreak();
  }
}
