/**
  The generation interpreter of gen.go: `Generator.generate` walks the
  instruction words of a compiled pattern from the first to the last and, for
  each instruction, appends to the output what that instruction demands.

  The walk is strictly linear: jumps, loop counters, branches and lookaround
  brackets are no-ops, and the instruction pointer always advances by the width
  of the instruction it is on.

  `Step` and `Run` specify one iteration and the whole walk as functions of an
  abstract machine state; `Generate` is the loop itself, over a `Buffer` and the
  random source of a `State`, and is proved to compute `Run`. Go's runtime panics
  are an outcome of their own, `Panicked`.
 */
module Gen {
  import opened Wrappers
  import opened Runes
  import opened Opcodes
  import opened States
  import opened Buffers

  /** `syntax.CharSet`, seen only through `CharIn`. */
  datatype CharSet = CharSet(charIn: Rune -> bool)

  /** `syntax.Code`: the instruction words and the tables their operands index. */
  datatype Code = Code(codes: seq<int>, sets: seq<CharSet>, strings: seq<seq<Rune>>)

  /** What `generate` reads of the state: the alphabet, the boundary filler and the random stream. */
  datatype Config = Config(chars: seq<Rune>, boundary: Rune, oracle: Oracle)

  /** The errors `generate` returns. */
  datatype GenError =
    | NoSuitableChars(at: nat)    // a class with no member in the alphabet
    | RefNotCaptured(group: int)  // a backreference to a group not yet closed

  /** Go runtime panics that `generate` can run into. */
  datatype PanicKind =
    | UnexpectedOpcode(op: int)   // `opcodeSize` on an opcode outside its table
    | CodesOutOfRange             // an operand read past the end of `Codes`
    | TableOutOfRange             // a set or string index outside `Sets` or `Strings`
    | EmptyChoice                 // `Intn(0)`: a draw from no candidate at all
    | EmptyMarkStack              // `Backmark` with no open group

  datatype Outcome = Generated(text: string) | Failed(error: GenError) | Panicked(kind: PanicKind)

  /**
    The interpreter state: the instruction pointer, the current segment, the
    enclosing segments (outermost first), the captures and the number of random
    draws consumed so far.
   */
  datatype MState = MState(index: nat, cur: string, stack: seq<string>, marks: map<int, string>, drawn: nat)

  datatype StepResult = Continue(next: MState) | Halt(outcome: Outcome)

  /** The state at the start of a run. */
  function Initial(drawn: nat): MState
  {
    MState(0, [], [], map[], drawn)
  }

  /** The concatenation of a sequence of texts. */
  function Concat(ts: seq<string>): string
  {
    if ts == [] then [] else Concat(ts[..|ts| - 1]) + ts[|ts| - 1]
  }

  /** Appending one text to the sequence appends it to the concatenation. */
  lemma ConcatSnoc(ts: seq<string>, t: string)
    ensures Concat(ts + [t]) == Concat(ts) + t
  {
    assert (ts + [t])[..|ts|] == ts;
  }

  /** The flattened output: the enclosing segments in order, then the current one. */
  function Flat(st: MState): string
  {
    Concat(st.stack) + st.cur
  }

  // ---------------------------------------------------------------------------
  // Candidate characters and repeat counts

  /** The elements of `s` that satisfy `p`, in their order in `s`. */
  function Filter(s: seq<Rune>, p: Rune -> bool): (r: seq<Rune>)
    ensures |r| <= |s|
    ensures forall x :: x in r <==> x in s && p(x)
  {
    if s == [] then []
    else Filter(s[..|s| - 1], p) + (if p(s[|s| - 1]) then [s[|s| - 1]] else [])
  }

  /** The candidates of the `Notone` family: the alphabet without `exclude`, or all of it when `exclude` is `'.'`. */
  function NotoneChars(chars: seq<Rune>, exclude: Rune): (r: seq<Rune>)
    ensures exclude == '.' as int ==> r == chars
    ensures exclude != '.' as int ==> forall x :: x in r <==> x in chars && x != exclude
  {
    if exclude == '.' as int then chars else Filter(chars, Differs(exclude))
  }

  /** The test `c != exclude`. */
  function Differs(exclude: Rune): Rune -> bool
  {
    x => x != exclude
  }

  /** The candidates of the `Set` family: the alphabet's members of the class. */
  function SetChars(chars: seq<Rune>, cls: CharSet): (r: seq<Rune>)
    ensures forall x :: x in r <==> x in chars && cls.charIn(x)
  {
    Filter(chars, cls.charIn)
  }

  /**
    How many characters a `One`/`Notone`/`Set` instruction of width `size` at
    `index` writes: 1 for the two-word form; for the three-word form the count
    operand, or 0 when it is the unbounded sentinel `MaxInt32`. `None` when the
    operand lies past the end of the instruction words.
   */
  function Count(codes: seq<int>, index: nat, size: nat): (r: Option<int>)
    ensures size == 2 ==> r == Some(1)
    ensures size != 2 && index + 2 < |codes| && codes[index + 2] == MaxInt32 ==> r == Some(0)
    ensures size != 2 && index + 2 < |codes| && codes[index + 2] != MaxInt32 ==> r == Some(codes[index + 2])
    ensures size != 2 && index + 2 >= |codes| ==> r.None?
  {
    if size == 2 then Some(1)
    else if index + 2 < |codes| then Some(if codes[index + 2] == MaxInt32 then 0 else codes[index + 2])
    else None
  }

  // ---------------------------------------------------------------------------
  // One iteration of the loop, opcode family by opcode family

  /** Move past the instruction without writing anything. */
  function Skip(st: MState, size: nat): MState
  {
    st.(index := st.index + size)
  }

  /** Append the randomly drawn `runes` and move past the instruction. */
  function EmitDrawn(st: MState, size: nat, runes: seq<Rune>): MState
  {
    st.(index := st.index + size, cur := st.cur + WrittenAll(runes), drawn := st.drawn + |runes|)
  }

  /**
    What a drawing instruction asks of the random source once its operands are
    read: `Drawing(candidates, count)` draws `count` runes from `candidates`;
    `Halted` is the error or panic met while reading the operands.
   */
  datatype Plan = Halted(outcome: Outcome) | Drawing(candidates: seq<Rune>, count: int)

  /** `One`, `Onerep`, `Oneloop`: the operand rune, `Count` times. */
  function OnePlan(codes: seq<int>, index: nat, size: nat): (r: Plan)
    ensures r.Halted? <==> index + 1 >= |codes| || (size != 2 && index + 2 >= |codes|)
    ensures r.Halted? ==> r.outcome == Panicked(CodesOutOfRange)
  {
    if index + 1 >= |codes| then Halted(Panicked(CodesOutOfRange))
    else
      match Count(codes, index, size)
      case None => Halted(Panicked(CodesOutOfRange))
      case Some(n) => Drawing([RuneOf(codes[index + 1])], n)
  }

  /** `Notone`, `Notonerep`, `Notoneloop`: `Count` draws from `NotoneChars`; the count is read before the operand. */
  function NotonePlan(codes: seq<int>, chars: seq<Rune>, index: nat, size: nat): (r: Plan)
    ensures r.Halted? <==> index + 1 >= |codes| || (size != 2 && index + 2 >= |codes|)
    ensures r.Halted? ==> r.outcome == Panicked(CodesOutOfRange)
  {
    match Count(codes, index, size)
    case None => Halted(Panicked(CodesOutOfRange))
    case Some(n) =>
      if index + 1 >= |codes| then Halted(Panicked(CodesOutOfRange))
      else Drawing(NotoneChars(chars, RuneOf(codes[index + 1])), n)
  }

  /**
    `Set`, `Setrep`, `Setloop`: fail when the class has no member in the
    alphabet, else `Count` draws from it. The failure's message describes the
    instruction with regexp2's `OpcodeDescription`, which for the three-word
    forms reads the count word: when that word lies past the end the
    description panics before the error is made.
   */
  function SetPlan(c: Code, chars: seq<Rune>, index: nat, size: nat): (r: Plan)
    ensures r.Halted? ==> r.outcome in {Panicked(CodesOutOfRange), Panicked(TableOutOfRange), Failed(NoSuitableChars(index))}
    ensures r.Drawing? ==> |r.candidates| > 0
  {
    if index + 1 >= |c.codes| then Halted(Panicked(CodesOutOfRange))
    else if !(0 <= c.codes[index + 1] < |c.sets|) then Halted(Panicked(TableOutOfRange))
    else
      var possible := SetChars(chars, c.sets[c.codes[index + 1]]);
      if |possible| == 0 then
        if size != 2 && index + 2 >= |c.codes| then Halted(Panicked(CodesOutOfRange))
        else Halted(Failed(NoSuitableChars(index)))
      else
        match Count(c.codes, index, size)
        case None => Halted(Panicked(CodesOutOfRange))
        case Some(n) => Drawing(possible, n)
  }

  /** The opcodes whose case of `generate` writes randomly drawn runes. */
  predicate Draws(op: Opcode)
  {
    || op.One? || op.Onerep? || op.Oneloop?
    || op.Notone? || op.Notonerep? || op.Notoneloop?
    || op.Set? || op.Setrep? || op.Setloop?
    || op.Nonboundary? || op.NonECMABoundary?
  }

  /** The plan of a drawing instruction; `Nonboundary` and `NonECMABoundary` draw one rune from the whole alphabet. */
  function DrawPlan(c: Code, chars: seq<Rune>, index: nat, op: Opcode, size: nat): (r: Plan)
    requires Draws(op)
    ensures r.Halted? ==> r.outcome in {Panicked(CodesOutOfRange), Panicked(TableOutOfRange), Failed(NoSuitableChars(index))}
  {
    if op.One? || op.Onerep? || op.Oneloop? then OnePlan(c.codes, index, size)
    else if op.Notone? || op.Notonerep? || op.Notoneloop? then NotonePlan(c.codes, chars, index, size)
    else if op.Set? || op.Setrep? || op.Setloop? then SetPlan(c, chars, index, size)
    else Drawing(chars, 1)
  }

  /**
    Carry out a plan: draw and append the runes, or halt. `Intn(0)`, a draw from
    no candidate at all, panics.
   */
  function Perform(cfg: Config, st: MState, size: nat, plan: Plan): (r: StepResult)
    ensures r.Continue? ==> r.next.index == st.index + size
  {
    match plan
    case Halted(o) => Halt(o)
    case Drawing(candidates, n) =>
      if n > 0 && |candidates| == 0 then Halt(Panicked(EmptyChoice))
      else Continue(EmitDrawn(st, size, Draw(cfg.oracle, st.drawn, candidates, n)))
  }

  /** `Multi`: the string-table entry, rune by rune. */
  function ExecMulti(c: Code, st: MState, size: nat): (r: StepResult)
    ensures r.Continue? ==> r.next.index == st.index + size
  {
    if st.index + 1 >= |c.codes| then Halt(Panicked(CodesOutOfRange))
    else if !(0 <= c.codes[st.index + 1] < |c.strings|) then Halt(Panicked(TableOutOfRange))
    else Continue(st.(index := st.index + size, cur := st.cur + WrittenAll(c.strings[c.codes[st.index + 1]])))
  }

  /** `Ref`: the text captured under the operand, or an error when there is none. */
  function ExecRef(c: Code, st: MState, size: nat): (r: StepResult)
    ensures r.Continue? ==> r.next.index == st.index + size
  {
    if st.index + 1 >= |c.codes| then Halt(Panicked(CodesOutOfRange))
    else
      var group := c.codes[st.index + 1];
      if group !in st.marks then Halt(Failed(RefNotCaptured(group)))
      else Continue(st.(index := st.index + size, cur := st.cur + st.marks[group]))
  }

  /** `Backmark`: pop the current segment into its parent, recording it under `group` when `capture`. */
  function ExecBackmark(st: MState, size: nat, capture: bool, group: int): (r: StepResult)
    ensures r.Continue? ==> r.next.index == st.index + size
  {
    if |st.stack| == 0 then Halt(Panicked(EmptyMarkStack))
    else
      Continue(st.(index := st.index + size,
                   cur := st.stack[|st.stack| - 1] + st.cur,
                   stack := st.stack[..|st.stack| - 1],
                   marks := if capture then st.marks[group := st.cur] else st.marks))
  }

  /** The opcodes whose case of `generate` writes text that is fixed by the instruction and the captures. */
  predicate Copies(op: Opcode)
  {
    op.Multi? || op.Ref? || op.Boundary? || op.ECMABoundary?
  }

  /** `Multi`, `Ref`, `Boundary` and `ECMABoundary`: text fixed by the instruction, the captures or the boundary filler. */
  function ExecCopy(c: Code, cfg: Config, st: MState, op: Opcode, size: nat): (r: StepResult)
    requires Copies(op)
    ensures r.Continue? ==> r.next.index == st.index + size
  {
    if op.Multi? then ExecMulti(c, st, size)
    else if op.Ref? then ExecRef(c, st, size)
    else Continue(st.(index := st.index + size, cur := st.cur + [Written(cfg.boundary)]))
  }

  /**
    The remaining opcodes: `Setmark` opens a group, `Capturemark` and `Getmark`
    close one, and every other one (anchors, lazy loops, branches, counters,
    jumps, `Nothing`, `Stop`) only moves the pointer.
   */
  function ExecOther(c: Code, st: MState, op: Opcode, size: nat): (r: StepResult)
    requires !Draws(op) && !Copies(op)
    ensures r.Continue? ==> r.next.index == st.index + size
  {
    if op.Setmark? then Continue(st.(index := st.index + size, cur := [], stack := st.stack + [st.cur]))
    else if op.Capturemark? then
      if st.index + 1 >= |c.codes| then Halt(Panicked(CodesOutOfRange))
      else ExecBackmark(st, size, true, c.codes[st.index + 1])
    else if op.Getmark? then ExecBackmark(st, size, false, -1)
    else Continue(Skip(st, size))
  }

  /** The `switch op` of `generate`: what the instruction `op` of width `size` at `st.index` does. */
  function Exec(c: Code, cfg: Config, st: MState, op: Opcode, size: nat): (r: StepResult)
    ensures r.Continue? ==> r.next.index == st.index + size
  {
    if Draws(op) then Perform(cfg, st, size, DrawPlan(c, cfg.chars, st.index, op, size))
    else if Copies(op) then ExecCopy(c, cfg, st, op, size)
    else ExecOther(c, st, op, size)
  }

  /**
    One iteration of the loop at `st.index`. When it continues, the instruction
    pointer has advanced by exactly the `opcodeSize` of the instruction word.
   */
  function Step(c: Code, cfg: Config, st: MState): (r: StepResult)
    requires st.index < |c.codes|
    ensures r.Continue? ==> OpcodeSize(c.codes[st.index]).Some?
    ensures r.Continue? ==> r.next.index == st.index + OpcodeSize(c.codes[st.index]).value
  {
    var code := c.codes[st.index];
    match Decode(Masked(code))
    case None => Halt(Panicked(UnexpectedOpcode(Masked(code))))
    case Some(op) => Exec(c, cfg, st, op, Width(op))
  }

  /**
    An iteration that fails for want of characters names its own instruction,
    and one that meets an unknown opcode names a masked value past the table.
   */
  lemma StepHaltsHere(c: Code, cfg: Config, st: MState)
    requires st.index < |c.codes|
    ensures Step(c, cfg, st).Halt? && Step(c, cfg, st).outcome.Failed? && Step(c, cfg, st).outcome.error.NoSuitableChars? ==>
      Step(c, cfg, st).outcome.error.at == st.index
    ensures Step(c, cfg, st).Halt? && Step(c, cfg, st).outcome.Panicked? && Step(c, cfg, st).outcome.kind.UnexpectedOpcode? ==>
      43 <= Step(c, cfg, st).outcome.kind.op <= Mask
  {
    var code := c.codes[st.index];
    match Decode(Masked(code))
    case None =>
      assert OpcodeSize(code).None?;
    case Some(op) =>
      assert Step(c, cfg, st) == Exec(c, cfg, st, op, Width(op));
  }

  /**
    The whole walk from `st`: the current segment once the pointer has passed
    the last word, or the first halt. A failure for want of characters names an
    instruction at or after `st`, and an unknown opcode is a masked value past
    the table.
   */
  function Run(c: Code, cfg: Config, st: MState): (r: Outcome)
    ensures r.Failed? && r.error.NoSuitableChars? ==> st.index <= r.error.at < |c.codes|
    ensures r.Panicked? && r.kind.UnexpectedOpcode? ==> 43 <= r.kind.op <= Mask
    decreases |c.codes| - st.index
  {
    if st.index >= |c.codes| then Generated(st.cur)
    else
      StepHaltsHere(c, cfg, st);
      match Step(c, cfg, st)
      case Halt(o) => o
      case Continue(next) => Run(c, cfg, next)
  }

  /**
    How many draws the random source has made when the walk from `st` ends:
    those of the state in which it halts, or in which it passes the last word.
   */
  function RunDrawn(c: Code, cfg: Config, st: MState): nat
    decreases |c.codes| - st.index
  {
    if st.index >= |c.codes| then st.drawn
    else
      match Step(c, cfg, st)
      case Halt(_) => st.drawn
      case Continue(next) => RunDrawn(c, cfg, next)
  }

  /** The configuration a `State` hands to `generate`. */
  function ConfigOf(s: State): Config
  {
    Config(s.chars, s.boundary, s.rng.oracle)
  }

  // ---------------------------------------------------------------------------
  // The loop itself

  /** What `generate` has reached: the pointer, the buffer's texts and the draws consumed. */
  ghost function Abs(index: nat, buf: Buffer, drawn: nat): MState
    reads buf, buf.Repr
    requires buf.Valid()
  {
    MState(index, buf.cur.text, buf.Stacked(), buf.Captures(), drawn)
  }

  /** The step result an instruction handler has produced: its halt, or the state it has reached. */
  ghost function Reached(halt: Option<Outcome>, index: nat, buf: Buffer, drawn: nat): StepResult
    reads buf, buf.Repr
    requires buf.Valid()
  {
    if halt.Some? then Halt(halt.value) else Continue(Abs(index, buf, drawn))
  }

  /** `for _, j := range result { buf.WriteRune(j) }`. */
  method WriteRunes(buf: Buffer, runes: seq<Rune>)
    requires buf.Valid()
    modifies buf.cur
    ensures buf.Valid()
    ensures buf.cur.text == old(buf.cur.text) + WrittenAll(runes)
    ensures buf.Stacked() == old(buf.Stacked()) && buf.Captures() == old(buf.Captures())
  {
    for j := 0 to |runes|
      invariant buf.Valid()
      invariant buf.cur.text == old(buf.cur.text) + WrittenAll(runes[..j])
      invariant buf.Stacked() == old(buf.Stacked()) && buf.Captures() == old(buf.Captures())
    {
      buf.WriteRune(runes[j]);
      assert runes[..j + 1][..j] == runes[..j];
    }
    assert runes[..|runes|] == runes;
  }

  /** The candidate loop of the `Notone` family. */
  method NotoneCandidates(chars: seq<Rune>, exclude: Rune) returns (possible: seq<Rune>)
    ensures possible == NotoneChars(chars, exclude)
  {
    possible := [];
    if exclude == '.' as int {
      possible := chars;
    } else {
      for j := 0 to |chars|
        invariant possible == Filter(chars[..j], Differs(exclude))
      {
        var c := chars[j];
        if c != exclude {
          possible := possible + [c];
        }
        assert chars[..j + 1][..j] == chars[..j];
      }
      assert chars[..|chars|] == chars;
    }
  }

  /** The candidate loop of the `Set` family. */
  method SetCandidates(chars: seq<Rune>, cls: CharSet) returns (possible: seq<Rune>)
    ensures possible == SetChars(chars, cls)
  {
    possible := [];
    for j := 0 to |chars|
      invariant possible == Filter(chars[..j], cls.charIn)
    {
      var c := chars[j];
      if cls.charIn(c) {
        possible := possible + [c];
      }
      assert chars[..j + 1][..j] == chars[..j];
    }
    assert chars[..|chars|] == chars;
  }

  /** The repeat count of an instruction, or the panic of reading it past the end. */
  method RepeatCount(c: Code, index: nat, size: nat) returns (length: Option<int>)
    ensures length == Count(c.codes, index, size)
  {
    if size == 2 {
      length := Some(1);
    } else {
      if index + 2 >= |c.codes| {
        return None;
      }
      var n := c.codes[index + 2];
      if n == MaxInt32 {
        n := 0;
      }
      length := Some(n);
    }
  }

  /** The operand reading of the `One` family. */
  method ChooseOne(c: Code, index: nat, size: nat) returns (plan: Plan)
    ensures plan == OnePlan(c.codes, index, size)
  {
    if index + 1 >= |c.codes| {
      return Halted(Panicked(CodesOutOfRange));
    }
    var r := RuneOf(c.codes[index + 1]);
    var length := RepeatCount(c, index, size);
    if length.None? {
      return Halted(Panicked(CodesOutOfRange));
    }
    plan := Drawing([r], length.value);
  }

  /** The operand reading and the candidate loop of the `Notone` family. */
  method ChooseNotone(c: Code, chars: seq<Rune>, index: nat, size: nat) returns (plan: Plan)
    ensures plan == NotonePlan(c.codes, chars, index, size)
  {
    var length := RepeatCount(c, index, size);
    if length.None? {
      return Halted(Panicked(CodesOutOfRange));
    }
    if index + 1 >= |c.codes| {
      return Halted(Panicked(CodesOutOfRange));
    }
    var exclude := RuneOf(c.codes[index + 1]);
    var possibleChars := NotoneCandidates(chars, exclude);
    plan := Drawing(possibleChars, length.value);
  }

  /** The operand reading and the candidate loop of the `Set` family. */
  method ChooseSet(c: Code, chars: seq<Rune>, index: nat, size: nat) returns (plan: Plan)
    ensures plan == SetPlan(c, chars, index, size)
  {
    if index + 1 >= |c.codes| {
      return Halted(Panicked(CodesOutOfRange));
    }
    if !(0 <= c.codes[index + 1] < |c.sets|) {
      return Halted(Panicked(TableOutOfRange));
    }
    var charSet := c.sets[c.codes[index + 1]];
    var possibleChars := SetCandidates(chars, charSet);
    if |possibleChars| == 0 {
      if size != 2 && index + 2 >= |c.codes| {
        // describing a three-word instruction reads its count word
        return Halted(Panicked(CodesOutOfRange));
      }
      return Halted(Failed(NoSuitableChars(index)));
    }
    var length := RepeatCount(c, index, size);
    if length.None? {
      return Halted(Panicked(CodesOutOfRange));
    }
    plan := Drawing(possibleChars, length.value);
  }

  /** The operand reading of a drawing instruction. */
  method Choose(c: Code, chars: seq<Rune>, index: nat, op: Opcode, size: nat) returns (plan: Plan)
    requires Draws(op)
    ensures plan == DrawPlan(c, chars, index, op, size)
  {
    if op.One? || op.Onerep? || op.Oneloop? {
      plan := ChooseOne(c, index, size);
    } else if op.Notone? || op.Notonerep? || op.Notoneloop? {
      plan := ChooseNotone(c, chars, index, size);
    } else if op.Set? || op.Setrep? || op.Setloop? {
      plan := ChooseSet(c, chars, index, size);
    } else {
      plan := Drawing(chars, 1);
    }
  }

  /** `result := s.randomRunes(candidates, count)` and `WriteRune` of every drawn rune, or the halt of the plan. */
  method Carry(s: State, buf: Buffer, index: nat, size: nat, plan: Plan) returns (halt: Option<Outcome>)
    requires buf.Valid() && s.rng !in buf.Repr
    modifies buf.cur, s.rng
    ensures buf.Valid()
    ensures Perform(ConfigOf(s), old(Abs(index, buf, s.rng.drawn)), size, plan) == Reached(halt, index + size, buf, s.rng.drawn)
    ensures halt.Some? ==> s.rng.drawn == old(s.rng.drawn)
  {
    if plan.Halted? {
      return Some(plan.outcome);
    }
    if plan.count > 0 && |plan.candidates| == 0 {
      return Some(Panicked(EmptyChoice));
    }
    ghost var st := Abs(index, buf, s.rng.drawn);
    var result := s.RandomRunes(plan.candidates, plan.count);
    assert Abs(index, buf, st.drawn) == st;
    WriteRunes(buf, result);
    halt := None;
    assert Abs(index + size, buf, s.rng.drawn) == EmitDrawn(st, size, result);
  }

  /** The `Multi` case of `generate`. */
  method GenerateMulti(c: Code, buf: Buffer, index: nat, size: nat, ghost drawn: nat) returns (halt: Option<Outcome>)
    requires buf.Valid()
    modifies buf.cur
    ensures buf.Valid()
    ensures ExecMulti(c, old(Abs(index, buf, drawn)), size) == Reached(halt, index + size, buf, drawn)
  {
    if index + 1 >= |c.codes| {
      return Some(Panicked(CodesOutOfRange));
    }
    if !(0 <= c.codes[index + 1] < |c.strings|) {
      return Some(Panicked(TableOutOfRange));
    }
    WriteRunes(buf, c.strings[c.codes[index + 1]]);
    halt := None;
  }

  /** The `Ref` case of `generate`. */
  method GenerateRef(c: Code, buf: Buffer, index: nat, size: nat, ghost drawn: nat) returns (halt: Option<Outcome>)
    requires buf.Valid()
    modifies buf.cur
    ensures buf.Valid()
    ensures ExecRef(c, old(Abs(index, buf, drawn)), size) == Reached(halt, index + size, buf, drawn)
  {
    if index + 1 >= |c.codes| {
      return Some(Panicked(CodesOutOfRange));
    }
    var refIndex := c.codes[index + 1];
    var groupBuffer, ok := buf.Getmark(refIndex);
    if !ok {
      return Some(Failed(RefNotCaptured(refIndex)));
    }
    var _ := buf.WriteAll(groupBuffer.text);
    halt := None;
  }

  /** The `Boundary` and `ECMABoundary` cases of `generate`: write the boundary filler once. */
  method GenerateBoundary(s: State, buf: Buffer, index: nat, size: nat, ghost drawn: nat)
    requires buf.Valid()
    modifies buf.cur
    ensures buf.Valid()
    ensures Abs(index + size, buf, drawn) == old(Abs(index, buf, drawn)).(index := index + size, cur := old(buf.cur.text) + [Written(s.boundary)])
  {
    buf.WriteRune(s.boundary);
  }

  /** The `Setmark` case of `generate`: open a group. */
  method GenerateSetmark(buf: Buffer, index: nat, size: nat, ghost drawn: nat)
    requires buf.Valid()
    modifies buf
    ensures buf.Valid() && fresh(buf.Repr - old(buf.Repr))
    ensures Abs(index + size, buf, drawn) == old(Abs(index, buf, drawn)).(index := index + size, cur := [], stack := old(buf.Stacked()) + [old(buf.cur.text)])
  {
    buf.Setmark();
  }

  /** The `Capturemark` and `Getmark` cases of `generate`: close a group, recording it under `group` when `capture`. */
  method GenerateBackmark(buf: Buffer, index: nat, size: nat, capture: bool, group: int, ghost drawn: nat) returns (halt: Option<Outcome>)
    requires buf.Valid()
    modifies buf, buf.Repr
    ensures buf.Valid() && buf.Repr == old(buf.Repr)
    ensures ExecBackmark(old(Abs(index, buf, drawn)), size, capture, group) == Reached(halt, index + size, buf, drawn)
  {
    if |buf.buffers| == 0 {
      return Some(Panicked(EmptyMarkStack));
    }
    buf.Backmark(capture, group);
    halt := None;
  }


  /** The `switch op` of `generate`, for the instruction `op` of width `size` at `index`. */
  method Execute(s: State, c: Code, buf: Buffer, index: nat, op: Opcode, size: nat) returns (halt: Option<Outcome>)
    requires buf.Valid() && s.rng !in buf.Repr
    modifies buf, buf.Repr, s.rng
    ensures buf.Valid() && fresh(buf.Repr - old(buf.Repr)) && s.rng !in buf.Repr
    ensures Exec(c, ConfigOf(s), old(Abs(index, buf, s.rng.drawn)), op, size) == Reached(halt, index + size, buf, s.rng.drawn)
    ensures halt.Some? ==> s.rng.drawn == old(s.rng.drawn)
  {
    if Draws(op) {
      halt := ExecuteDrawing(s, c, buf, index, op, size);
    } else if Copies(op) {
      halt := ExecuteCopying(s, c, buf, index, op, size, s.rng.drawn);
    } else {
      halt := ExecuteOther(s, c, buf, index, op, size, s.rng.drawn);
    }
  }

  /** The cases of `generate` that draw from the random source. */
  method ExecuteDrawing(s: State, c: Code, buf: Buffer, index: nat, op: Opcode, size: nat) returns (halt: Option<Outcome>)
    requires buf.Valid() && s.rng !in buf.Repr && Draws(op)
    modifies buf.cur, s.rng
    ensures buf.Valid()
    ensures Perform(ConfigOf(s), old(Abs(index, buf, s.rng.drawn)), size, DrawPlan(c, s.chars, index, op, size)) == Reached(halt, index + size, buf, s.rng.drawn)
    ensures halt.Some? ==> s.rng.drawn == old(s.rng.drawn)
  {
    var plan := Choose(c, s.chars, index, op, size);
    halt := Carry(s, buf, index, size, plan);
  }

  /** The cases of `generate` that write without drawing. */
  method ExecuteCopying(s: State, c: Code, buf: Buffer, index: nat, op: Opcode, size: nat, ghost drawn: nat) returns (halt: Option<Outcome>)
    requires buf.Valid() && Copies(op)
    modifies buf.cur
    ensures buf.Valid()
    ensures ExecCopy(c, ConfigOf(s), old(Abs(index, buf, drawn)), op, size) == Reached(halt, index + size, buf, drawn)
  {
    if op.Multi? {
      halt := GenerateMulti(c, buf, index, size, drawn);
    } else if op.Ref? {
      halt := GenerateRef(c, buf, index, size, drawn);
    } else {
      GenerateBoundary(s, buf, index, size, drawn);
      halt := None;
    }
  }

  /** The cases of `generate` that open or close a group, and those that do nothing. */
  method ExecuteOther(s: State, c: Code, buf: Buffer, index: nat, op: Opcode, size: nat, ghost drawn: nat) returns (halt: Option<Outcome>)
    requires buf.Valid() && s.rng !in buf.Repr && !Draws(op) && !Copies(op)
    modifies buf, buf.Repr
    ensures buf.Valid() && fresh(buf.Repr - old(buf.Repr)) && s.rng !in buf.Repr
    ensures ExecOther(c, old(Abs(index, buf, drawn)), op, size) == Reached(halt, index + size, buf, drawn)
  {
    halt := None;
    if op.Setmark? {
      GenerateSetmark(buf, index, size, drawn);
      return;
    }
    if op.Capturemark? {
      if index + 1 >= |c.codes| {
        return Some(Panicked(CodesOutOfRange));
      }
      halt := GenerateBackmark(buf, index, size, true, c.codes[index + 1], drawn);
      return;
    }
    if op.Getmark? {
      halt := GenerateBackmark(buf, index, size, false, -1, drawn);
    }
  }


  /** One iteration of the loop of `generate`: decode the instruction at `index` and carry it out. */
  method StepAt(s: State, c: Code, buf: Buffer, index: nat) returns (halt: Option<Outcome>, size: nat)
    requires index < |c.codes| && buf.Valid() && s.rng !in buf.Repr
    modifies buf, buf.Repr, s.rng
    ensures buf.Valid() && fresh(buf.Repr - old(buf.Repr)) && s.rng !in buf.Repr
    ensures Step(c, ConfigOf(s), old(Abs(index, buf, s.rng.drawn))) == Reached(halt, index + size, buf, s.rng.drawn)
    ensures halt.Some? ==> s.rng.drawn == old(s.rng.drawn)
  {
    var code := c.codes[index];
    var width := OpcodeSize(code);
    if width.None? {
      return Some(Panicked(UnexpectedOpcode(Masked(code)))), 0;
    }
    size := width.value;
    var op := Decode(Masked(code)).value;
    halt := Execute(s, c, buf, index, op, size);
  }

  /**
    `generate`: run the instructions of `c` from the first word to the last with
    a fresh `Buffer`, and return the current segment. The result is exactly
    `Run` from the initial state, given the draws the random source had already
    made, and the random source is left having made exactly `RunDrawn` draws.
   */
  method Generate(s: State, c: Code) returns (result: Outcome)
    modifies s.rng
    ensures result == Run(c, ConfigOf(s), Initial(old(s.rng.drawn)))
    ensures s.rng.drawn == RunDrawn(c, ConfigOf(s), Initial(old(s.rng.drawn)))
  {
    ghost var cfg := ConfigOf(s);
    ghost var start := Initial(s.rng.drawn);
    var buf := new Buffer();
    var index := 0;
    ghost var at := Abs(index, buf, s.rng.drawn);
    assert at == start;
    while index < |c.codes|
      invariant buf.Valid() && fresh(buf.Repr)
      invariant at == Abs(index, buf, s.rng.drawn)
      invariant Run(c, cfg, at) == Run(c, cfg, start)
      invariant RunDrawn(c, cfg, at) == RunDrawn(c, cfg, start)
      decreases |c.codes| - index
    {
      var halt, size := StepAt(s, c, buf, index);
      if halt.Some? {
        return halt.value;
      }
      at := Abs(index + size, buf, s.rng.drawn);
      index := index + size;
    }
    result := Generated(buf.String());
  }
}
