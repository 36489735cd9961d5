/**
  What one iteration of `generate` does to the output, instruction family by
  instruction family, and what the whole walk guarantees.
 */
module Properties {
  import opened Wrappers
  import opened Runes
  import opened Opcodes
  import opened States
  import opened Gen

  // ---------------------------------------------------------------------------
  // Drawing instructions

  /**
    A drawing plan that goes ahead appends exactly the drawn runes, one draw
    per rune, each of them one of the candidates; with candidates to draw from
    it always goes ahead, and with none it panics exactly when a rune is asked for.
   */
  lemma PerformAppendsCandidates(cfg: Config, st: MState, size: nat, candidates: seq<Rune>, n: int)
    ensures Perform(cfg, st, size, Drawing(candidates, n)).Halt? <==> n > 0 && |candidates| == 0
    ensures Perform(cfg, st, size, Drawing(candidates, n)).Halt? ==>
      Perform(cfg, st, size, Drawing(candidates, n)).outcome == Panicked(EmptyChoice)
    ensures Perform(cfg, st, size, Drawing(candidates, n)).Continue? ==>
      var next := Perform(cfg, st, size, Drawing(candidates, n)).next;
      && next.stack == st.stack && next.marks == st.marks
      && |next.cur| == |st.cur| + (if n <= 0 then 0 else n)
      && next.cur[..|st.cur|] == st.cur
      && next.drawn == st.drawn + (if n <= 0 then 0 else n)
      && forall k :: |st.cur| <= k < |next.cur| ==> exists x :: x in candidates && next.cur[k] == Written(x)
  {
    var r := Perform(cfg, st, size, Drawing(candidates, n));
    if n > 0 && |candidates| == 0 {
      assert r == Halt(Panicked(EmptyChoice));
    } else {
      var drawn := Draw(cfg.oracle, st.drawn, candidates, n);
      DrawFromChars(cfg.oracle, st.drawn, candidates, n);
      var next := EmitDrawn(st, size, drawn);
      assert r == Continue(next);
      assert next.cur == st.cur + WrittenAll(drawn);
      forall k | |st.cur| <= k < |next.cur|
        ensures exists x :: x in candidates && next.cur[k] == Written(x)
      {
        var x := drawn[k - |st.cur|];
        assert x in candidates && next.cur[k] == Written(x);
      }
    }
  }

  /** Drawing from one candidate writes that candidate's character once per draw. */
  lemma WrittenSingleton(oracle: Oracle, start: nat, x: Rune, n: int)
    ensures forall j :: 0 <= j < |Draw(oracle, start, [x], n)| ==> WrittenAll(Draw(oracle, start, [x], n))[j] == Written(x)
  {
    var drawn := Draw(oracle, start, [x], n);
    DrawSingleton(oracle, start, x, n);
    forall j | 0 <= j < |drawn|
      ensures WrittenAll(drawn)[j] == Written(x)
    {
      assert drawn[j] == x;
    }
  }

  /** A plan with a single candidate always goes ahead and writes that candidate once per draw. */
  lemma PerformSingleton(cfg: Config, st: MState, size: nat, x: Rune, n: int)
    ensures
      var r := Perform(cfg, st, size, Drawing([x], n));
      && r.Continue?
      && r.next == st.(index := st.index + size,
                       cur := st.cur + WrittenAll(Draw(cfg.oracle, st.drawn, [x], n)),
                       drawn := st.drawn + (if n <= 0 then 0 else n))
      && |r.next.cur| == |st.cur| + (if n <= 0 then 0 else n)
      && forall k :: |st.cur| <= k < |r.next.cur| ==> r.next.cur[k] == Written(x)
  {
    var drawn := Draw(cfg.oracle, st.drawn, [x], n);
    var w := WrittenAll(drawn);
    WrittenSingleton(cfg.oracle, st.drawn, x, n);
    var next := st.(index := st.index + size, cur := st.cur + w, drawn := st.drawn + (if n <= 0 then 0 else n));
    assert Perform(cfg, st, size, Drawing([x], n)) == Continue(next);
    forall k | |st.cur| <= k < |next.cur|
      ensures next.cur[k] == Written(x)
    {
      assert next.cur[k] == w[k - |st.cur|] && k - |st.cur| < |drawn|;
    }
  }

  /** The three members of the `One` family. */
  predicate OneFamily(op: Opcode)
  {
    op.One? || op.Onerep? || op.Oneloop?
  }

  /** The three members of the `Notone` family. */
  predicate NotoneFamily(op: Opcode)
  {
    op.Notone? || op.Notonerep? || op.Notoneloop?
  }

  /** The three members of the `Set` family. */
  predicate SetFamily(op: Opcode)
  {
    op.Set? || op.Setrep? || op.Setloop?
  }

  /**
    `One`, `Onerep`, `Oneloop`: when the operands are there, the instruction
    writes its operand rune (truncated to 32 bits) exactly `Count` times, and
    still consumes one draw per rune.
   */
  lemma OneRepeatsOperand(c: Code, cfg: Config, st: MState, op: Opcode, size: nat)
    requires OneFamily(op)
    requires st.index + 1 < |c.codes| && Count(c.codes, st.index, size).Some?
    ensures
      var n := Count(c.codes, st.index, size).value;
      var r := Exec(c, cfg, st, op, size);
      && r.Continue?
      && r.next == st.(index := st.index + size,
                       cur := st.cur + WrittenAll(Draw(cfg.oracle, st.drawn, [RuneOf(c.codes[st.index + 1])], n)),
                       drawn := st.drawn + (if n <= 0 then 0 else n))
      && |r.next.cur| == |st.cur| + (if n <= 0 then 0 else n)
      && forall k :: |st.cur| <= k < |r.next.cur| ==> r.next.cur[k] == Written(RuneOf(c.codes[st.index + 1]))
  {
    var n := Count(c.codes, st.index, size).value;
    var x := RuneOf(c.codes[st.index + 1]);
    assert DrawPlan(c, cfg.chars, st.index, op, size) == Drawing([x], n);
    PerformSingleton(cfg, st, size, x, n);
  }

  /**
    A three-word instruction of the `One`, `Notone` or `Set` family whose count
    is the sentinel `MaxInt32` (the `{n,}` loop) writes nothing and draws
    nothing: only the preceding repeat produces characters. The `One` and
    `Notone` forms always go ahead; the `Set` forms still fail or panic on their
    class operand.
   */
  lemma UnboundedLoopWritesNothing(c: Code, cfg: Config, st: MState, op: Opcode)
    requires op.Onerep? || op.Oneloop? || op.Notonerep? || op.Notoneloop? || op.Setrep? || op.Setloop?
    requires st.index + 2 < |c.codes| && c.codes[st.index + 2] == MaxInt32
    ensures Exec(c, cfg, st, op, 3).Continue? ==> Exec(c, cfg, st, op, 3) == Continue(Skip(st, 3))
    ensures !SetFamily(op) ==> Exec(c, cfg, st, op, 3).Continue?
    ensures SetFamily(op) ==>
      (Exec(c, cfg, st, op, 3).Continue? <==>
         0 <= c.codes[st.index + 1] < |c.sets| && SetChars(cfg.chars, c.sets[c.codes[st.index + 1]]) != [])
  {
    var x := RuneOf(c.codes[st.index + 1]);
    if OneFamily(op) {
      assert DrawPlan(c, cfg.chars, st.index, op, 3) == Drawing([x], 0);
      PerformNothing(cfg, st, 3, [x]);
    } else if NotoneFamily(op) {
      assert DrawPlan(c, cfg.chars, st.index, op, 3) == Drawing(NotoneChars(cfg.chars, x), 0);
      PerformNothing(cfg, st, 3, NotoneChars(cfg.chars, x));
    } else if 0 <= c.codes[st.index + 1] < |c.sets| && SetChars(cfg.chars, c.sets[c.codes[st.index + 1]]) != [] {
      var possible := SetChars(cfg.chars, c.sets[c.codes[st.index + 1]]);
      assert DrawPlan(c, cfg.chars, st.index, op, 3) == Drawing(possible, 0);
      PerformNothing(cfg, st, 3, possible);
    }
  }

  /** Drawing no rune at all goes ahead, writes nothing and consumes no draw. */
  lemma PerformNothing(cfg: Config, st: MState, size: nat, candidates: seq<Rune>)
    ensures Perform(cfg, st, size, Drawing(candidates, 0)) == Continue(Skip(st, size))
  {
    assert Draw(cfg.oracle, st.drawn, candidates, 0) == [];
  }

  /**
    `Notone`, `Notonerep`, `Notoneloop`: when the operands are there, the
    instruction panics exactly when a rune is asked for and no alphabet member
    qualifies; otherwise it appends exactly `Count` runes, one draw each, every
    one an alphabet member that differs from the excluded operand (any member
    when the operand is `'.'`), and leaves the groups alone.
   */
  lemma NotoneAvoidsExcluded(c: Code, cfg: Config, st: MState, op: Opcode, size: nat)
    requires NotoneFamily(op)
    requires st.index + 1 < |c.codes| && Count(c.codes, st.index, size).Some?
    ensures
      var n := Count(c.codes, st.index, size).value;
      var exclude := RuneOf(c.codes[st.index + 1]);
      var r := Exec(c, cfg, st, op, size);
      && (r.Halt? <==> n > 0 && forall x :: x in cfg.chars ==> x == exclude && exclude != '.' as int)
      && (r.Halt? ==> r.outcome == Panicked(EmptyChoice))
      && (r.Continue? ==>
            && |r.next.cur| == |st.cur| + (if n <= 0 then 0 else n) && r.next.cur[..|st.cur|] == st.cur
            && r.next.stack == st.stack && r.next.marks == st.marks
            && r.next.drawn == st.drawn + (if n <= 0 then 0 else n))
      && (r.Continue? ==> forall k :: |st.cur| <= k < |r.next.cur| ==>
            exists x :: x in cfg.chars && (x != exclude || exclude == '.' as int) && r.next.cur[k] == Written(x))
  {
    var n := Count(c.codes, st.index, size).value;
    var exclude := RuneOf(c.codes[st.index + 1]);
    var possible := NotoneChars(cfg.chars, exclude);
    assert DrawPlan(c, cfg.chars, st.index, op, size) == Drawing(possible, n);
    PerformAppendsCandidates(cfg, st, size, possible, n);
    if exclude != '.' as int && |possible| != 0 {
      assert possible[0] in cfg.chars && possible[0] != exclude;
    }
    if exclude == '.' as int && |cfg.chars| != 0 {
      assert cfg.chars[0] in possible;
    }
  }

  /**
    `Set`, `Setrep`, `Setloop`: with a valid class index, the instruction fails
    exactly when no alphabet member belongs to the class, even when the count
    is 0; otherwise every rune it writes is an alphabet member of the class.
   */
  lemma SetDrawsMembers(c: Code, cfg: Config, st: MState, op: Opcode, size: nat)
    requires SetFamily(op)
    requires st.index + 1 < |c.codes| && 0 <= c.codes[st.index + 1] < |c.sets|
    requires Count(c.codes, st.index, size).Some?
    ensures Exec(c, cfg, st, op, size).Halt? <==> forall x :: x in cfg.chars ==> !c.sets[c.codes[st.index + 1]].charIn(x)
    ensures Exec(c, cfg, st, op, size).Halt? ==> Exec(c, cfg, st, op, size).outcome == Failed(NoSuitableChars(st.index))
    ensures Exec(c, cfg, st, op, size).Continue? ==>
      var next := Exec(c, cfg, st, op, size).next;
      forall k :: |st.cur| <= k < |next.cur| ==>
        exists x :: x in cfg.chars && c.sets[c.codes[st.index + 1]].charIn(x) && next.cur[k] == Written(x)
  {
    var cls := c.sets[c.codes[st.index + 1]];
    var possible := SetChars(cfg.chars, cls);
    if |possible| == 0 {
      SetFailsWithoutMembers(c, cfg, st, op, size);
    } else {
      var w := possible[0];
      assert w in cfg.chars && cls.charIn(w);
      assert !(forall x :: x in cfg.chars ==> !cls.charIn(x));
      SetWritesMembers(c, cfg, st, op, size);
    }
  }

  /** A `Set` family instruction with a usable member goes ahead and writes only alphabet members of the class. */
  lemma SetWritesMembers(c: Code, cfg: Config, st: MState, op: Opcode, size: nat)
    requires SetFamily(op)
    requires st.index + 1 < |c.codes| && 0 <= c.codes[st.index + 1] < |c.sets|
    requires SetChars(cfg.chars, c.sets[c.codes[st.index + 1]]) != [] && Count(c.codes, st.index, size).Some?
    ensures Exec(c, cfg, st, op, size).Continue?
    ensures
      var next := Exec(c, cfg, st, op, size).next;
      forall k :: |st.cur| <= k < |next.cur| ==>
        exists x :: x in cfg.chars && c.sets[c.codes[st.index + 1]].charIn(x) && next.cur[k] == Written(x)
  {
    var cls := c.sets[c.codes[st.index + 1]];
    var n := Count(c.codes, st.index, size).value;
    var possible := SetChars(cfg.chars, cls);
    var drawn := Draw(cfg.oracle, st.drawn, possible, n);
    SetGoesAhead(c, cfg, st, op, size);
    DrawFromChars(cfg.oracle, st.drawn, possible, n);
    EmitsClassMembers(cfg.chars, cls, st, size, drawn);
  }

  /** A `Set` family instruction with a usable member draws `Count` runes from the usable members. */
  lemma SetGoesAhead(c: Code, cfg: Config, st: MState, op: Opcode, size: nat)
    requires SetFamily(op)
    requires st.index + 1 < |c.codes| && 0 <= c.codes[st.index + 1] < |c.sets|
    requires SetChars(cfg.chars, c.sets[c.codes[st.index + 1]]) != [] && Count(c.codes, st.index, size).Some?
    ensures Exec(c, cfg, st, op, size) == Continue(EmitDrawn(st, size,
      Draw(cfg.oracle, st.drawn, SetChars(cfg.chars, c.sets[c.codes[st.index + 1]]), Count(c.codes, st.index, size).value)))
  {
    SetExec(c, cfg, st, op, size);
  }

  /** Appending runes drawn from the class's usable members writes only alphabet members of the class. */
  lemma EmitsClassMembers(chars: seq<Rune>, cls: CharSet, st: MState, size: nat, drawn: seq<Rune>)
    requires forall j :: 0 <= j < |drawn| ==> drawn[j] in SetChars(chars, cls)
    ensures forall k :: |st.cur| <= k < |EmitDrawn(st, size, drawn).cur| ==>
      exists x :: x in chars && cls.charIn(x) && EmitDrawn(st, size, drawn).cur[k] == Written(x)
  {
    var next := EmitDrawn(st, size, drawn);
    forall k | |st.cur| <= k < |next.cur|
      ensures exists x :: x in chars && cls.charIn(x) && next.cur[k] == Written(x)
    {
      var x := drawn[k - |st.cur|];
      assert x in SetChars(chars, cls);
      assert next.cur[k] == Written(x);
    }
  }

  /** The `Set` family carries out the plan `SetPlan` describes. */
  lemma SetExec(c: Code, cfg: Config, st: MState, op: Opcode, size: nat)
    requires SetFamily(op)
    ensures Exec(c, cfg, st, op, size) == Perform(cfg, st, size, SetPlan(c, cfg.chars, st.index, size))
  {
  }

  /**
    A `Set` family instruction with no usable alphabet member fails whatever its
    count says, 0 included. Describing the instruction for the error reads the
    count word of the three-word forms, so when that word lies past the end the
    instruction panics instead.
   */
  lemma SetFailsWithoutMembers(c: Code, cfg: Config, st: MState, op: Opcode, size: nat)
    requires SetFamily(op)
    requires st.index + 1 < |c.codes| && 0 <= c.codes[st.index + 1] < |c.sets|
    requires SetChars(cfg.chars, c.sets[c.codes[st.index + 1]]) == []
    ensures size == 2 || st.index + 2 < |c.codes| ==> Exec(c, cfg, st, op, size) == Halt(Failed(NoSuitableChars(st.index)))
    ensures size != 2 && st.index + 2 >= |c.codes| ==> Exec(c, cfg, st, op, size) == Halt(Panicked(CodesOutOfRange))
  {
    if size == 2 || st.index + 2 < |c.codes| {
      assert DrawPlan(c, cfg.chars, st.index, op, size) == Halted(Failed(NoSuitableChars(st.index)));
    } else {
      assert DrawPlan(c, cfg.chars, st.index, op, size) == Halted(Panicked(CodesOutOfRange));
    }
  }

  /**
    A `Set` family instruction with a usable member appends exactly `Count`
    runes, one draw each, after the output so far, and leaves the groups alone.
   */
  lemma SetWritesCount(c: Code, cfg: Config, st: MState, op: Opcode, size: nat)
    requires SetFamily(op)
    requires st.index + 1 < |c.codes| && 0 <= c.codes[st.index + 1] < |c.sets|
    requires SetChars(cfg.chars, c.sets[c.codes[st.index + 1]]) != [] && Count(c.codes, st.index, size).Some?
    ensures Exec(c, cfg, st, op, size).Continue?
    ensures
      var n := Count(c.codes, st.index, size).value;
      var next := Exec(c, cfg, st, op, size).next;
      && |next.cur| == |st.cur| + (if n <= 0 then 0 else n) && next.cur[..|st.cur|] == st.cur
      && next.stack == st.stack && next.marks == st.marks
      && next.drawn == st.drawn + (if n <= 0 then 0 else n)
  {
    var possible := SetChars(cfg.chars, c.sets[c.codes[st.index + 1]]);
    var n := Count(c.codes, st.index, size).value;
    assert DrawPlan(c, cfg.chars, st.index, op, size) == Drawing(possible, n);
    PerformAppendsCandidates(cfg, st, size, possible, n);
  }

  /** `Nonboundary` and `NonECMABoundary`: one rune from the alphabet, or a panic when the alphabet is empty. */
  lemma NonboundaryDrawsOne(c: Code, cfg: Config, st: MState, op: Opcode, size: nat)
    requires op.Nonboundary? || op.NonECMABoundary?
    ensures Exec(c, cfg, st, op, size).Halt? <==> |cfg.chars| == 0
    ensures Exec(c, cfg, st, op, size).Halt? ==> Exec(c, cfg, st, op, size).outcome == Panicked(EmptyChoice)
    ensures Exec(c, cfg, st, op, size).Continue? ==>
      var next := Exec(c, cfg, st, op, size).next;
      && |next.cur| == |st.cur| + 1 && next.cur[..|st.cur|] == st.cur && next.drawn == st.drawn + 1
      && next.stack == st.stack && next.marks == st.marks
      && exists x :: x in cfg.chars && next.cur[|st.cur|] == Written(x)
  {
    assert DrawPlan(c, cfg.chars, st.index, op, size) == Drawing(cfg.chars, 1);
    PerformAppendsCandidates(cfg, st, size, cfg.chars, 1);
  }

  // ---------------------------------------------------------------------------
  // Copying instructions

  /** `Multi`: the string-table entry is written verbatim, without drawing. */
  lemma MultiWritesString(c: Code, cfg: Config, st: MState, size: nat)
    requires st.index + 1 < |c.codes| && 0 <= c.codes[st.index + 1] < |c.strings|
    ensures Exec(c, cfg, st, Multi, size)
      == Continue(st.(index := st.index + size, cur := st.cur + WrittenAll(c.strings[c.codes[st.index + 1]])))
  {
  }

  /** `Ref`: fails exactly when the group was never closed; otherwise repeats the captured text. */
  lemma RefRepeatsCapture(c: Code, cfg: Config, st: MState, size: nat)
    requires st.index + 1 < |c.codes|
    ensures
      var group := c.codes[st.index + 1];
      var r := Exec(c, cfg, st, Ref, size);
      && (r.Halt? <==> group !in st.marks)
      && (r.Halt? ==> r.outcome == Failed(RefNotCaptured(group)))
      && (r.Continue? ==> r.next == st.(index := st.index + size, cur := st.cur + st.marks[group]))
  {
  }

  /** `Boundary` and `ECMABoundary` write the boundary filler once. */
  lemma BoundaryWritesFiller(c: Code, cfg: Config, st: MState, size: nat)
    ensures Exec(c, cfg, st, Boundary, size) == Continue(st.(index := st.index + size, cur := st.cur + [Written(cfg.boundary)]))
    ensures Exec(c, cfg, st, ECMABoundary, size) == Exec(c, cfg, st, Boundary, size)
  {
  }

  // ---------------------------------------------------------------------------
  // Groups

  /** `Setmark` opens a group: the stack grows by the current segment and the flattened output is unchanged. */
  lemma SetmarkKeepsOutput(c: Code, cfg: Config, st: MState, size: nat)
    ensures Exec(c, cfg, st, Setmark, size).Continue?
    ensures
      var next := Exec(c, cfg, st, Setmark, size).next;
      && next.cur == [] && next.stack == st.stack + [st.cur] && next.marks == st.marks
      && Flat(next) == Flat(st)
  {
    ConcatSnoc(st.stack, st.cur);
  }

  /**
    Closing a group (`Capturemark` with `capture`, `Getmark` without) panics on
    an empty stack; otherwise it pops one segment, keeps the flattened output,
    and with `capture` records exactly the text written since the matching `Setmark`.
   */
  lemma BackmarkKeepsOutput(st: MState, size: nat, capture: bool, group: int)
    ensures ExecBackmark(st, size, capture, group).Halt? <==> st.stack == []
    ensures ExecBackmark(st, size, capture, group).Halt? ==>
      ExecBackmark(st, size, capture, group).outcome == Panicked(EmptyMarkStack)
    ensures ExecBackmark(st, size, capture, group).Continue? ==>
      var next := ExecBackmark(st, size, capture, group).next;
      && |next.stack| + 1 == |st.stack|
      && Flat(next) == Flat(st)
      && next.marks == (if capture then st.marks[group := st.cur] else st.marks)
  {
    if st.stack != [] {
      var n := |st.stack|;
      assert st.stack == st.stack[..n - 1] + [st.stack[n - 1]];
      ConcatSnoc(st.stack[..n - 1], st.stack[n - 1]);
    }
  }

  /** `Capturemark` closes a group and records it under its first operand; `Getmark` closes one without recording. */
  lemma CloseGroup(c: Code, cfg: Config, st: MState)
    requires st.index + 1 < |c.codes|
    ensures Exec(c, cfg, st, Capturemark, 3) == ExecBackmark(st, 3, true, c.codes[st.index + 1])
    ensures Exec(c, cfg, st, Getmark, 1) == ExecBackmark(st, 1, false, -1)
  {
  }

  // ---------------------------------------------------------------------------
  // Everything else

  /** The opcodes that neither write nor open or close a group only move the pointer. */
  lemma OthersOnlyAdvance(c: Code, cfg: Config, st: MState, op: Opcode, size: nat)
    requires !Draws(op) && !Copies(op) && !op.Setmark? && !op.Capturemark? && !op.Getmark?
    ensures Exec(c, cfg, st, op, size) == Continue(st.(index := st.index + size))
  {
  }

  // ---------------------------------------------------------------------------
  // The walk

  /** `before` is a prefix of `after`: the output so far is never rewritten. */
  predicate Extends(before: string, after: string)
  {
    |before| <= |after| && after[..|before|] == before
  }

  /** Writing to the current segment extends the flattened output by what is written. */
  lemma AppendExtendsFlat(st: MState, next: MState)
    requires next.stack == st.stack && Extends(st.cur, next.cur)
    ensures Extends(Flat(st), Flat(next))
  {
    assert Flat(next) == Concat(st.stack) + next.cur;
    assert Flat(next)[..|Flat(st)|] == Concat(st.stack) + next.cur[..|st.cur|];
  }

  /**
    No iteration of the loop takes back output: every step that continues
    leaves the flattened output (enclosing segments, then the current one)
    equal or longer, with the old output as a prefix.
   */
  lemma StepExtendsOutput(c: Code, cfg: Config, st: MState)
    requires st.index < |c.codes|
    ensures Step(c, cfg, st).Continue? ==> Extends(Flat(st), Flat(Step(c, cfg, st).next))
  {
    var code := c.codes[st.index];
    if Decode(Masked(code)).Some? {
      var op := Decode(Masked(code)).value;
      var size := Width(op);
      var r := Exec(c, cfg, st, op, size);
      assert Step(c, cfg, st) == r;
      if r.Continue? {
        if Draws(op) {
          var plan := DrawPlan(c, cfg.chars, st.index, op, size);
          PerformAppendsCandidates(cfg, st, size, plan.candidates, plan.count);
          AppendExtendsFlat(st, r.next);
        } else if Copies(op) {
          AppendExtendsFlat(st, r.next);
        } else if op.Setmark? {
          SetmarkKeepsOutput(c, cfg, st, size);
        } else if op.Capturemark? {
          BackmarkKeepsOutput(st, size, true, c.codes[st.index + 1]);
        } else if op.Getmark? {
          BackmarkKeepsOutput(st, size, false, -1);
        }
      }
    }
  }

  /** No iteration of the loop gives back a draw: the count of draws made only grows. */
  lemma StepDrawsForward(c: Code, cfg: Config, st: MState)
    requires st.index < |c.codes|
    ensures Step(c, cfg, st).Continue? ==> Step(c, cfg, st).next.drawn >= st.drawn
  {
    var code := c.codes[st.index];
    if Decode(Masked(code)).Some? {
      var op := Decode(Masked(code)).value;
      var size := Width(op);
      assert Step(c, cfg, st) == Exec(c, cfg, st, op, size);
      if Draws(op) {
        var plan := DrawPlan(c, cfg.chars, st.index, op, size);
        if plan.Drawing? {
          PerformAppendsCandidates(cfg, st, size, plan.candidates, plan.count);
        }
      }
    }
  }
}
