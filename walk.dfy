/**
  Properties of the whole walk of `generate`: when the instruction words are
  laid out as the regexp compiler lays them out (every instruction's operands
  lie inside `Codes`), the walk never reads past the end and never meets an
  unknown opcode; and a few small programs run to the text one expects.
 */
module Walk {
  import opened Wrappers
  import opened Runes
  import opened Opcodes
  import opened States
  import opened Gen
  import opened Properties

  /**
    From `i` on, the words decode into whole instructions: each opcode is known
    and its operands fit before the end of `codes`.
   */
  predicate WellLaid(codes: seq<int>, i: nat)
    decreases |codes| - i
  {
    i >= |codes|
    || (OpcodeSize(codes[i]).Some?
        && i + OpcodeSize(codes[i]).value <= |codes|
        && WellLaid(codes, i + OpcodeSize(codes[i]).value))
  }

  /** The outcomes that come from a malformed layout of the instruction words. */
  predicate LayoutFault(o: Outcome)
  {
    o == Panicked(CodesOutOfRange) || (o.Panicked? && o.kind.UnexpectedOpcode?)
  }

  /**
    With all its operands inside `Codes`, a drawing instruction's plan halts
    only on a table index out of range or on a class with no usable character.
   */
  lemma DrawPlanInRange(c: Code, chars: seq<Rune>, index: nat, op: Opcode)
    requires Draws(op) && index + Width(op) <= |c.codes|
    ensures DrawPlan(c, chars, index, op, Width(op)).Halted? ==>
      DrawPlan(c, chars, index, op, Width(op)).outcome in {Panicked(TableOutOfRange), Failed(NoSuitableChars(index))}
  {
    var size := Width(op);
    if op.One? || op.Onerep? || op.Oneloop? || op.Notone? || op.Notonerep? || op.Notoneloop? || op.Set? || op.Setrep? || op.Setloop? {
      assert size >= 2;
      assert Count(c.codes, index, size).Some?;
    }
  }

  /** A copying instruction with its operand inside `Codes` halts only on a table index or a missing capture. */
  lemma CopyInRange(c: Code, cfg: Config, st: MState, op: Opcode)
    requires Copies(op) && st.index + Width(op) <= |c.codes|
    ensures ExecCopy(c, cfg, st, op, Width(op)).Halt? ==> !LayoutFault(ExecCopy(c, cfg, st, op, Width(op)).outcome)
  {
  }

  /** The remaining instructions, with their operands inside `Codes`, halt only on an empty group stack. */
  lemma OtherInRange(c: Code, st: MState, op: Opcode)
    requires !Draws(op) && !Copies(op) && st.index + Width(op) <= |c.codes|
    ensures ExecOther(c, st, op, Width(op)).Halt? ==> ExecOther(c, st, op, Width(op)).outcome == Panicked(EmptyMarkStack)
  {
    if op.Capturemark? {
      assert st.index + 1 < |c.codes|;
    }
  }

  /** With all its operands inside `Codes`, an instruction never halts on a layout fault. */
  lemma ExecInRange(c: Code, cfg: Config, st: MState, op: Opcode)
    requires st.index + Width(op) <= |c.codes|
    ensures Exec(c, cfg, st, op, Width(op)).Halt? ==> !LayoutFault(Exec(c, cfg, st, op, Width(op)).outcome)
  {
    if Draws(op) {
      DrawPlanInRange(c, cfg.chars, st.index, op);
    } else if Copies(op) {
      CopyInRange(c, cfg, st, op);
    } else {
      OtherInRange(c, st, op);
    }
  }

  /** On well-laid words one iteration never halts on a layout fault, and the rest stays well laid. */
  lemma StepInRange(c: Code, cfg: Config, st: MState)
    requires st.index < |c.codes| && WellLaid(c.codes, st.index)
    ensures Step(c, cfg, st).Halt? ==> !LayoutFault(Step(c, cfg, st).outcome)
    ensures Step(c, cfg, st).Continue? ==> WellLaid(c.codes, Step(c, cfg, st).next.index)
  {
    var op := Decode(Masked(c.codes[st.index])).value;
    ExecInRange(c, cfg, st, op);
  }

  /** The walk over well-laid words never panics on a layout fault. */
  lemma {:induction false} RunInRange(c: Code, cfg: Config, st: MState)
    requires WellLaid(c.codes, st.index)
    ensures !LayoutFault(Run(c, cfg, st))
    decreases |c.codes| - st.index
  {
    if st.index < |c.codes| {
      StepInRange(c, cfg, st);
      if Step(c, cfg, st).Continue? {
        RunInRange(c, cfg, Step(c, cfg, st).next);
      }
    }
  }

  /** The walk from `st` ends with at least the draws `st` had made. */
  lemma {:induction false} RunDrawnGrows(c: Code, cfg: Config, st: MState)
    ensures RunDrawn(c, cfg, st) >= st.drawn
    decreases |c.codes| - st.index
  {
    if st.index < |c.codes| {
      StepDrawsForward(c, cfg, st);
      if Step(c, cfg, st).Continue? {
        RunDrawnGrows(c, cfg, Step(c, cfg, st).next);
      }
    }
  }

  /** Conversely, an unknown opcode the walk reaches ends it with the panic of `opcodeSize`. */
  lemma UnknownOpcodePanics(c: Code, cfg: Config, st: MState)
    requires st.index < |c.codes| && OpcodeSize(c.codes[st.index]).None?
    ensures Run(c, cfg, st) == Panicked(UnexpectedOpcode(Masked(c.codes[st.index])))
  {
    assert Step(c, cfg, st) == Halt(Panicked(UnexpectedOpcode(Masked(c.codes[st.index]))));
  }

  // ---------------------------------------------------------------------------
  // Small programs

  /**
    The program body of `a{2}a*` followed by `Stop`: `Onerep 'a' 2`, `Oneloop 'a' MaxInt32`, `Stop`.
    The regexp2 writer also wraps every program in `Lazybranch`, `Setmark` before
    the body and `Capturemark 0 -1` after it; that wrapper is not part of these words.
   */
  const RepeatCodes: seq<int> := [0, 97, 2, 3, 97, MaxInt32, 40]

  /** `a{2}a*` writes exactly "aa", whatever the random stream: the unbounded loop writes nothing. */
  lemma RepeatWritesTwice(cfg: Config, drawn: nat)
    ensures Run(Code(RepeatCodes, [], []), cfg, Initial(drawn)) == Generated("aa")
  {
    var c := Code(RepeatCodes, [], []);
    var s1 := MState(3, "aa", [], map[], drawn + 2);
    RepeatFirstStep(cfg, drawn);
    RunStep(c, cfg, Initial(drawn), s1);
    RepeatLastSteps(cfg, s1);
  }

  /** `Onerep 'a' 2` writes "aa" with two draws. */
  lemma RepeatFirstStep(cfg: Config, drawn: nat)
    ensures Step(Code(RepeatCodes, [], []), cfg, Initial(drawn)) == Continue(MState(3, "aa", [], map[], drawn + 2))
  {
    var c := Code(RepeatCodes, [], []);
    RuneOfFits(97);
    assert Decode(Masked(0)) == Some(Onerep);
    assert DrawPlan(c, cfg.chars, 0, Onerep, 3) == Drawing([97], 2);
    PerformSingletonTwice(cfg, Initial(drawn), 97);
  }

  /** `Oneloop 'a' MaxInt32` and `Stop` write nothing. */
  lemma RepeatLastSteps(cfg: Config, st: MState)
    requires st.index == 3
    ensures Run(Code(RepeatCodes, [], []), cfg, st) == Generated(st.cur)
  {
    var c := Code(RepeatCodes, [], []);
    var s2 := st.(index := 6);
    var s3 := st.(index := 7);
    assert Step(c, cfg, st) == Continue(s2) by {
      assert Decode(Masked(3)) == Some(Oneloop);
      UnboundedLoopWritesNothing(c, cfg, st, Oneloop);
    }
    RunStep(c, cfg, st, s2);
    RepeatStop(cfg, s2);
    RunStep(c, cfg, s2, s3);
  }

  /** `Stop` only moves the pointer past the end. */
  lemma RepeatStop(cfg: Config, st: MState)
    requires st.index == 6
    ensures Step(Code(RepeatCodes, [], []), cfg, st) == Continue(st.(index := 7))
  {
    assert Decode(Masked(40)) == Some(Stop);
  }

  /** A step that continues leaves the rest of the walk to the state it reaches. */
  lemma RunStep(c: Code, cfg: Config, st: MState, next: MState)
    requires st.index < |c.codes| && Step(c, cfg, st) == Continue(next)
    ensures Run(c, cfg, st) == Run(c, cfg, next)
  {
  }

  /** Two draws from the single candidate `'a'` write "aa". */
  lemma PerformSingletonTwice(cfg: Config, st: MState, a: Rune)
    requires a == 97
    ensures Perform(cfg, st, 3, Drawing([a], 2)) == Continue(st.(index := st.index + 3, cur := st.cur + "aa", drawn := st.drawn + 2))
  {
    var d := Draw(cfg.oracle, st.drawn, [a], 2);
    DrawSingleton(cfg.oracle, st.drawn, a, 2);
    assert d == [a, a];
    assert WrittenAll(d) == "aa";
  }

  /** The program body of `(a)\1` followed by `Stop`, without the wrapper: `Setmark`, `One 'a'`, `Capturemark 1 -1`, `Ref 1`, `Stop`. */
  const GroupCodes: seq<int> := [31, 9, 97, 32, 1, -1, 13, 1, 40]

  /** `(a)\1` writes "aa": the backreference repeats what the group wrote. */
  lemma GroupIsRepeated(cfg: Config, drawn: nat)
    ensures Run(Code(GroupCodes, [], []), cfg, Initial(drawn)) == Generated("aa")
  {
    GroupOpens(cfg, drawn);
    GroupWrites(cfg, drawn);
    GroupCloses(cfg, drawn + 1);
    GroupRefers(cfg, drawn + 1);
    GroupStops(cfg, drawn + 1);
  }

  /** `Setmark` opens a group. */
  lemma GroupOpens(cfg: Config, drawn: nat)
    ensures Run(Code(GroupCodes, [], []), cfg, Initial(drawn)) == Run(Code(GroupCodes, [], []), cfg, MState(1, "", [""], map[], drawn))
  {
    var c := Code(GroupCodes, [], []);
    assert Decode(Masked(31)) == Some(Setmark);
    RunStep(c, cfg, Initial(drawn), MState(1, "", [""], map[], drawn));
  }

  /** `One 'a'` writes "a" with one draw. */
  lemma GroupWrites(cfg: Config, drawn: nat)
    ensures Run(Code(GroupCodes, [], []), cfg, MState(1, "", [""], map[], drawn))
      == Run(Code(GroupCodes, [], []), cfg, MState(3, "a", [""], map[], drawn + 1))
  {
    var st := MState(1, "", [""], map[], drawn);
    GroupWritesStep(cfg, st);
    assert st.cur + "a" == "a";
    RunStep(Code(GroupCodes, [], []), cfg, st, MState(3, "a", [""], map[], drawn + 1));
  }

  lemma GroupWritesStep(cfg: Config, st: MState)
    requires st.index == 1
    ensures Step(Code(GroupCodes, [], []), cfg, st) == Continue(st.(index := 3, cur := st.cur + "a", drawn := st.drawn + 1))
  {
    var c := Code(GroupCodes, [], []);
    RuneOfFits(97);
    assert Decode(Masked(9)) == Some(One);
    assert DrawPlan(c, cfg.chars, 1, One, 2) == Drawing([97], 1);
    PerformSingletonOnce(cfg, st, 97);
  }

  /** `Capturemark 1 -1` closes the group and records its text as group 1. */
  lemma GroupCloses(cfg: Config, drawn: nat)
    ensures Run(Code(GroupCodes, [], []), cfg, MState(3, "a", [""], map[], drawn))
      == Run(Code(GroupCodes, [], []), cfg, MState(6, "a", [], map[1 := "a"], drawn))
  {
    var c := Code(GroupCodes, [], []);
    var st := MState(3, "a", [""], map[], drawn);
    assert Decode(Masked(32)) == Some(Capturemark);
    assert Exec(c, cfg, st, Capturemark, 3) == ExecOther(c, st, Capturemark, 3);
    assert ExecOther(c, st, Capturemark, 3) == ExecBackmark(st, 3, true, 1);
    assert "" + "a" == "a";
    assert ExecBackmark(st, 3, true, 1) == Continue(MState(6, "a", [], map[1 := "a"], drawn));
    RunStep(c, cfg, st, MState(6, "a", [], map[1 := "a"], drawn));
  }

  /** `Ref 1` writes the text of group 1 again. */
  lemma GroupRefers(cfg: Config, drawn: nat)
    ensures Run(Code(GroupCodes, [], []), cfg, MState(6, "a", [], map[1 := "a"], drawn))
      == Run(Code(GroupCodes, [], []), cfg, MState(8, "aa", [], map[1 := "a"], drawn))
  {
    var c := Code(GroupCodes, [], []);
    var st := MState(6, "a", [], map[1 := "a"], drawn);
    assert Decode(Masked(13)) == Some(Ref);
    assert Exec(c, cfg, st, Ref, 2) == ExecCopy(c, cfg, st, Ref, 2);
    assert ExecCopy(c, cfg, st, Ref, 2) == ExecRef(c, st, 2);
    assert "a" + "a" == "aa";
    RunStep(c, cfg, st, MState(8, "aa", [], map[1 := "a"], drawn));
  }

  /** `Stop` ends the walk with the current segment. */
  lemma GroupStops(cfg: Config, drawn: nat)
    ensures Run(Code(GroupCodes, [], []), cfg, MState(8, "aa", [], map[1 := "a"], drawn)) == Generated("aa")
  {
    var c := Code(GroupCodes, [], []);
    var st := MState(8, "aa", [], map[1 := "a"], drawn);
    assert Decode(Masked(40)) == Some(Stop);
    RunStep(c, cfg, st, st.(index := 9));
  }

  /** One draw from the single candidate `'a'` writes "a". */
  lemma PerformSingletonOnce(cfg: Config, st: MState, a: Rune)
    requires a == 97
    ensures Perform(cfg, st, 2, Drawing([a], 1)) == Continue(st.(index := st.index + 2, cur := st.cur + "a", drawn := st.drawn + 1))
  {
    var d := Draw(cfg.oracle, st.drawn, [a], 1);
    DrawSingleton(cfg.oracle, st.drawn, a, 1);
    assert d == [a];
    assert WrittenAll(d) == "a";
  }

  /** A class with no member in the alphabet makes `Set` fail, even before any draw. */
  lemma EmptyClassFails(chars: seq<Rune>, boundary: Rune, oracle: Oracle, drawn: nat)
    ensures Run(Code([11, 0], [CharSet(x => false)], []), Config(chars, boundary, oracle), Initial(drawn))
      == Failed(NoSuitableChars(0))
  {
    var c := Code([11, 0], [CharSet(x => false)], []);
    FilterRejectsAll(chars, c.sets[0].charIn);
    assert Decode(Masked(11)) == Some(Set);
    assert SetPlan(c, chars, 0, 2) == Halted(Failed(NoSuitableChars(0)));
  }

  /**
    `Setrep` over a class with no usable member and no count word: describing
    the instruction for the error reads past the end, so the walk panics.
   */
  lemma EmptyRepeatClassPanics(chars: seq<Rune>, boundary: Rune, oracle: Oracle, drawn: nat)
    ensures Run(Code([2, 0], [CharSet(x => false)], []), Config(chars, boundary, oracle), Initial(drawn))
      == Panicked(CodesOutOfRange)
  {
    var c := Code([2, 0], [CharSet(x => false)], []);
    FilterRejectsAll(chars, c.sets[0].charIn);
    assert Decode(Masked(2)) == Some(Setrep);
    assert SetPlan(c, chars, 0, 3) == Halted(Panicked(CodesOutOfRange));
  }

  /** A test no element passes leaves nothing. */
  lemma {:induction false} FilterRejectsAll(s: seq<Rune>, p: Rune -> bool)
    requires forall k :: 0 <= k < |s| ==> !p(s[k])
    ensures Filter(s, p) == []
  {
    if s != [] {
      FilterRejectsAll(s[..|s| - 1], p);
    }
  }
}
