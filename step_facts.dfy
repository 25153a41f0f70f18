/** Properties of the transition step `Engine.StepSpec` and of `is_halt`. */
module StepFacts {
  import opened Tokenizer
  import opened Engine
  import opened LoaderFacts

  /** The lowest-index matching instruction is the one applied. */
  lemma StepAppliesFirstMatch(c: Config, i: nat)
    requires CanStep(c) && c.tapeCell < |c.tape| && i < |c.instructions|
    requires c.instructions[i].IsMatching(c.state, c.tape[c.tapeCell])
    requires forall j :: 0 <= j < i ==> !c.instructions[j].IsMatching(c.state, c.tape[c.tapeCell])
    ensures c.instructions[i].direction == Left ==> c.tapeCell > 0
    ensures StepSpec(c) ==
      Apply(c, c.instructions[i].newState, c.instructions[i].newSymbol, c.instructions[i].direction)
  {
  }

  /** An instruction with the same state and symbol as an earlier one never
      fires. */
  lemma ShadowedRuleNeverFires(ins: seq<Instruction>, i: nat, j: nat, state: string, symbol: char)
    requires i < j < |ins|
    requires ins[i].currentState == ins[j].currentState
    requires ins[i].currentSymbol == ins[j].currentSymbol
    ensures FirstMatch(ins, state, symbol) != Some(j)
  {
  }

  /** Without a matching instruction the step changes nothing at all. */
  lemma StepWithoutMatchChangesNothing(c: Config)
    requires c.tapeCell < |c.tape|
    requires forall j :: 0 <= j < |c.instructions| ==> !c.instructions[j].IsMatching(c.state, c.tape[c.tapeCell])
    ensures CanStep(c) && StepSpec(c) == c
  {
  }

  /** A left move chosen at cell 0 is exactly what `step` cannot do. */
  lemma LeftAtCellZeroCannotStep(c: Config, i: nat)
    requires c.tapeCell == 0 && 0 < |c.tape| && i < |c.instructions|
    requires FirstMatch(c.instructions, c.state, c.tape[0]) == Some(i)
    ensures !CanStep(c) <==> c.instructions[i].direction == Left
  {
  }

  /** A right move from the last cell leaves the head just past the tape, so
      the next step is possible only with no instructions at all. */
  lemma RightMoveOffTheEnd(c: Config, newState: string, newSymbol: char)
    requires |c.tape| > 0 && c.tapeCell == |c.tape| - 1
    ensures var r := Apply(c, newState, newSymbol, Right);
      r.tapeCell == |r.tape| && (CanStep(r) <==> r.instructions == [])
  {
  }

  /** A halted machine whose halt state has no instruction is a fixed point
      of `step`: the driver loop `while !is_halt()` stops at such a machine,
      and stepping it further would change nothing. */
  lemma HaltedWithoutRulesIsFixed(c: Config)
    requires c.Halted()
    requires c.tapeCell < |c.tape|
    requires forall j :: 0 <= j < |c.instructions| ==> c.instructions[j].currentState != c.haltState
    ensures CanStep(c) && StepSpec(c) == c
  {
    StepWithoutMatchChangesNothing(c);
  }

  /** Appending copies of instructions already present never changes which
      instruction fires. */
  lemma {:induction false} CopiesDoNotChangeFirstMatch(ins: seq<Instruction>, extra: seq<Instruction>, state: string, symbol: char)
    requires forall y :: y in extra ==> y in ins
    ensures FirstMatch(ins + extra, state, symbol) == FirstMatch(ins, state, symbol)
  {
    var m := FirstMatch(ins, state, symbol);
    var n := FirstMatch(ins + extra, state, symbol);
    forall k | 0 <= k < |ins| ensures (ins + extra)[k] == ins[k] { }
    if m.None? {
      forall k | |ins| <= k < |ins + extra|
        ensures !(ins + extra)[k].IsMatching(state, symbol)
      {
        var y := (ins + extra)[k];
        assert y == extra[k - |ins|] && y in extra;
      }
    }
  }

  /** Reset, as the interactive driver performs it: loading the same lines
      again on a machine that already holds their rules. The head stays
      where it was, the machine is the declared one (so state and tape return
      to those of the last two-token line, if there is one), the rules are
      appended again, and the step behaves as if they had not been. */
  lemma ReloadKeepsStepBehaviour(m: Config, lines: seq<string>)
    requires Load(m, lines).outcome == Done
    requires forall y :: y in Rules(lines) ==> y in m.instructions
    requires CanStep(Load(m, lines).config.(instructions := m.instructions))
    ensures var r := Load(m, lines).config;
      r == Declared(m, lines) &&
      r.tapeCell == m.tapeCell &&
      r.instructions == m.instructions + Rules(lines) &&
      CanStep(r) &&
      StepSpec(r) == StepSpec(r.(instructions := m.instructions)).(instructions := r.instructions)
  {
    LoadSucceedsIff(m, lines);
    LoadMeetsDeclared(m, lines);
    var r := Load(m, lines).config;
    var base := r.(instructions := m.instructions);
    if Rules(lines) == [] {
      assert r.instructions == m.instructions;
    } else {
      assert Rules(lines)[0] in m.instructions;
      CopiesDoNotChangeFirstMatch(m.instructions, Rules(lines), r.state, r.tape[r.tapeCell]);
    }
  }

  /** The worked example, loaded: tape `101`, halt state `qH`, and the
      rule `q0 1 q0 0 right`. */
  lemma ExampleLoad()
    ensures Load(Config("", "", [], 0, []), ["q0 101", "qH", "q0 1 q0 0 right"]) ==
      LoadResult(Config("q0", "qH", "101", 0, [Instruction("q0", '1', "q0", '0', Right)]), Done)
  {
    var c0 := Config("", "", [], 0, []);
    var c1 := Config("q0", "", "101", 0, []);
    var c2 := Config("q0", "qH", "101", 0, []);
    var c3 := Config("q0", "qH", "101", 0, [Instruction("q0", '1', "q0", '0', Right)]);
    ExampleLine0(c0);
    ExampleLine1(c1);
    ExampleLine2(c2);
    var lines := ["q0 101", "qH", "q0 1 q0 0 right"];
    var rest1 := ["qH", "q0 1 q0 0 right"];
    var rest2 := ["q0 1 q0 0 right"];
    assert Load(c2, rest2) == LoadResult(c3, Done) by {
      assert rest2[1..] == [];
    }
    assert Load(c1, rest1) == LoadResult(c3, Done) by {
      assert rest1[1..] == rest2;
    }
    assert Load(c0, lines) == LoadResult(c3, Done) by {
      assert lines[1..] == rest1;
    }
  }

  lemma ExampleLine0(c: Config)
    ensures LoadLine(c, "q0 101") == LoadResult(c.(state := "q0", tape := "101"), Done)
  {
    assert "q0 101" == Join(["q0", "101"]);
    JoinedLineTokens(["q0", "101"]);
    StartLineSets(c, "q0 101");
  }

  lemma ExampleLine1(c: Config)
    ensures LoadLine(c, "qH") == LoadResult(c.(haltState := "qH"), Done)
  {
    assert "qH" == Join(["qH"]);
    JoinedLineTokens(["qH"]);
    HaltLineSets(c, "qH");
  }

  lemma ExampleLine2(c: Config)
    ensures LoadLine(c, "q0 1 q0 0 right") ==
      LoadResult(c.(instructions := c.instructions + [Instruction("q0", '1', "q0", '0', Right)]), Done)
  {
    var ts := ["q0", "1", "q0", "0", "right"];
    ExampleRuleText(ts);
    JoinedLineTokens(ts);
    RuleLineAppends(c, "q0 1 q0 0 right");
  }

  lemma ExampleRuleText(ts: seq<string>)
    requires ts == ["q0", "1", "q0", "0", "right"]
    ensures Join(ts) == "q0 1 q0 0 right"
  {
    assert Join(ts[4..]) == "right";
    assert ts[3..][1..] == ts[4..];
    assert Join(ts[3..]) == "0 right";
    assert ts[2..][1..] == ts[3..];
    assert Join(ts[2..]) == "q0 0 right";
    assert ts[1..][1..] == ts[2..];
    assert Join(ts[1..]) == "1 q0 0 right";
  }

  /** The worked example, one step later: `0` is written under the head, the
      head moves right and the state stays `q0`, which is not the halt state. */
  lemma ExampleStep()
    ensures var rule := Instruction("q0", '1', "q0", '0', Right);
      var c := Config("q0", "qH", "101", 0, [rule]);
      CanStep(c) && StepSpec(c) == Config("q0", "qH", "001", 1, [rule]) && !StepSpec(c).Halted()
  {
    var rule := Instruction("q0", '1', "q0", '0', Right);
    var c := Config("q0", "qH", "101", 0, [rule]);
    StepAppliesFirstMatch(c, 0);
    assert "101"[0 := '0'] == "001";
  }
}
