/** The single-tape Turing machine engine: directions, instructions, the
    configuration loader and the transition step. */
module Engine {
  import opened Tokenizer

  /** Head movement after a transition (`LHS`, `RHS`, `STAY` in the source). */
  datatype Direction = Left | Right | Stay

  /** The two failures the engine reports; both are `InvalidData` errors in
      the source, told apart by their messages. */
  datatype Error = InvalidDirection | InvalidLine

  datatype Result<T> = Ok(value: T) | Err(error: Error)

  datatype Option<T> = None | Some(value: T)

  /** Outcome of a load: `Ok(())` or the first error met. */
  datatype Outcome = Done | Failed(error: Error)

  /** `Direction::str2dir`: exactly the three words are accepted. */
  function StrToDir(s: string): (r: Result<Direction>)
    ensures r.Ok? <==> s == "left" || s == "right" || s == "stay"
    ensures r.Err? ==> r.error == InvalidDirection
  {
    match s
    case "left" => Ok(Left)
    case "right" => Ok(Right)
    case "stay" => Ok(Stay)
    case _ => Err(InvalidDirection)
  }

  /** `Direction::dir2str`; parsing its word gives the direction back. */
  function DirToStr(d: Direction): (s: string)
    ensures StrToDir(s) == Ok(d)
  {
    match d
    case Left => "left"
    case Right => "right"
    case Stay => "stay"
  }

  /** One transition rule: in `currentState` reading `currentSymbol`, write
      `newSymbol`, enter `newState` and move the head by `direction`. */
  datatype Instruction = Instruction(
    currentState: string,
    currentSymbol: char,
    newState: string,
    newSymbol: char,
    direction: Direction)
  {
    predicate IsMatching(state: string, symbol: char) {
      state == currentState && symbol == currentSymbol
    }
  }

  /** The value of every field of a `TuringMachine`. */
  datatype Config = Config(
    state: string,
    haltState: string,
    tape: seq<char>,
    tapeCell: nat,
    instructions: seq<Instruction>)
  {
    /** `is_halt`. */
    predicate Halted() {
      state == haltState
    }
  }

  /** Index of the first instruction of `ins` matching `(state, symbol)`. */
  function FirstMatch(ins: seq<Instruction>, state: string, symbol: char): (r: Option<nat>)
    ensures r.Some? ==> r.value < |ins| && ins[r.value].IsMatching(state, symbol)
    ensures r.Some? ==> forall j :: 0 <= j < r.value ==> !ins[j].IsMatching(state, symbol)
    ensures r.None? <==> forall j :: 0 <= j < |ins| ==> !ins[j].IsMatching(state, symbol)
  {
    if ins == [] then None
    else if ins[0].IsMatching(state, symbol) then Some(0)
    else match FirstMatch(ins[1..], state, symbol)
      case None => None
      case Some(i) => Some(i + 1)
  }

  /** Head displacement of a direction. */
  function Offset(d: Direction): int {
    match d
    case Left => -1
    case Right => 1
    case Stay => 0
  }

  /** `update`: write the symbol under the head, change state, move the head.
      A left move from cell 0 underflows `usize` in the source: a panic in a
      debug build, a wrap-around in a release build. */
  function Apply(c: Config, newState: string, newSymbol: char, dir: Direction): (r: Config)
    requires c.tapeCell < |c.tape|
    requires dir == Left ==> c.tapeCell > 0
    ensures r.state == newState
    ensures |r.tape| == |c.tape| && r.tape[c.tapeCell] == newSymbol
    ensures forall k :: 0 <= k < |c.tape| && k != c.tapeCell ==> r.tape[k] == c.tape[k]
    ensures r.tapeCell == c.tapeCell + Offset(dir)
    ensures r.haltState == c.haltState && r.instructions == c.instructions
  {
    c.(state := newState,
       tape := c.tape[c.tapeCell := newSymbol],
       tapeCell := c.tapeCell + Offset(dir))
  }

  /** What `step` needs so that it neither panics nor underflows: the head is on the tape
      whenever there is an instruction to compare against, and the chosen
      instruction does not move left from cell 0. */
  predicate CanStep(c: Config) {
    |c.instructions| > 0 ==>
      c.tapeCell < |c.tape| &&
      match FirstMatch(c.instructions, c.state, c.tape[c.tapeCell])
      case None => true
      case Some(i) => c.instructions[i].direction == Left ==> c.tapeCell > 0
  }

  /** `step`: apply the first matching instruction, or change nothing. */
  function StepSpec(c: Config): (r: Config)
    requires CanStep(c)
    ensures r.haltState == c.haltState && r.instructions == c.instructions
    ensures |r.tape| == |c.tape|
  {
    if |c.instructions| == 0 then c
    else match FirstMatch(c.instructions, c.state, c.tape[c.tapeCell])
      case None => c
      case Some(i) =>
        var ins := c.instructions[i];
        Apply(c, ins.newState, ins.newSymbol, ins.direction)
  }

  /** What one configuration line asks for. */
  datatype Directive =
    | Skip                                  // comment or blank line
    | Start(state: string, tape: seq<char>) // 2 tokens
    | Halt(state: string)                   // 1 token
    | Rule(ins: Instruction)                // 5 tokens
    | Bad(error: Error)                     // any other count, or a bad direction

  /** A comment: the raw line starts with `#`, or it is blank. */
  predicate IsComment(line: string) {
    (|line| > 0 && line[0] == '#') || IsBlank(line)
  }

  /** The directive of one line: comments are skipped, and otherwise the
      token count decides. */
  function ParseLine(line: string): (d: Directive)
    ensures d.Skip? <==> IsComment(line)
    ensures d.Start? ==> |Tokens(line)| == 2
    ensures d.Halt? ==> |Tokens(line)| == 1
    ensures d.Rule? ==> |Tokens(line)| == 5 && StrToDir(Tokens(line)[4]).Ok?
    ensures d.Bad? ==>
      !IsComment(line) && (d.error == InvalidLine <==> |Tokens(line)| !in {1, 2, 5})
  {
    if IsComment(line) then Skip
    else
      var t := Tokens(line);
      assert forall k :: 0 <= k < |t| ==> t[k] in t;
      if |t| == 2 then Start(t[0], t[1])
      else if |t| == 1 then Halt(t[0])
      else if |t| == 5 then
        match StrToDir(t[4])
        case Err(e) => Bad(e)
        case Ok(d) => Rule(Instruction(t[0], t[1][0], t[2], t[3][0], d))
      else Bad(InvalidLine)
  }

  datatype LoadResult = LoadResult(config: Config, outcome: Outcome)

  /** The effect of one line on the machine: a failing line changes nothing,
      the head is never touched, and at most one instruction is appended at
      the end of the list. */
  function LoadLine(c: Config, line: string): (r: LoadResult)
    ensures r.outcome.Failed? ==> r.config == c
    ensures r.config.tapeCell == c.tapeCell
    ensures |c.instructions| <= |r.config.instructions| <= |c.instructions| + 1
    ensures r.config.instructions[..|c.instructions|] == c.instructions
    ensures r.config.haltState != c.haltState ==> r.config.instructions == c.instructions
  {
    match ParseLine(line)
    case Skip => LoadResult(c, Done)
    case Start(s, t) => LoadResult(c.(state := s, tape := t), Done)
    case Halt(h) => LoadResult(c.(haltState := h), Done)
    case Rule(ins) => LoadResult(c.(instructions := c.instructions + [ins]), Done)
    case Bad(e) => LoadResult(c, Failed(e))
  }

  /** `load_cfg` over the lines of a configuration: lines are applied in
      order, and the first failing line stops the load with the effects of
      the earlier lines kept. */
  function Load(c: Config, lines: seq<string>): (r: LoadResult)
    ensures r.config.tapeCell == c.tapeCell
    ensures |c.instructions| <= |r.config.instructions|
    ensures r.config.instructions[..|c.instructions|] == c.instructions
    decreases |lines|
  {
    if lines == [] then LoadResult(c, Done)
    else
      var r := LoadLine(c, lines[0]);
      if r.outcome.Failed? then r else Load(r.config, lines[1..])
  }

  /** The machine. */
  class TuringMachine {
    var state: string
    var haltState: string
    var tape: seq<char>
    var tapeCell: nat
    var instructions: seq<Instruction>

    function Model(): Config
      reads this
    {
      Config(state, haltState, tape, tapeCell, instructions)
    }

    /** `new`: everything empty, so the machine starts out halted. */
    constructor ()
      ensures state == "" && haltState == "" && tape == [] && tapeCell == 0 && instructions == []
      ensures IsHalt()
    {
      state := "";
      haltState := "";
      tape := [];
      tapeCell := 0;
      instructions := [];
    }

    /** `is_halt`. */
    predicate IsHalt()
      reads this
    {
      Model().Halted()
    }

    /** `load_cfg`, reading its lines from `lines` rather than from a file. */
    method LoadCfg(lines: seq<string>) returns (outcome: Outcome)
      modifies this
      ensures Model() == Load(old(Model()), lines).config
      ensures outcome == Load(old(Model()), lines).outcome
    {
      for n := 0 to |lines|
        invariant Load(old(Model()), lines) == Load(Model(), lines[n..])
      {
        var line := lines[n];
        assert lines[n..][1..] == lines[n + 1..];
        if (|line| > 0 && line[0] == '#') || IsBlank(line) {
          continue;
        }
        var substrings := Tokens(line);
        assert forall k :: 0 <= k < |substrings| ==> substrings[k] in substrings;
        var count := |substrings|;
        if count == 2 {
          state := substrings[0];
          tape := substrings[1];
        } else if count == 1 {
          haltState := substrings[0];
        } else if count == 5 {
          var currentState := substrings[0];
          var currentSymbol := substrings[1][0];
          var newState := substrings[2];
          var newSymbol := substrings[3][0];
          var direction := StrToDir(substrings[4]);
          // The source unwraps here and panics; the error is returned instead.
          if direction.Err? {
            return Failed(direction.error);
          }
          instructions := instructions + [Instruction(currentState, currentSymbol, newState, newSymbol, direction.value)];
        } else {
          return Failed(InvalidLine);
        }
      }
      return Done;
    }

    /** `step`: scan the instructions in order and apply the first match. */
    method Step()
      requires CanStep(Model())
      modifies this
      ensures Model() == StepSpec(old(Model()))
    {
      for i := 0 to |instructions|
        invariant Model() == old(Model())
        invariant forall j :: 0 <= j < i ==> !instructions[j].IsMatching(state, tape[tapeCell])
      {
        if instructions[i].IsMatching(state, tape[tapeCell]) {
          var newState := instructions[i].newState;
          var symbol := instructions[i].newSymbol;
          var direction := instructions[i].direction;
          Update(newState, symbol, direction);
          return; // the source breaks out of the loop, which ends the method
        }
      }
    }

    /** `update`. */
    method Update(newState: string, newSymbol: char, dir: Direction)
      requires tapeCell < |tape|
      requires dir == Left ==> tapeCell > 0
      modifies this
      ensures Model() == Apply(old(Model()), newState, newSymbol, dir)
    {
      state := newState;
      tape := tape[tapeCell := newSymbol];
      match dir
      case Left => tapeCell := tapeCell - 1;
      case Right => tapeCell := tapeCell + 1;
      case Stay =>
    }
  }
}
