# Single-tape Turing machine engine

A model of the engine of TMS, a Turing machine simulator (`src/turing_machine.rs`).
A machine holds a current state, a halt state, a tape of characters, a head
position (`tape_cell`) and an ordered list of instructions. It is built empty,
filled by the configuration loader `load_cfg`, and driven by `step` until
`is_halt` says the current state is the halt state.

- `tokenizer.dfy` (module `Tokenizer`): the whitespace class of Rust's
  `char::is_whitespace`, the `trim().is_empty()` test and `split_whitespace`,
  with the facts the loader relies on (tokens are never empty; a line is blank
  exactly when it has no tokens; splitting a space-joined token list returns it).
- `engine.dfy` (module `Engine`): `Direction` with `str2dir`/`dir2str`,
  `Instruction` with `is_matching`, the value `Config` of all machine fields, the
  specification functions `FirstMatch`, `Apply` (`update`), `StepSpec` (`step`),
  `ParseLine`/`LoadLine`/`Load` (`load_cfg`), and the class `TuringMachine`
  whose fields mirror the struct. Its methods `LoadCfg`, `Step` and `Update`
  change the fields in place, as the source does, and are proved to leave
  exactly the state the specification functions describe.
- `loader_facts.dfy` (module `LoaderFacts`): what loading a configuration does.
  Comments are ignored. A two-token line sets state and tape. A one-token line
  sets the halt state. A five-token line appends one instruction. Other counts
  fail. Loading two pieces is loading one and then the other. The first bad line
  stops the load and keeps the effects of the lines before it. A successful load
  equals a declarative description in which the last two-token line and the last
  one-token line win, the rules are appended in order and the head is left alone.
  Reloading the same lines appends the rules a second time.
- `step_facts.dfy` (module `StepFacts`): what a step does. The first matching
  instruction is applied and a later one with the same key never fires. Without
  a match nothing changes. A left move at cell 0 is exactly the case `step`
  cannot handle. A right move from the last cell leaves the head off the tape. A
  halted machine with no rule for its halt state is a fixed point. Appending
  copies of existing rules, as a reset does, does not change what a step does.
  A worked example with tape `101` and the rule `q0 1 q0 0 right` is included.

Where the Rust code would fail at run time, the model has a precondition
instead. `step` requires the head to be on the tape whenever there is at least
one instruction, because the tape is indexed only inside the scan. It also
requires that the chosen instruction is not a left move from cell 0. That move
underflows `usize`: a debug build panics, and a release build wraps the head to
`usize::MAX` after the state and the cell have been written.

The model follows the code. There is no tape auto-extension and no blank
symbol. There are no `TapeUnderflow`, `EmptyTape` or `NoMatchingInstruction`
errors: a step without a match is a silent no-op. A reload keeps the head where
it was, overwrites state and tape only if the configuration has a two-token
line, and appends the rules again. A symbol field longer than one character is
cut to its first character.

## Model

| member | source | states |
|---|---|---|
| `Tokenizer.Tokens` | src/turing_machine.rs:82-83 | every token `split_whitespace` yields is non-empty and holds no whitespace, so `chars().next().unwrap()` on a token cannot panic |
| `Tokenizer.BlankIffNoTokens` | src/turing_machine.rs:78 | `trim().is_empty()` holds exactly when the line has no tokens |
| `Tokenizer.TokensOfJoin` | src/turing_machine.rs:82 | splitting tokens joined by single spaces gives the same tokens back |
| `Engine.StrToDir` | src/turing_machine.rs:12-19 | parsing succeeds exactly on `left`, `right` and `stay`, and fails with the invalid-direction error otherwise |
| `Engine.DirToStr` | src/turing_machine.rs:21-27 | the word of a direction parses back to that direction |
| `Tokenizer.TokensAfterBlank` | src/turing_machine.rs:82 | leading whitespace does not change the tokens of a line |
| `Engine.Instruction.IsMatching` | src/turing_machine.rs:39-41 | an instruction matches exactly the state and symbol it was written for |
| `Engine.Config.Halted` | src/turing_machine.rs:135-137 | a machine is halted exactly when its state equals its halt state |
| `Engine.TuringMachine.IsHalt` | src/turing_machine.rs:135-137 | `is_halt` is a read-only query: the halted test on the current fields |
| `Engine.ParseLine` | src/turing_machine.rs:78-115 | a line is skipped exactly when it is a comment; a start, halt or rule directive comes from a line with 2, 1 or 5 tokens (a rule only with a known direction); a bad line is not a comment, and its error is the invalid-line error exactly when the token count is not 1, 2 or 5 |
| `Engine.LoadLine` | src/turing_machine.rs:85-115 | one line never moves the head, appends at most one instruction at the end of the list, and changes nothing when it fails |
| `Engine.FirstMatch` | src/turing_machine.rs:122-124 | the result is the lowest index whose instruction matches state and symbol, and there is none exactly when no instruction matches |
| `Engine.Apply` | src/turing_machine.rs:155-164 | `update` sets the state, writes the symbol at the old head cell, keeps every other cell, the tape length, the halt state and the instructions, and moves the head by -1, +1 or 0 |
| `Engine.StepSpec` | src/turing_machine.rs:121-133 | a step never changes the halt state, the instructions or the tape length |
| `Engine.Load` | src/turing_machine.rs:76-118 | loading never touches the head and never removes instructions: the old list stays a prefix |
| `Engine.TuringMachine.constructor` | src/turing_machine.rs:62-70 | a new machine has empty state, halt state, tape and instructions, head 0, and is halted |
| `Engine.TuringMachine.LoadCfg` | src/turing_machine.rs:72-118 | the line loop leaves the fields and returns the outcome that `Load` gives for the old fields and the lines |
| `Engine.TuringMachine.Step` | src/turing_machine.rs:121-133 | the scan with early exit leaves the fields as `StepSpec` of the old fields |
| `Engine.TuringMachine.Update` | src/turing_machine.rs:155-164 | the in-place update leaves the fields as `Apply` of the old fields |
| `LoaderFacts.CommentLineChangesNothing` | src/turing_machine.rs:78-80 | a line starting with `#` or holding only whitespace changes nothing |
| `LoaderFacts.IndentedHashIsNotComment` | src/turing_machine.rs:78 | the `#` test uses the raw line: after any non-empty whitespace prefix, a `#` line is not a comment and its first token starts with `#` |
| `LoaderFacts.IndentedHashExample` | src/turing_machine.rs:78-92 | ` #x` is a one-token line that sets the halt state to `#x` |
| `LoaderFacts.StartLineSets` | src/turing_machine.rs:86-89 | any non-comment line with two tokens, whatever whitespace separates or surrounds them, sets the state to token 1 and the tape to exactly the characters of token 2, nothing else |
| `LoaderFacts.HaltLineSets` | src/turing_machine.rs:90-92 | any non-comment line with one token sets the halt state to it, nothing else |
| `LoaderFacts.RuleLineAppends` | src/turing_machine.rs:93-108 | any non-comment line with five tokens appends exactly one instruction at the end, from tokens 1, 3 and 5 and the first characters of tokens 2 and 4; with an unknown direction it fails and appends nothing |
| `LoaderFacts.JoinedLineTokens` | src/turing_machine.rs:78-83 | a line made of tokens joined by single spaces, not starting with `#`, is not a comment and splits into exactly those tokens |
| `LoaderFacts.OtherCountIsInvalidLine` | src/turing_machine.rs:109-114 | a non-comment line with a token count other than 1, 2 or 5 fails with the invalid-line error and changes nothing |
| `LoaderFacts.LoadAppend` | src/turing_machine.rs:76-116 | loading `a + b` is loading `a`, then `b` from the result unless `a` failed |
| `LoaderFacts.LoadSucceedsIff` | src/turing_machine.rs:76-118 | the load succeeds exactly when no line is malformed |
| `LoaderFacts.LoadStopsAtFirstBad` | src/turing_machine.rs:109-114 | the first malformed line ends the load with its error, keeping the effects of all lines before it |
| `LoaderFacts.LastStart` | src/turing_machine.rs:86-89 | the index found is a two-token line with no two-token line after it, or there is none |
| `LoaderFacts.LastHalt` | src/turing_machine.rs:90-92 | the index found is a one-token line with no one-token line after it, or there is none |
| `LoaderFacts.LoadMeetsDeclared` | src/turing_machine.rs:76-118 | a successful load gives the last two-token line's state and tape, the last one-token line's halt state, the old instructions followed by every rule in line order, and the old head |
| `LoaderFacts.ReloadAppendsRulesAgain` | src/turing_machine.rs:101-107 | loading the same lines again succeeds, keeps state, halt state, tape and head, and appends the rules a second time |
| `StepFacts.StepAppliesFirstMatch` | src/turing_machine.rs:121-133 | when instruction `i` is the first to match the state and the symbol under the head, the step is `update` with its new state, symbol and direction |
| `StepFacts.ShadowedRuleNeverFires` | src/turing_machine.rs:39-41 | an instruction with the same state and symbol as an earlier one is never the one chosen |
| `StepFacts.StepWithoutMatchChangesNothing` | src/turing_machine.rs:121-133 | when no instruction matches, the step is possible and changes no field |
| `StepFacts.LeftAtCellZeroCannotStep` | src/turing_machine.rs:160 | at cell 0, the step is impossible exactly when the chosen instruction moves left |
| `StepFacts.RightMoveOffTheEnd` | src/turing_machine.rs:161 | a right move from the last cell leaves the head at the tape length, and a further step is possible only with no instructions |
| `StepFacts.HaltedWithoutRulesIsFixed` | src/turing_machine.rs:135-137 | a machine whose state is the halt state, with no instruction for that state, is left unchanged by a step |
| `StepFacts.CopiesDoNotChangeFirstMatch` | src/turing_machine.rs:122-124 | appending copies of instructions already in the list never changes which instruction is chosen |
| `StepFacts.ReloadKeepsStepBehaviour` | src/turing_machine.rs:76-133 | reloading lines whose rules the machine already holds gives the declared machine, keeps the head, appends the rules again, and the next step is the same as without the appended copies |
| `StepFacts.ExampleLoad` | src/turing_machine.rs:76-118 | the lines `q0 101`, `qH`, `q0 1 q0 0 right` load to state `q0`, halt state `qH`, tape `101`, head 0 and that one rule |
| `StepFacts.ExampleStep` | src/turing_machine.rs:121-164 | one step on that machine gives tape `001`, head 1, state `q0`, not halted |

## Left out

- Opening the configuration file and reading its lines (`File::open(..).unwrap()`, `BufReader::lines`, the `line?` read error) is I/O. The loader takes the lines as a sequence of strings, without line terminators.
- `print_tape`, `print_info` and `Instruction::to_string` only print or format, so they are not modelled.
- `src/tui.rs`, `src/app.rs` and `src/main.rs` are terminal UI, event dispatch and command-line parsing. The reset that `src/app.rs` performs (calling `load_cfg` again) is covered by `StepFacts.ReloadKeepsStepBehaviour`.
- Engine.TuringMachine.LoadCfg: an unknown direction word makes the source panic at `unwrap`. The model returns `Failed(InvalidDirection)` instead and does not append the instruction. The other two `unwrap`s on token characters are proved never to fail.
- Engine.TuringMachine.Step: two run-time failures of the source are preconditions (`CanStep`). One is indexing `tape[tape_cell]` off the tape, a panic. The other is a left move from cell 0, a panic in a debug build and a wrap to `usize::MAX` in a release build. The wrapped head is not modelled.
- The head is an unbounded `nat`. A `usize` overflow of `tape_cell += 1` is not modelled. It cannot happen: the increment runs only after `tape[tape_cell]` was indexed, so the old head is below the tape length. The head can still end up past the tape after a reload with a shorter tape, because `load_cfg` never resets it.
- Characters are Unicode scalar values. Byte-level UTF-8 decoding of the file is not modelled.
