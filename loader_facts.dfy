/** Properties of the configuration loader `Engine.Load`. */
module LoaderFacts {
  import opened Tokenizer
  import opened Engine

  /** Comment and blank lines change nothing. */
  lemma CommentLineChangesNothing(c: Config, line: string)
    requires IsComment(line)
    ensures LoadLine(c, line) == LoadResult(c, Done)
  {
  }

  /** The `#` test looks at the raw line: a `#` after leading whitespace
      is not a comment marker but the first character of the first token. */
  lemma IndentedHashIsNotComment(w: string, rest: string)
    requires w != [] && IsBlank(w)
    ensures var line := w + "#" + rest;
      !IsComment(line) && Tokens(line) != [] && IsToken(Tokens(line)[0]) &&
      Tokens(line)[0][0] == '#' &&
      !ParseLine(line).Skip?
  {
    var line := w + "#" + rest;
    assert line == w + ("#" + rest);
    TokensAfterBlank(w, "#" + rest);
    assert !IsWhitespace(line[|w|]);
    var h := "#" + rest;
    assert h[0] == '#' && !IsWhitespace(h[0]);
    assert Tokens(h)[0] == h[..WordLength(h)];
  }

  /** One instance: `" #x"` sets the halt state to `"#x"`. */
  lemma IndentedHashExample(c: Config)
    ensures LoadLine(c, " #x") == LoadResult(c.(haltState := "#x"), Done)
  {
    var line: string := " #x";
    assert line[1..] == Join(["#x"]);
    TokensOfJoin(["#x"]);
    assert !IsBlank(line) by { assert !IsWhitespace(line[1]); }
  }

  /** A two-token line, whatever whitespace separates or surrounds its tokens,
      sets the state to token 1 and the tape to exactly the characters of
      token 2, and changes nothing else. */
  lemma StartLineSets(c: Config, line: string)
    requires !IsComment(line) && |Tokens(line)| == 2
    ensures LoadLine(c, line) ==
      LoadResult(c.(state := Tokens(line)[0], tape := Tokens(line)[1]), Done)
  {
  }

  /** A one-token line sets the halt state and nothing else. */
  lemma HaltLineSets(c: Config, line: string)
    requires !IsComment(line) && |Tokens(line)| == 1
    ensures LoadLine(c, line) == LoadResult(c.(haltState := Tokens(line)[0]), Done)
  {
  }

  /** A five-token line appends one instruction at the end, built from its
      tokens and taking the first character of each symbol token; an unknown
      direction word fails the load and appends nothing. */
  lemma RuleLineAppends(c: Config, line: string)
    requires !IsComment(line) && |Tokens(line)| == 5
    ensures forall k :: 0 <= k < 5 ==> IsToken(Tokens(line)[k])
    ensures var t := Tokens(line);
      StrToDir(t[4]).Ok? ==>
      LoadLine(c, line) ==
      LoadResult(c.(instructions := c.instructions +
        [Instruction(t[0], t[1][0], t[2], t[3][0], StrToDir(t[4]).value)]), Done)
    ensures StrToDir(Tokens(line)[4]).Err? ==>
      LoadLine(c, line) == LoadResult(c, Failed(InvalidDirection))
  {
    var t := Tokens(line);
    assert forall k :: 0 <= k < 5 ==> t[k] in t;
  }

  /** Canonical lines (tokens joined by single spaces) have the tokens they
      were built from, so they are loaded as the lemmas above say. */
  lemma JoinedLineTokens(ts: seq<string>)
    requires forall t :: t in ts ==> IsToken(t)
    requires ts != [] && ts[0] != [] && ts[0][0] != '#'
    ensures !IsComment(Join(ts)) && Tokens(Join(ts)) == ts
  {
    TokensOfJoin(ts);
    assert Join(ts)[0] == ts[0][0] by {
      if |ts| > 1 { assert Join(ts) == ts[0] + (" " + Join(ts[1..])); }
    }
    assert ts[0] in ts;
    assert !IsBlank(Join(ts)) by { assert !IsWhitespace(Join(ts)[0]); }
  }

  /** Any other token count is rejected without changing anything. */
  lemma OtherCountIsInvalidLine(c: Config, line: string)
    requires !IsComment(line)
    requires |Tokens(line)| !in {1, 2, 5}
    ensures LoadLine(c, line) == LoadResult(c, Failed(InvalidLine))
  {
  }

  /** Loading `a + b` is loading `a` and then, if that succeeded, `b`. */
  lemma {:induction false} LoadAppend(c: Config, a: seq<string>, b: seq<string>)
    ensures Load(c, a + b) ==
      (var r := Load(c, a); if r.outcome.Failed? then r else Load(r.config, b))
    decreases |a|
  {
    if a == [] {
      assert a + b == b;
    } else {
      assert (a + b)[0] == a[0];
      assert (a + b)[1..] == a[1..] + b;
      var r := LoadLine(c, a[0]);
      if !r.outcome.Failed? {
        LoadAppend(r.config, a[1..], b);
      }
    }
  }

  /** The load succeeds exactly when no line is malformed. */
  lemma {:induction false} LoadSucceedsIff(c: Config, lines: seq<string>)
    ensures Load(c, lines).outcome == Done <==>
      forall i :: 0 <= i < |lines| ==> !ParseLine(lines[i]).Bad?
    decreases |lines|
  {
    if lines != [] {
      var r := LoadLine(c, lines[0]);
      LoadSucceedsIff(r.config, lines[1..]);
      forall i | 0 < i < |lines| ensures lines[i] == lines[1..][i - 1] { }
    }
  }

  /** The first malformed line stops the load at once; the lines before it
      stay applied and its own error is returned. */
  lemma LoadStopsAtFirstBad(c: Config, lines: seq<string>, k: nat)
    requires k < |lines| && ParseLine(lines[k]).Bad?
    requires forall i :: 0 <= i < k ==> !ParseLine(lines[i]).Bad?
    ensures Load(c, lines) ==
      LoadResult(Load(c, lines[..k]).config, Failed(ParseLine(lines[k]).error))
  {
    assert lines == lines[..k] + lines[k..];
    LoadAppend(c, lines[..k], lines[k..]);
    LoadSucceedsIff(c, lines[..k]);
    assert lines[k..][0] == lines[k];
  }

  /** Index of the last two-token line. */
  function LastStart(lines: seq<string>): (r: Option<nat>)
    ensures r.Some? ==> r.value < |lines| && ParseLine(lines[r.value]).Start?
    ensures r.Some? ==> forall j :: r.value < j < |lines| ==> !ParseLine(lines[j]).Start?
    ensures r.None? ==> forall j :: 0 <= j < |lines| ==> !ParseLine(lines[j]).Start?
    decreases |lines|
  {
    if lines == [] then None
    else if ParseLine(lines[|lines| - 1]).Start? then Some(|lines| - 1)
    else LastStart(lines[..|lines| - 1])
  }

  /** Index of the last one-token line. */
  function LastHalt(lines: seq<string>): (r: Option<nat>)
    ensures r.Some? ==> r.value < |lines| && ParseLine(lines[r.value]).Halt?
    ensures r.Some? ==> forall j :: r.value < j < |lines| ==> !ParseLine(lines[j]).Halt?
    ensures r.None? ==> forall j :: 0 <= j < |lines| ==> !ParseLine(lines[j]).Halt?
    decreases |lines|
  {
    if lines == [] then None
    else if ParseLine(lines[|lines| - 1]).Halt? then Some(|lines| - 1)
    else LastHalt(lines[..|lines| - 1])
  }

  /** The instructions of the five-token lines, in line order. */
  function Rules(lines: seq<string>): seq<Instruction>
    decreases |lines|
  {
    if lines == [] then []
    else
      Rules(lines[..|lines| - 1]) +
      match ParseLine(lines[|lines| - 1])
      case Rule(ins) => [ins]
      case _ => []
  }

  /** The machine a successful load of `lines` describes, stated field by
      field: the last two-token line gives state and tape, the last one-token
      line the halt state, every rule is appended in order, and the head is
      left where it was. */
  function Declared(c: Config, lines: seq<string>): Config {
    var s := LastStart(lines);
    var h := LastHalt(lines);
    Config(
      if s.Some? then ParseLine(lines[s.value]).state else c.state,
      if h.Some? then ParseLine(lines[h.value]).state else c.haltState,
      if s.Some? then ParseLine(lines[s.value]).tape else c.tape,
      c.tapeCell,
      c.instructions + Rules(lines))
  }

  /** The line-by-line loader builds exactly the declared machine. */
  lemma {:induction false} LoadMeetsDeclared(c: Config, lines: seq<string>)
    requires forall i :: 0 <= i < |lines| ==> !ParseLine(lines[i]).Bad?
    ensures Load(c, lines) == LoadResult(Declared(c, lines), Done)
    decreases |lines|
  {
    if lines != [] {
      var p := lines[..|lines| - 1];
      var l := lines[|lines| - 1];
      assert lines == p + [l];
      forall i | 0 <= i < |p| ensures !ParseLine(p[i]).Bad? {
        assert p[i] == lines[i];
      }
      LoadMeetsDeclared(c, p);
      LoadAppend(c, p, [l]);
      var d := Declared(c, p);
      assert [l][1..] == [];
      assert Load(d, [l]) == LoadLine(d, l);
      DeclaredExtends(c, p, l);
    }
  }

  /** One more line moves the declared machine as loading that line does. */
  lemma DeclaredExtends(c: Config, p: seq<string>, l: string)
    requires !ParseLine(l).Bad?
    ensures LoadLine(Declared(c, p), l) == LoadResult(Declared(c, p + [l]), Done)
  {
    var lines := p + [l];
    assert lines[..|lines| - 1] == p;
    assert lines[|lines| - 1] == l;
    assert forall i :: 0 <= i < |p| ==> lines[i] == p[i];
  }

  /** Reloading the same lines on a successfully loaded machine keeps its
      state, halt state, tape and head, and appends every rule a second time:
      the instruction list is never cleared. */
  lemma ReloadAppendsRulesAgain(c: Config, lines: seq<string>)
    requires Load(c, lines).outcome == Done
    ensures var c1 := Load(c, lines).config;
      Load(c1, lines) == LoadResult(c1.(instructions := c1.instructions + Rules(lines)), Done)
  {
    LoadSucceedsIff(c, lines);
    LoadMeetsDeclared(c, lines);
    LoadMeetsDeclared(Load(c, lines).config, lines);
  }
}
