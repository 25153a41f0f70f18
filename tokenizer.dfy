/** Whitespace handling used by the configuration loader: the character
    class of Rust's `char::is_whitespace`, the `trim().is_empty()` test and
    `split_whitespace`. */
module Tokenizer {

  /** The Unicode White_Space property, which is what `char::is_whitespace`
      (and so `trim` and `split_whitespace`) tests. */
  predicate IsWhitespace(ch: char) {
    ('\t' <= ch <= '\r') || ch == ' ' || ch == '\U{85}' || ch == '\U{A0}' ||
    ch == '\U{1680}' || ('\U{2000}' <= ch <= '\U{200A}') ||
    ch == '\U{2028}' || ch == '\U{2029}' || ch == '\U{202F}' || ch == '\U{205F}' ||
    ch == '\U{3000}'
  }

  /** `line.trim().is_empty()`: the line holds whitespace only. */
  predicate IsBlank(s: string) {
    forall i :: 0 <= i < |s| ==> IsWhitespace(s[i])
  }

  /** A token as `split_whitespace` yields it: non-empty, no whitespace. */
  predicate IsToken(t: string) {
    t != [] && forall i :: 0 <= i < |t| ==> !IsWhitespace(t[i])
  }

  /** Length of the run of non-whitespace characters at the start of `s`. */
  function WordLength(s: string): (n: nat)
    ensures n <= |s|
    ensures forall i :: 0 <= i < n ==> !IsWhitespace(s[i])
    ensures n == |s| || IsWhitespace(s[n])
  {
    if s == [] || IsWhitespace(s[0]) then 0 else 1 + WordLength(s[1..])
  }

  /** `s.split_whitespace()`: the maximal whitespace-free runs of `s`, in order. */
  function Tokens(s: string): (r: seq<string>)
    ensures forall t :: t in r ==> IsToken(t)
    decreases |s|
  {
    if s == [] then []
    else if IsWhitespace(s[0]) then Tokens(s[1..])
    else
      var n := WordLength(s);
      [s[..n]] + Tokens(s[n..])
  }

  /** The tokens separated by one space each (a canonical configuration line). */
  function Join(ts: seq<string>): string {
    if |ts| == 0 then ""
    else if |ts| == 1 then ts[0]
    else ts[0] + " " + Join(ts[1..])
  }

  /** A line is blank exactly when it has no tokens; so the loader's
      `trim().is_empty()` test and a token count of zero agree. */
  lemma {:induction false} BlankIffNoTokens(s: string)
    ensures IsBlank(s) <==> Tokens(s) == []
    decreases |s|
  {
    if s != [] {
      if IsWhitespace(s[0]) {
        BlankIffNoTokens(s[1..]);
        assert IsBlank(s) <==> IsBlank(s[1..]) by {
          if IsBlank(s[1..]) {
            forall i | 0 <= i < |s| ensures IsWhitespace(s[i]) {
              if i > 0 { assert s[i] == s[1..][i - 1]; }
            }
          }
          if IsBlank(s) {
            forall i | 0 <= i < |s| - 1 ensures IsWhitespace(s[1..][i]) {
              assert s[1..][i] == s[i + 1];
            }
          }
        }
      } else {
        assert !IsBlank(s);
      }
    }
  }

  /** Leading whitespace is ignored by the split. */
  lemma {:induction false} TokensAfterBlank(b: string, s: string)
    requires IsBlank(b)
    ensures Tokens(b + s) == Tokens(s)
    decreases |b|
  {
    if b != [] {
      assert (b + s)[0] == b[0];
      assert (b + s)[1..] == b[1..] + s;
      assert IsBlank(b[1..]) by {
        forall i | 0 <= i < |b| - 1 ensures IsWhitespace(b[1..][i]) {
          assert b[1..][i] == b[i + 1];
        }
      }
      TokensAfterBlank(b[1..], s);
    } else {
      assert b + s == s;
    }
  }

  /** A whole token followed by whitespace (or nothing) is split off intact. */
  lemma {:induction false} TokensAfterWord(w: string, rest: string)
    requires IsToken(w)
    requires rest == [] || IsWhitespace(rest[0])
    ensures Tokens(w + rest) == [w] + Tokens(rest)
  {
    var s := w + rest;
    WordLengthOfWord(w, rest);
    assert s[..|w|] == w;
    assert s[|w|..] == rest;
  }

  lemma {:induction false} WordLengthOfWord(w: string, rest: string)
    requires forall i :: 0 <= i < |w| ==> !IsWhitespace(w[i])
    requires rest == [] || IsWhitespace(rest[0])
    ensures WordLength(w + rest) == |w|
    decreases |w|
  {
    if w != [] {
      assert (w + rest)[1..] == w[1..] + rest;
      WordLengthOfWord(w[1..], rest);
    } else {
      assert w + rest == rest;
    }
  }

  /** Splitting a space-joined list of tokens gives the list back. */
  lemma {:induction false} TokensOfJoin(ts: seq<string>)
    requires forall t :: t in ts ==> IsToken(t)
    ensures Tokens(Join(ts)) == ts
    decreases |ts|
  {
    if |ts| == 1 {
      TokensAfterWord(ts[0], "");
      assert ts[0] + "" == ts[0];
    } else if |ts| > 1 {
      var tail := Join(ts[1..]);
      assert ts[1..][0] in ts;
      TokensOfJoin(ts[1..]);
      TokensAfterWord(ts[0], " " + tail);
      assert ts[0] + " " + tail == ts[0] + (" " + tail);
      assert (" " + tail)[1..] == tail;
    }
  }
}
