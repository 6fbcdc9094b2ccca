/**
 * Cursor reads over the source text shared by both scanners, and the two
 * scanning loops they have in common: the `//` comment loop and the loop
 * of `string`. The scanners answer '\0' when asked to look past the end of
 * the text.
 */
module Chars {

  /** The character at `i`, or '\0' at or past the end (`peek`). */
  function Peek(src: string, i: nat): char
  {
    if i >= |src| then '\0' else src[i]
  }

  /** The character after `i`, or '\0' when there is none (`peekNext`). */
  function PeekNext(src: string, i: nat): char
  {
    if i + 1 >= |src| then '\0' else src[i + 1]
  }

  /** Whether the character at `i` is `expected` (the test inside `match`). */
  predicate Matches(src: string, i: nat, expected: char) {
    i < |src| && src[i] == expected
  }

  /**
   * Where `while (peek() != '\n' && !isAtEnd()) advance();` started at `i`
   * comes to rest.
   */
  function LineEnd(src: string, i: nat): (j: nat)
    requires i <= |src|
    ensures i <= j <= |src|
    decreases |src| - i
  {
    if i == |src| || src[i] == '\n' then i else LineEnd(src, i + 1)
  }

  /**
   * The comment loop passes over everything but newlines and stops at the
   * first newline or at the end of the text.
   */
  lemma {:induction false} LineEndStops(src: string, i: nat)
    requires i <= |src|
    ensures var j := LineEnd(src, i);
      && (forall k :: i <= k < j ==> src[k] != '\n')
      && (j < |src| ==> src[j] == '\n')
    decreases |src| - i
  {
    if i < |src| && src[i] != '\n' {
      LineEndStops(src, i + 1);
    }
  }

  /** The number of newline characters in `s`. */
  function Newlines(s: string): nat
  {
    if s == [] then 0
    else Newlines(s[..|s| - 1]) + (if s[|s| - 1] == '\n' then 1 else 0)
  }

  /** The number of newline characters in `src[i..j]`, counted by position. */
  function NewlinesIn(src: string, i: nat, j: nat): nat
    requires i <= j <= |src|
    decreases j
  {
    if j == i then 0
    else NewlinesIn(src, i, j - 1) + (if src[j - 1] == '\n' then 1 else 0)
  }

  /** Counting by position agrees with counting the slice. */
  lemma {:induction false} NewlinesInSlice(src: string, i: nat, j: nat)
    requires i <= j <= |src|
    ensures NewlinesIn(src, i, j) == Newlines(src[i..j])
    decreases j
  {
    if j > i {
      NewlinesInSlice(src, i, j - 1);
      assert src[i..j][..j - i - 1] == src[i..j - 1];
    }
  }

  /** Counting from `i` is the character at `i` plus counting from `i + 1`. */
  lemma {:induction false} NewlinesInCons(src: string, i: nat, j: nat)
    requires i < j <= |src|
    ensures NewlinesIn(src, i, j) == (if src[i] == '\n' then 1 else 0) + NewlinesIn(src, i + 1, j)
    decreases j
  {
    if j > i + 1 {
      NewlinesInCons(src, i, j - 1);
    }
  }

  /**
   * Where the loop of `string` comes to rest from `i` on line `line`, and the
   * line it has counted up to by then: it stops at a '"' or the end of the
   * text and counts every newline it passes.
   */
  function StringEnd(src: string, i: nat, line: nat): (r: (nat, nat))
    requires i <= |src|
    ensures i <= r.0 <= |src| && line <= r.1
    decreases |src| - i
  {
    if i == |src| || src[i] == '"' then (i, line)
    else StringEnd(src, i + 1, if src[i] == '\n' then line + 1 else line)
  }

  /**
   * The string loop stops at the first '"' at or after `i`, or at the end of
   * the text, having counted exactly the newlines it passed.
   */
  lemma {:induction false} StringEndStops(src: string, i: nat, line: nat)
    requires i <= |src|
    ensures var (close, closeLine) := StringEnd(src, i, line);
      && (forall k :: i <= k < close ==> src[k] != '"')
      && (close < |src| ==> src[close] == '"')
      && closeLine == line + NewlinesIn(src, i, close)
    decreases |src| - i
  {
    if i < |src| && src[i] != '"' {
      var next := if src[i] == '\n' then line + 1 else line;
      StringEndStops(src, i + 1, next);
      NewlinesInCons(src, i, StringEnd(src, i + 1, next).0);
    }
  }
}
