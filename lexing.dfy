/**
 * The state machine both scanners share: the scanner's fields as a value,
 * what one call of `scanToken` did to them, and the shape every token list
 * they produce has.
 */
module Lexing {
  import opened Tokens
  import opened Chars

  /** A report to the error sink: `JLox.error(line, message)`. */
  datatype LexError = LexError(line: nat, message: string)

  /** The source positions a token was cut from: `source.substring(start, end)`. */
  datatype Span = Span(start: nat, end: nat)

  /**
   * The scanner's fields: the token list, the (ghost) spans of its tokens,
   * `current`, `line`, and the (ghost) log of reported errors.
   */
  datatype LexState = LexState(
    tokens: seq<Token>, spans: seq<Span>, current: nat, line: nat, errors: seq<LexError>)

  /** A freshly constructed scanner. */
  const Start := LexState([], [], 0, 1, [])

  /** What one call of `scanToken` that starts at `start` did. */
  datatype Lexed =
      /** `addToken(kind, literal)` after consuming up to `end`, on line `line` */
    | Emit(kind: TokenType, literal: Value, end: nat, line: nat)
      /** consumed up to `end` without adding a token (whitespace, comments) */
    | Skip(end: nat, line: nat)
      /** reported `message` for the character at `start` and dropped it */
    | Unexpected(message: string)
      /** a string ran to the end of the text: reported at `line`, then
          `advance()` read past the end and threw */
    | Unterminated(line: nat)

  /** Either the scanner's state, or the errors reported before it threw. */
  datatype Outcome = Ok(state: LexState) | Crash(errors: seq<LexError>)

  /** A step that consumes stays within the text and consumes something. */
  predicate Fits(start: nat, r: Lexed, n: nat) {
    (r.Emit? || r.Skip?) ==> start < r.end <= n
  }

  /**
   * The step of `string`, from the opening quote at `start` on line `line`:
   * a `String` token whose literal is the text between the quotes, or, when
   * no closing quote comes, the report on the line the text ends on.
   */
  function LexString(src: string, start: nat, line: nat): (r: Lexed)
    requires start < |src|
  {
    var (close, closeLine) := StringEnd(src, start + 1, line);
    if close == |src| then Unterminated(closeLine)
    else Emit(String, Str(src[start + 1..close]), close + 1, closeLine)
  }

  /** The effect of one `scanToken` step on the scanner's fields. */
  function Apply(src: string, s: LexState, r: Lexed): (o: Outcome)
    requires s.current < |src| && Fits(s.current, r, |src|)
    ensures o.Ok? ==> s.current < o.state.current <= |src|
    ensures o.Ok? && r.Emit? ==>
      o.state.tokens == s.tokens + [Token(r.kind, src[s.current..r.end], r.literal, r.line)]
    ensures o.Ok? && !r.Emit? ==> o.state.tokens == s.tokens
    ensures o.Crash? <==> r.Unterminated?
  {
    match r
    case Emit(kind, literal, end, line) =>
      Ok(s.(tokens := s.tokens + [Token(kind, src[s.current..end], literal, line)],
            spans := s.spans + [Span(s.current, end)],
            current := end, line := line))
    case Skip(end, line) => Ok(s.(current := end, line := line))
    case Unexpected(message) =>
      Ok(s.(current := s.current + 1, errors := s.errors + [LexError(s.line, message)]))
    case Unterminated(line) => Crash(s.errors + [LexError(line, "Unterminated string")])
  }

  /**
   * A terminated string: the lexeme runs from the opening to the closing
   * quote inclusive, the literal is the text strictly between them (which
   * holds no quote), and the token carries the line of the closing quote.
   */
  lemma StringToken(src: string, start: nat, line: nat)
    requires start < |src| && src[start] == '"'
    requires exists k :: start < k < |src| && src[k] == '"'
    ensures var r := LexString(src, start, line);
      && r.Emit? && r.kind == String && start + 2 <= r.end <= |src|
      && src[r.end - 1] == '"'
      && r.literal == Str(src[start + 1..r.end - 1])
      && src[start..r.end] == "\"" + r.literal.text + "\""
      && '"' !in r.literal.text
      && r.line == line + Newlines(r.literal.text)
  {
    var close := StringEnd(src, start + 1, line).0;
    StringEndStops(src, start + 1, line);
    var k :| start < k < |src| && src[k] == '"';
    assert close <= k;
    NewlinesInSlice(src, start + 1, close);
    assert src[start..close + 1] == [src[start]] + src[start + 1..close] + [src[close]];
  }

  /**
   * A string that runs to the end of the text is reported on the line the
   * text ends on, and then the scan throws: no token list comes back.
   */
  lemma UnterminatedString(src: string, s: LexState)
    requires s.current < |src|
    requires forall k :: s.current < k < |src| ==> src[k] != '"'
    ensures Apply(src, s, LexString(src, s.current, s.line))
      == Crash(s.errors + [LexError(s.line + Newlines(src[s.current + 1..]), "Unterminated string")])
  {
    StringEndStops(src, s.current + 1, s.line);
    assert StringEnd(src, s.current + 1, s.line).0 == |src|;
    NewlinesInSlice(src, s.current + 1, |src|);
    assert src[s.current + 1..|src|] == src[s.current + 1..];
  }

  /** The `EOF` token `scanTokens` appends once its loop is done. */
  function EofToken(line: nat): Token {
    Token(Eof, "", Null, line)
  }

  /** `scanTokens` after its loop: append `EOF`, or pass the failure on. */
  function Finish(o: Outcome): Outcome {
    match o
    case Ok(s) => Ok(s.(tokens := s.tokens + [EofToken(s.line)],
                        spans := s.spans + [Span(s.current, s.current)]))
    case Crash(e) => Crash(e)
  }

  /** Token `k` is the text of the source its span names. */
  ghost predicate Covers(src: string, sp: Span, t: Token) {
    sp.start <= sp.end <= |src| && t.lexeme == src[sp.start..sp.end]
  }

  /**
   * What holds of the scanner's fields between two steps: every token is
   * a non-empty slice of the source ending before `current`, carries no
   * `EOF` and a line no later than `line`, and the tokens come in source
   * order with non-decreasing lines.
   */
  ghost predicate Coherent(src: string, s: LexState) {
    && s.current <= |src|
    && 1 <= s.line
    && |s.spans| == |s.tokens|
    && (forall k :: 0 <= k < |s.tokens| ==>
          Covers(src, s.spans[k], s.tokens[k]) && s.spans[k].start < s.spans[k].end <= s.current
          && s.tokens[k].kind != Eof && s.tokens[k].line <= s.line)
    && (forall i, j :: 0 <= i < j < |s.tokens| ==>
          s.spans[i].end <= s.spans[j].start && s.tokens[i].line <= s.tokens[j].line)
  }

  /**
   * The shape of a finished token list: exactly one `EOF`, at the end, with
   * an empty lexeme, no literal and the final line; before it, non-empty
   * slices of the source in source order with non-decreasing lines.
   */
  ghost predicate TokenStream(src: string, s: LexState) {
    && |s.tokens| >= 1 && |s.spans| == |s.tokens|
    && s.tokens[|s.tokens| - 1] == EofToken(s.line)
    && (forall k :: 0 <= k < |s.tokens| ==> Covers(src, s.spans[k], s.tokens[k]))
    && (forall k :: 0 <= k < |s.tokens| - 1 ==>
          s.tokens[k].kind != Eof && s.spans[k].start < s.spans[k].end)
    && (forall i, j :: 0 <= i < j < |s.tokens| ==>
          s.spans[i].end <= s.spans[j].start && s.tokens[i].line <= s.tokens[j].line)
  }

  /** A scanner that has not yet scanned anything is coherent. */
  lemma StartCoherent(src: string)
    ensures Coherent(src, Start)
  {
  }

  /** One step keeps the scanner coherent, provided lines only grow and it emits no `EOF`. */
  lemma ApplyKeepsCoherent(src: string, s: LexState, r: Lexed)
    requires Coherent(src, s) && s.current < |src| && Fits(s.current, r, |src|)
    requires (r.Emit? || r.Skip?) ==> s.line <= r.line
    requires r.Emit? ==> r.kind != Eof
    ensures Apply(src, s, r).Ok? ==> Coherent(src, Apply(src, s, r).state)
  {
    var o := Apply(src, s, r);
    if o.Ok? && r.Emit? {
      var t, n := o.state, |s.tokens|;
      forall k | 0 <= k < |t.tokens|
        ensures Covers(src, t.spans[k], t.tokens[k]) && t.spans[k].start < t.spans[k].end <= t.current
        ensures t.tokens[k].kind != Eof && t.tokens[k].line <= t.line
      {
        if k < n {
          assert t.spans[k] == s.spans[k] && t.tokens[k] == s.tokens[k];
        }
      }
    }
  }

  /** Appending `EOF` to a coherent list that reached the end gives a token stream. */
  lemma FinishStream(src: string, s: LexState)
    requires Coherent(src, s) && s.current == |src|
    ensures Finish(Ok(s)).Ok? && TokenStream(src, Finish(Ok(s)).state)
  {
    var t := Finish(Ok(s)).state;
    assert Covers(src, t.spans[|t.spans| - 1], t.tokens[|t.tokens| - 1]);
  }
}
