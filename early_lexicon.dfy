/**
 * What the earlier, reduced scanner computes, as functions of the source
 * text. It knows the single-character tokens, the four operators that may
 * take a following '=', `//` comments, whitespace, newlines and strings;
 * every other character (digits and letters included) is reported as
 * unexpected. It shares the fields, the string loop and the shape of its
 * token list with the full scanner.
 */
module EarlyLexicon {
  import opened Tokens
  import opened Chars
  import opened Lexing
  import LoxLexicon

  /** The step on a '/': a `//` comment up to the end of the line, or the `Slash` operator. */
  function LexSlash(src: string, start: nat, line: nat): (r: Lexed)
    requires start < |src|
    ensures (r.Emit? || r.Skip?) && start < r.end <= |src| && r.line == line
    ensures r.Skip? <==> Matches(src, start + 1, '/')
    ensures r.Emit? ==> r.kind == Slash && r.end == start + 1
  {
    var next := start + 1;
    if Matches(src, next, '/') then Skip(LineEnd(src, next + 1), line)
    else Emit(Slash, Null, next, line)
  }

  /** One `scanToken` step whose first character is at `start`, on line `line`. */
  function LexOne(src: string, start: nat, line: nat): (r: Lexed)
    requires start < |src|
    ensures Fits(start, r, |src|)
    ensures (r.Emit? || r.Skip? || r.Unterminated?) ==> line <= r.line
    ensures r.Emit? ==> r.kind != Eof && Carries(r.kind, r.literal)
  {
    var next := start + 1;
    match src[start]
    case '(' => Emit(LeftParen, Null, next, line)
    case ')' => Emit(RightParen, Null, next, line)
    case '{' => Emit(LeftBrace, Null, next, line)
    case '}' => Emit(RightBrace, Null, next, line)
    case ',' => Emit(Comma, Null, next, line)
    case '.' => Emit(Dot, Null, next, line)
    case '-' => Emit(Minus, Null, next, line)
    case '+' => Emit(Plus, Null, next, line)
    case ';' => Emit(Semicolon, Null, next, line)
    case '*' => Emit(Star, Null, next, line)
    case '!' => LoxLexicon.Operator(src, next, Bang, BangEqual, line)
    case '=' => LoxLexicon.Operator(src, next, Equal, EqualEqual, line)
    case '<' => LoxLexicon.Operator(src, next, Less, LessEqual, line)
    case '>' => LoxLexicon.Operator(src, next, Greater, GreaterEqual, line)
    case '/' => LexSlash(src, start, line)
    case ' ' => Skip(next, line)
    case '\r' => Skip(next, line)
    case '\t' => Skip(next, line)
    case '\n' => Skip(next, line + 1)
    case '"' => LexString(src, start, line)
    case _ => Unexpected("unexpected character.")
  }

  // `Run`, `ScanFrom` and `Lex`, and the two lemmas about the whole list,
  // repeat the full scanner's over this scanner's own `LexOne`: the two
  // Java classes each have their own `scanTokens` loop over their own
  // `scanToken`, and `RunAgrees` below says where the two loops agree.

  /** The loop of `scanTokens`: steps until the text is used up or a step throws. */
  function Run(src: string, s: LexState): (o: Outcome)
    requires s.current <= |src|
    decreases |src| - s.current
  {
    if s.current >= |src| then Ok(s)
    else
      match Apply(src, s, LexOne(src, s.current, s.line))
      case Crash(e) => Crash(e)
      case Ok(t) => Run(src, t)
  }

  /** `scanTokens` on a scanner in state `s`. */
  function ScanFrom(src: string, s: LexState): Outcome
    requires s.current <= |src|
  {
    Finish(Run(src, s))
  }

  /** `new Scanner(src).scanTokens()`. */
  function Lex(src: string): Outcome {
    ScanFrom(src, Start)
  }

  // ---------------------------------------------------------------------
  // The token list as a whole

  /** Every step of the loop keeps the fields coherent, and a loop that finishes used up the text. */
  lemma {:induction false} RunCoherent(src: string, s: LexState)
    requires Coherent(src, s)
    ensures Run(src, s).Ok? ==> Coherent(src, Run(src, s).state) && Run(src, s).state.current == |src|
    decreases |src| - s.current
  {
    if s.current < |src| {
      var r := LexOne(src, s.current, s.line);
      ApplyKeepsCoherent(src, s, r);
      if Apply(src, s, r).Ok? {
        RunCoherent(src, Apply(src, s, r).state);
      }
    }
  }

  /**
   * A scan that does not throw gives a token stream ending in exactly one
   * `EOF`: lexemes are the slices their spans name, in source order, with
   * non-decreasing lines.
   */
  lemma LexTokenStream(src: string)
    ensures Lex(src).Ok? ==> TokenStream(src, Lex(src).state)
  {
    StartCoherent(src);
    RunCoherent(src, Start);
    if Run(src, Start).Ok? {
      FinishStream(src, Run(src, Start).state);
    }
  }

  /**
   * The scan throws only on a quote that no later quote closes: the string
   * it opens runs to the end of the text.
   */
  lemma {:induction false} RunCrashesOnlyOnUnclosedQuote(src: string, s: LexState)
    requires s.current <= |src|
    ensures Run(src, s).Crash? ==>
      exists k :: s.current <= k < |src| && src[k] == '"'
        && forall j :: k < j < |src| ==> src[j] != '"'
    decreases |src| - s.current
  {
    if s.current < |src| {
      var o := Apply(src, s, LexOne(src, s.current, s.line));
      if o.Crash? {
        StringEndStops(src, s.current + 1, s.line);
      } else {
        RunCrashesOnlyOnUnclosedQuote(src, o.state);
      }
    }
  }

  // ---------------------------------------------------------------------
  // One step, by its first character

  /** `//` skips up to, not including, the next newline, and adds no token. */
  lemma LineCommentSkipsLine(src: string, start: nat, line: nat)
    requires start + 2 <= |src| && src[start..start + 2] == "//"
    ensures var r := LexOne(src, start, line);
      && r.Skip? && r.line == line
      && (r.end == |src| || src[r.end] == '\n')
      && forall k :: start <= k < r.end ==> src[k] != '\n'
  {
    assert src[start] == '/' && src[start + 1] == '/';
    LineEndStops(src, start + 2);
  }

  /**
   * There are no block comments: slash-star is a `Slash` token and then a
   * `Star` token, each with its one-character lexeme.
   */
  lemma SlashStarIsTwoTokens(src: string, start: nat, line: nat)
    requires start + 2 <= |src| && src[start..start + 2] == "/*"
    ensures LexOne(src, start, line) == Emit(Slash, Null, start + 1, line)
    ensures LexOne(src, start + 1, line) == Emit(Star, Null, start + 2, line)
  {
    assert src[start] == '/' && src[start + 1] == '*';
  }

  /**
   * Any character without a case of its own, digits and letters included,
   * is reported with the lower-case message and dropped; the scan goes on.
   */
  lemma UnexpectedCharacterReported(src: string, s: LexState)
    requires s.current < |src|
    requires src[s.current] !in "(){},.-+;*!=<>/ \r\t\n\""
    ensures Apply(src, s, LexOne(src, s.current, s.line))
      == Ok(s.(current := s.current + 1, errors := s.errors + [LexError(s.line, "unexpected character.")]))
  {
  }

  // ---------------------------------------------------------------------
  // Agreement with the full scanner

  /** The characters both scanners treat alike: everything but letters, digits and unexpected ones. */
  predicate Punctuation(c: char) {
    c in "(){},.-+;*!=<>/ \r\t\n\""
  }

  /**
   * On a step that starts on such a character and is not slash-star, the
   * earlier scanner does what the full one does.
   */
  lemma StepAgrees(src: string, start: nat, line: nat)
    requires start < |src| && Punctuation(src[start])
    requires !(src[start] == '/' && Matches(src, start + 1, '*'))
    ensures LexOne(src, start, line) == LoxLexicon.LexOne(src, start, line)
  {
  }

  /**
   * A text made only of those characters, with no slash-star anywhere, is
   * scanned to the same tokens (or the same failure) by both scanners.
   */
  lemma {:induction false} RunAgrees(src: string, s: LexState)
    requires s.current <= |src|
    requires forall k :: 0 <= k < |src| ==> Punctuation(src[k])
    requires forall k :: 0 <= k < |src| - 1 ==> !(src[k] == '/' && src[k + 1] == '*')
    ensures Run(src, s) == LoxLexicon.Run(src, s)
    decreases |src| - s.current
  {
    if s.current < |src| {
      StepAgrees(src, s.current, s.line);
      var o := Apply(src, s, LexOne(src, s.current, s.line));
      if o.Ok? {
        RunAgrees(src, o.state);
      }
    }
  }

  /** The whole scan of such a text agrees with the full scanner's. */
  lemma LexAgrees(src: string)
    requires forall k :: 0 <= k < |src| ==> Punctuation(src[k])
    requires forall k :: 0 <= k < |src| - 1 ==> !(src[k] == '/' && src[k + 1] == '*')
    ensures Lex(src) == LoxLexicon.Lex(src)
  {
    RunAgrees(src, Start);
  }
}
