/**
 * What the full Lox scanner computes, as functions of the source text: one
 * `scanToken` step, the loop of `scanTokens`, and the helpers the step uses
 * (operators with one character of lookahead, `//` and nested block
 * comments, strings, numbers, identifiers and the keyword table). The
 * lemmas state what the scanner guarantees about its token list.
 */
module LoxLexicon {
  import opened Tokens
  import opened Chars
  import opened Lexing

  predicate IsDigit(c: char) {
    '0' <= c <= '9'
  }

  predicate IsAlpha(c: char) {
    'a' <= c <= 'z' || 'A' <= c <= 'Z' || c == '_'
  }

  predicate IsAlphaNumeric(c: char) {
    IsAlpha(c) || IsDigit(c)
  }

  /** The reserved words and their token kinds. */
  const Keywords: map<string, TokenType> := map[
    "and" := And, "class" := Class, "else" := Else, "false" := False,
    "for" := For, "fun" := Fun, "if" := If, "nil" := Nil,
    "or" := Or, "print" := Print, "return" := Return, "super" := Super,
    "this" := This, "true" := True, "var" := Var, "while" := While]

  /** The kind an identifier-shaped lexeme gets: its keyword, else `Identifier`. */
  function KeywordType(text: string): TokenType {
    if text in Keywords then Keywords[text] else Identifier
  }

  /** Position and depth of a block comment scan. */
  datatype Nesting = Nesting(end: nat, depth: nat)

  /** The first test of the block-comment loop body: slash-star opens a level. */
  function OpenMark(src: string, i: nat, depth: nat): (r: Nesting)
    requires i < |src|
    ensures i <= r.end < |src| && r.depth <= depth + 1 && depth <= r.depth
  {
    if src[i] == '/' && PeekNext(src, i) == '*' then Nesting(i + 1, depth + 1) else Nesting(i, depth)
  }

  /** The second test: star-slash closes a level. */
  function CloseMark(src: string, n: Nesting): (r: Nesting)
    requires n.end < |src| && 0 < n.depth
    ensures n.end <= r.end < |src| && r.depth <= n.depth && n.depth <= r.depth + 1
  {
    if src[n.end] == '*' && PeekNext(src, n.end) == '/' then Nesting(n.end + 1, n.depth - 1) else n
  }

  /**
   * One pass of the block-comment loop body once the cursor `i` rests on a
   * '/' or a '*': the two tests, then one more character is consumed.
   */
  function CommentStep(src: string, i: nat, depth: nat): (r: Nesting)
    requires i < |src| && 0 < depth
    ensures i < r.end <= |src|
    ensures depth <= r.depth + 1 && r.depth <= depth + 1
  {
    var n := CloseMark(src, OpenMark(src, i, depth));
    Nesting(n.end + 1, n.depth)
  }

  /**
   * Where the block-comment loops started at `i` at nesting `depth` come to
   * rest: they pass over characters other than '/' and '*', take a
   * `CommentStep` at each of those two, and stop when the depth reaches 0
   * or, silently, when the text ends; the result holds where they stop
   * and the depth at that point.
   */
  function BlockComment(src: string, i: nat, depth: nat): (r: Nesting)
    requires i <= |src|
    ensures i <= r.end <= |src|
    decreases |src| - i
  {
    if depth == 0 || i == |src| then Nesting(i, depth)
    else if src[i] != '/' && src[i] != '*' then BlockComment(src, i + 1, depth)
    else
      var n := CommentStep(src, i, depth);
      BlockComment(src, n.end, n.depth)
  }

  /** Where `while (isDigit(peek())) advance();` started at `i` comes to rest. */
  function DigitsEnd(src: string, i: nat): (j: nat)
    requires i <= |src|
    ensures i <= j <= |src|
    decreases |src| - i
  {
    if i == |src| || !IsDigit(src[i]) then i else DigitsEnd(src, i + 1)
  }

  /** The digit loop passes over digits only and stops at the first non-digit. */
  lemma {:induction false} DigitsEndStops(src: string, i: nat)
    requires i <= |src|
    ensures var j := DigitsEnd(src, i);
      && (forall k :: i <= k < j ==> IsDigit(src[k]))
      && (j < |src| ==> !IsDigit(src[j]))
    decreases |src| - i
  {
    if i < |src| && IsDigit(src[i]) {
      DigitsEndStops(src, i + 1);
    }
  }

  /** Where `while (isAlphaNumeric(peek())) advance();` started at `i` comes to rest. */
  function WordEnd(src: string, i: nat): (j: nat)
    requires i <= |src|
    ensures i <= j <= |src|
    decreases |src| - i
  {
    if i == |src| || !IsAlphaNumeric(src[i]) then i else WordEnd(src, i + 1)
  }

  /** The identifier loop passes over letters, digits and '_' only. */
  lemma {:induction false} WordEndStops(src: string, i: nat)
    requires i <= |src|
    ensures var j := WordEnd(src, i);
      && (forall k :: i <= k < j ==> IsAlphaNumeric(src[k]))
      && (j < |src| ==> !IsAlphaNumeric(src[j]))
    decreases |src| - i
  {
    if i < |src| && IsAlphaNumeric(src[i]) {
      WordEndStops(src, i + 1);
    }
  }

  /** Where `number` stops: digits, then '.' and digits if a digit follows the '.'. */
  function NumberEnd(src: string, i: nat): (j: nat)
    requires i <= |src|
    ensures i <= j <= |src|
  {
    var k := DigitsEnd(src, i);
    if Peek(src, k) == '.' && IsDigit(PeekNext(src, k)) then DigitsEnd(src, k + 1) else k
  }

  /** An operator that may be followed by '=': `kind2` with it, `kind1` without. */
  function Operator(src: string, next: nat, kind1: TokenType, kind2: TokenType, line: nat): Lexed
  {
    if Matches(src, next, '=') then Emit(kind2, Null, next + 1, line) else Emit(kind1, Null, next, line)
  }

  /** One `scanToken` step whose first character is at `start`, on line `line`. */
  function LexOne(src: string, start: nat, line: nat): (r: Lexed)
    requires start < |src|
    ensures Fits(start, r, |src|)
    ensures (r.Emit? || r.Skip? || r.Unterminated?) ==> line <= r.line
    ensures r.Emit? ==> r.kind != Eof && Carries(r.kind, r.literal)
  {
    var next := start + 1;
    match src[start]
    case '(' => Emit(LeftParen, Null, next, line)
    case ')' => Emit(RightParen, Null, next, line)
    case '{' => Emit(LeftBrace, Null, next, line)
    case '}' => Emit(RightBrace, Null, next, line)
    case ',' => Emit(Comma, Null, next, line)
    case '.' => Emit(Dot, Null, next, line)
    case '-' => Emit(Minus, Null, next, line)
    case '+' => Emit(Plus, Null, next, line)
    case ';' => Emit(Semicolon, Null, next, line)
    case '*' => Emit(Star, Null, next, line)
    case '!' => Operator(src, next, Bang, BangEqual, line)
    case '=' => Operator(src, next, Equal, EqualEqual, line)
    case '<' => Operator(src, next, Less, LessEqual, line)
    case '>' => Operator(src, next, Greater, GreaterEqual, line)
    case '/' => LexSlash(src, start, line)
    case ' ' => Skip(next, line)
    case '\r' => Skip(next, line)
    case '\t' => Skip(next, line)
    case '\n' => Skip(next, line + 1)
    case '"' => LexString(src, start, line)
    case _ => LexWord(src, start, line)
  }

  /** The step on a '/': a line comment, a block comment, or the `Slash` operator. */
  function LexSlash(src: string, start: nat, line: nat): (r: Lexed)
    requires start < |src|
    ensures (r.Emit? || r.Skip?) && start < r.end <= |src| && r.line == line
    ensures r.Emit? <==> !Matches(src, start + 1, '/') && !Matches(src, start + 1, '*')
    ensures r.Emit? ==> r.kind == Slash && r.end == start + 1
  {
    var next := start + 1;
    if Matches(src, next, '/') then Skip(LineEnd(src, next + 1), line)
    else if Matches(src, next, '*') then Skip(BlockComment(src, next + 1, 1).end, line)
    else Emit(Slash, Null, next, line)
  }

  /**
   * The step on any character without a case of its own: a number, an
   * identifier or reserved word, or an unexpected character.
   */
  function LexWord(src: string, start: nat, line: nat): (r: Lexed)
    requires start < |src|
    ensures r.Emit? || r.Unexpected?
    ensures r.Emit? <==> IsAlphaNumeric(src[start])
    ensures r.Emit? ==> start < r.end <= |src| && r.line == line && r.kind != Eof
  {
    var c := src[start];
    if IsDigit(c) then
      var end := NumberEnd(src, start + 1);
      Emit(Number, Num(src[start..end]), end, line)
    else if IsAlpha(c) then
      var end := WordEnd(src, start + 1);
      Emit(KeywordType(src[start..end]), Null, end, line)
    else Unexpected("Unexpected character.")
  }

  /** The loop of `scanTokens`: steps until the text is used up or a step throws. */
  function Run(src: string, s: LexState): (o: Outcome)
    requires s.current <= |src|
    decreases |src| - s.current
  {
    if s.current >= |src| then Ok(s)
    else
      match Apply(src, s, LexOne(src, s.current, s.line))
      case Crash(e) => Crash(e)
      case Ok(t) => Run(src, t)
  }

  /** `scanTokens` on a scanner in state `s`. */
  function ScanFrom(src: string, s: LexState): Outcome
    requires s.current <= |src|
  {
    Finish(Run(src, s))
  }

  /** `new Scanner(src).scanTokens()`. */
  function Lex(src: string): Outcome {
    ScanFrom(src, Start)
  }

  // ---------------------------------------------------------------------
  // The token list as a whole

  /** Every step of the loop keeps the fields coherent, and a loop that finishes used up the text. */
  lemma {:induction false} RunCoherent(src: string, s: LexState)
    requires Coherent(src, s)
    ensures Run(src, s).Ok? ==> Coherent(src, Run(src, s).state) && Run(src, s).state.current == |src|
    decreases |src| - s.current
  {
    if s.current < |src| {
      var r := LexOne(src, s.current, s.line);
      ApplyKeepsCoherent(src, s, r);
      if Apply(src, s, r).Ok? {
        RunCoherent(src, Apply(src, s, r).state);
      }
    }
  }

  /** Every token the loop adds carries the literal its kind calls for. */
  lemma {:induction false} RunLiteralsOfKind(src: string, s: LexState)
    requires s.current <= |src| && LiteralsOfKind(s.tokens)
    ensures Run(src, s).Ok? ==> LiteralsOfKind(Run(src, s).state.tokens)
    decreases |src| - s.current
  {
    if s.current < |src| {
      var o := Apply(src, s, LexOne(src, s.current, s.line));
      if o.Ok? {
        RunLiteralsOfKind(src, o.state);
      }
    }
  }

  /** So does every token of a scan that does not throw, `EOF` included. */
  lemma LexLiteralsOfKind(src: string)
    ensures Lex(src).Ok? ==> LiteralsOfKind(Lex(src).state.tokens)
  {
    RunLiteralsOfKind(src, Start);
  }

  /**
   * A scan that does not throw ends its list with exactly one `EOF` token:
   * empty lexeme, no literal, on the final line; no other token is `EOF`.
   */
  lemma LexEndsWithEof(src: string)
    ensures Lex(src).Ok? ==>
      var s := Lex(src).state;
      |s.tokens| >= 1 && s.tokens[|s.tokens| - 1] == Token(Eof, "", Null, s.line)
      && forall k :: 0 <= k < |s.tokens| - 1 ==> s.tokens[k].kind != Eof
  {
    LexTokenStream(src);
  }

  /**
   * A scan that does not throw gives a token stream: each lexeme is the
   * slice of the source its span names, spans are non-empty (except the
   * final `EOF`), in source order and non-overlapping, and lines never
   * decrease.
   */
  lemma LexTokenStream(src: string)
    ensures Lex(src).Ok? ==> TokenStream(src, Lex(src).state)
  {
    StartCoherent(src);
    RunCoherent(src, Start);
    if Run(src, Start).Ok? {
      FinishStream(src, Run(src, Start).state);
    }
  }

  // ---------------------------------------------------------------------
  // One step, by its first character

  /**
   * '!', '=', '<' and '>' take the two-character kind exactly when '=' follows,
   * with a two-character lexeme; otherwise only the operator is consumed.
   */
  lemma OperatorLookahead(src: string, start: nat, line: nat)
    requires start < |src| && src[start] in "!=<>"
    ensures var r := LexOne(src, start, line);
      && r.Emit? && r.literal == Null && r.line == line
      && (r.kind in {BangEqual, EqualEqual, LessEqual, GreaterEqual} <==> Matches(src, start + 1, '='))
      && r.end == start + (if Matches(src, start + 1, '=') then 2 else 1)
      && (src[start] == '!' ==> r.kind in {Bang, BangEqual})
      && (src[start] == '=' ==> r.kind in {Equal, EqualEqual})
      && (src[start] == '<' ==> r.kind in {Less, LessEqual})
      && (src[start] == '>' ==> r.kind in {Greater, GreaterEqual})
  {
  }

  /**
   * `//` skips up to, not including, the next newline (or to the end of the
   * text) and adds no token.
   */
  lemma LineCommentSkipsLine(src: string, start: nat, line: nat)
    requires start + 2 <= |src| && src[start..start + 2] == "//"
    ensures var r := LexOne(src, start, line);
      && r.Skip? && r.line == line
      && (r.end == |src| || src[r.end] == '\n')
      && forall k :: start <= k < r.end ==> src[k] != '\n'
  {
    assert src[start] == '/' && src[start + 1] == '/';
    LineEndStops(src, start + 2);
  }

  /** Space, '\r' and '\t' are skipped; a newline is skipped and counted. */
  lemma WhitespaceSkipped(src: string, start: nat, line: nat)
    requires start < |src| && src[start] in " \r\t\n"
    ensures LexOne(src, start, line) == Skip(start + 1, if src[start] == '\n' then line + 1 else line)
  {
  }

  /** A character no rule accepts is reported and dropped; the scan goes on. */
  lemma UnexpectedCharacterReported(src: string, s: LexState)
    requires s.current < |src|
    requires src[s.current] !in "(){},.-+;*!=<>/ \r\t\n\""
    requires !IsAlphaNumeric(src[s.current])
    ensures Apply(src, s, LexOne(src, s.current, s.line))
      == Ok(s.(current := s.current + 1, errors := s.errors + [LexError(s.line, "Unexpected character.")]))
  {
  }

  // ---------------------------------------------------------------------
  // Block comments

  /** Within one pass of the loop, slash-star-slash opens and closes a level: no net change. */
  lemma SlashStarSlash(src: string, i: nat, depth: nat)
    requires i + 3 <= |src| && src[i..i + 3] == "/*/" && 0 < depth
    ensures CommentStep(src, i, depth) == Nesting(i + 3, depth)
  {
    assert src[i] == '/' && src[i + 1] == '*' && src[i + 2] == '/';
  }

  /** Slash-star not followed by '/' opens a level and consumes both characters. */
  lemma CommentStepOpens(src: string, i: nat, depth: nat)
    requires i + 2 <= |src| && src[i] == '/' && src[i + 1] == '*' && 0 < depth
    requires i + 2 == |src| || src[i + 2] != '/'
    ensures CommentStep(src, i, depth) == Nesting(i + 2, depth + 1)
  {
  }

  /** Star-slash closes a level and consumes both characters. */
  lemma CommentStepCloses(src: string, i: nat, depth: nat)
    requires i + 2 <= |src| && src[i] == '*' && src[i + 1] == '/' && 0 < depth
    ensures CommentStep(src, i, depth) == Nesting(i + 2, depth - 1)
  {
  }

  /** A '/' or '*' that starts neither mark is consumed alone and leaves the depth as it was. */
  lemma CommentStepPasses(src: string, i: nat, depth: nat)
    requires i < |src| && 0 < depth
    requires !(src[i] == '/' && PeekNext(src, i) == '*')
    requires !(src[i] == '*' && PeekNext(src, i) == '/')
    ensures CommentStep(src, i, depth) == Nesting(i + 1, depth)
  {
  }

  /** Characters other than '/' and '*' are passed over without changing the depth. */
  lemma {:induction false} BlockCommentPasses(src: string, i: nat, j: nat, depth: nat)
    requires i <= j <= |src| && 0 < depth
    requires forall k :: i <= k < j ==> src[k] != '/' && src[k] != '*'
    ensures BlockComment(src, i, depth) == BlockComment(src, j, depth)
    decreases j - i
  {
    if i < j {
      BlockCommentPasses(src, i + 1, j, depth);
    }
  }

  /**
   * The loops stop either at the end of the text or with the depth back at
   * 0; and a comment that was open and is closed ends just after the
   * star-slash that closed it.
   */
  lemma {:induction false} BlockCommentCloses(src: string, i: nat, depth: nat)
    requires i <= |src|
    ensures var r := BlockComment(src, i, depth);
      && (r.depth == 0 || r.end == |src|)
      && (0 < depth && r.depth == 0 ==> i + 2 <= r.end && src[r.end - 2] == '*' && src[r.end - 1] == '/')
    decreases |src| - i
  {
    if depth == 0 || i == |src| {
    } else if src[i] != '/' && src[i] != '*' {
      BlockCommentCloses(src, i + 1, depth);
    } else {
      var o := OpenMark(src, i, depth);
      var c := CloseMark(src, o);
      var n := CommentStep(src, i, depth);
      assert n == Nesting(c.end + 1, c.depth);
      BlockCommentCloses(src, n.end, n.depth);
      if n.depth == 0 {
        assert o.depth == 1 && o.end == i && src[i] == '*' && PeekNext(src, i) == '/';
      }
    }
  }

  /** Text with no comment marks in it. */
  predicate Unmarked(s: string) {
    forall k :: 0 <= k < |s| ==> s[k] != '/' && s[k] != '*'
  }

  /**
   * A comment nested inside another: the star-slash of the inner one does
   * not end the outer one, which goes on to the next star-slash.
   */
  lemma NestedBlockComment(a: string, b: string, c: string, d: string)
    requires Unmarked(a) && Unmarked(b) && Unmarked(c)
    ensures var src := "/*" + a + "/*" + b + "*/" + c + "*/" + d;
      BlockComment(src, 2, 1) == Nesting(|src| - |d|, 0)
  {
    var src := "/*" + a + "/*" + b + "*/" + c + "*/" + d;
    var i1 := 2 + |a|;
    var i2 := i1 + 2 + |b|;
    var i3 := i2 + 2 + |c|;
    assert BlockComment(src, 2, 1) == BlockComment(src, i1 + 2, 2) by {
      assert forall k :: 2 <= k < i1 ==> src[k] == a[k - 2];
      BlockCommentPasses(src, 2, i1, 1);
      assert src[i1] == '/' && src[i1 + 1] == '*';
      assert src[i1 + 2] != '/' by {
        if |b| > 0 { assert src[i1 + 2] == b[0]; } else { assert src[i1 + 2] == '*'; }
      }
      CommentStepOpens(src, i1, 1);
    }
    assert BlockComment(src, i1 + 2, 2) == BlockComment(src, i2 + 2, 1) by {
      assert forall k :: i1 + 2 <= k < i2 ==> src[k] == b[k - i1 - 2];
      BlockCommentPasses(src, i1 + 2, i2, 2);
      assert src[i2] == '*' && src[i2 + 1] == '/';
      CommentStepCloses(src, i2, 2);
    }
    assert BlockComment(src, i2 + 2, 1) == Nesting(i3 + 2, 0) by {
      assert forall k :: i2 + 2 <= k < i3 ==> src[k] == c[k - i2 - 2];
      BlockCommentPasses(src, i2 + 2, i3, 1);
      assert src[i3] == '*' && src[i3 + 1] == '/';
      CommentStepCloses(src, i3, 1);
    }
  }

  /** The loop steps over a block comment at the start of the text and goes on after it. */
  lemma RunPastComment(src: string)
    requires 2 <= |src| && src[0] == '/' && src[1] == '*'
    ensures Run(src, Start) == Run(src, Start.(current := BlockComment(src, 2, 1).end))
  {
    BlockCommentKeepsLine(src, Start);
  }

  /** The loop on a final '1' adds that one number token. */
  lemma RunOnFinalOne(src: string, s: LexState)
    requires s.current + 1 == |src| && src[s.current] == '1'
    ensures Run(src, s) == Ok(s.(tokens := s.tokens + [Token(Number, "1", Num("1"), s.line)],
                                 spans := s.spans + [Span(s.current, s.current + 1)],
                                 current := s.current + 1))
  {
    assert src[s.current..s.current + 1] == "1";
    assert LexOne(src, s.current, s.line) == Emit(Number, Num("1"), s.current + 1, s.line);
  }

  /** A text that is one block comment and then the digit '1' scans to that one number. */
  lemma CommentThenOne(src: string)
    requires 3 <= |src| && src[0] == '/' && src[1] == '*' && src[|src| - 1] == '1'
    requires BlockComment(src, 2, 1).end == |src| - 1
    ensures var o := Lex(src);
      && o.Ok? && o.state.errors == []
      && o.state.tokens == [Token(Number, "1", Num("1"), 1), EofToken(1)]
  {
    var s1 := Start.(current := |src| - 1);
    var s2 := s1.(tokens := [Token(Number, "1", Num("1"), 1)], spans := [Span(|src| - 1, |src|)], current := |src|);
    assert Run(src, s1) == Ok(s2) by {
      RunOnFinalOne(src, s1);
    }
    assert Run(src, Start) == Run(src, s1) by {
      RunPastComment(src);
    }
  }

  /**
   * So `/* outer /* inner */ still-outer */1`, and any text of that shape,
   * scans to one `NUMBER` token and `EOF`, with nothing reported.
   */
  lemma NestedCommentThenNumber(a: string, b: string, c: string)
    requires Unmarked(a) && Unmarked(b) && Unmarked(c)
    ensures var o := Lex("/*" + a + "/*" + b + "*/" + c + "*/" + "1");
      && o.Ok? && o.state.errors == []
      && o.state.tokens == [Token(Number, "1", Num("1"), 1), EofToken(1)]
  {
    var src := "/*" + a + "/*" + b + "*/" + c + "*/" + "1";
    NestedBlockComment(a, b, c, "1");
    assert src[0] == '/' && src[1] == '*' && src[|src| - 1] == '1';
    CommentThenOne(src);
  }

  /**
   * Slash-star starts a nested comment that adds no token, reports nothing and
   * leaves `line` as it was, whatever newlines the comment holds.
   */
  lemma BlockCommentKeepsLine(src: string, s: LexState)
    requires Matches(src, s.current, '/') && Matches(src, s.current + 1, '*')
    ensures var e := BlockComment(src, s.current + 2, 1).end;
      Apply(src, s, LexOne(src, s.current, s.line)) == Ok(s.(current := e))
  {
    var e := BlockComment(src, s.current + 2, 1).end;
    assert LexOne(src, s.current, s.line) == Skip(e, s.line);
  }

  // ---------------------------------------------------------------------
  // Numbers, identifiers and keywords

  /** A non-empty run of decimal digits. */
  ghost predicate Digits(s: string) {
    |s| > 0 && forall k :: 0 <= k < |s| ==> IsDigit(s[k])
  }

  /** `digit+ ('.' digit+)?` */
  ghost predicate NumberLexeme(s: string) {
    Digits(s) || exists k :: 0 < k < |s| && s[k] == '.' && Digits(s[..k]) && Digits(s[k + 1..])
  }

  /**
   * `number` started after the digit at `start` consumes `digit+ ('.' digit+)?`
   * and as much of it as it can: no digit follows, and when it has no
   * fraction, a '.' after it is not followed by a digit.
   */
  lemma NumberEndShape(src: string, start: nat)
    requires start < |src| && IsDigit(src[start])
    ensures var end := NumberEnd(src, start + 1);
      && NumberLexeme(src[start..end])
      && !IsDigit(Peek(src, end))
      && (Digits(src[start..end]) && Peek(src, end) == '.' ==> !IsDigit(PeekNext(src, end)))
  {
    var end := NumberEnd(src, start + 1);
    var k := DigitsEnd(src, start + 1);
    DigitsEndStops(src, start + 1);
    if end != k {
      DigitsEndStops(src, k + 1);
    }
    var lexeme := src[start..end];
    assert Digits(src[start..k]);
    if end != k {
      var d := k - start;
      assert lexeme[d] == '.' && lexeme[..d] == src[start..k] && lexeme[d + 1..] == src[k + 1..end];
      assert Digits(lexeme[d + 1..]);
      assert !Digits(lexeme) by { assert !IsDigit(lexeme[d]); }
    }
  }

  /**
   * A digit starts a `Number` token whose lexeme is `digit+ ('.' digit+)?`,
   * whose literal is that lexeme, and which is as long as it can be.
   */
  lemma NumberToken(src: string, start: nat, line: nat)
    requires start < |src| && IsDigit(src[start])
    ensures var r := LexOne(src, start, line);
      && r.Emit? && r.kind == Number && r.literal == Num(src[start..r.end]) && r.line == line
      && NumberLexeme(src[start..r.end])
      && !IsDigit(Peek(src, r.end))
      && (Digits(src[start..r.end]) && Peek(src, r.end) == '.' ==> !IsDigit(PeekNext(src, r.end)))
  {
    var end := NumberEnd(src, start + 1);
    assert LexOne(src, start, line) == Emit(Number, Num(src[start..end]), end, line);
    NumberEndShape(src, start);
  }

  /** `[A-Za-z_][A-Za-z0-9_]*` */
  ghost predicate IdentifierLexeme(s: string) {
    |s| > 0 && IsAlpha(s[0]) && forall k :: 0 < k < |s| ==> IsAlphaNumeric(s[k])
  }

  /**
   * A letter or '_' starts the longest identifier-shaped lexeme; it gets its
   * keyword's kind when it is a reserved word and `Identifier` exactly when
   * it is not.
   */
  lemma IdentifierToken(src: string, start: nat, line: nat)
    requires start < |src| && IsAlpha(src[start])
    ensures var r := LexOne(src, start, line);
      var lexeme := src[start..r.end];
      && r.Emit? && r.literal == Null && r.line == line
      && IdentifierLexeme(lexeme) && !IsAlphaNumeric(Peek(src, r.end))
      && (r.kind == Identifier <==> lexeme !in Keywords)
      && (lexeme in Keywords ==> r.kind == Keywords[lexeme])
  {
    assert !IsDigit(src[start]);
    var end := WordEnd(src, start + 1);
    WordEndStops(src, start + 1);
    assert LexOne(src, start, line) == Emit(KeywordType(src[start..end]), Null, end, line);
  }

  /** No reserved word has kind `Identifier` or `EOF`. */
  lemma KeywordTable()
    ensures forall w :: w in Keywords ==> Keywords[w] !in {Identifier, Eof}
  {
  }
}
