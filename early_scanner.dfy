/**
 * The earlier, reduced scanner as the object it is. It has the same fields
 * as the full scanner and is proved against `EarlyLexicon` the same way:
 * each method does to the fields exactly what the function of its step
 * says.
 */
module EarlyScanner {
  import opened Tokens
  import Chars
  import opened Lexing
  import opened Wrappers
  import opened EarlyLexicon

  class Scanner {
    const source: string
    var tokens: seq<Token>
    var start: nat
    var current: nat
    var line: nat
    /** where each token of `tokens` was cut from */
    ghost var spans: seq<Span>
    /** the reports passed to the error sink, oldest first */
    ghost var errors: seq<LexError>

    /** The fields as the value the functions of `EarlyLexicon` work on. */
    ghost function State(): LexState
      reads this
    {
      LexState(tokens, spans, current, line, errors)
    }

    /** The fields as they were when the current token started. */
    ghost function Entry(): LexState
      reads this
    {
      LexState(tokens, spans, start, line, errors)
    }

    ghost predicate Valid()
      reads this
    {
      start <= current <= |source|
    }

    constructor (source: string)
      ensures this.source == source && Valid() && State() == Start
    {
      this.source := source;
      tokens, start, current, line := [], 0, 0, 1;
      spans, errors := [], [];
    }

    /**
     * Scans the rest of the text and returns the token list, or `None` when
     * a string runs to the end of the text and `advance()` throws.
     */
    method ScanTokens() returns (r: Option<seq<Token>>)
      requires current <= |source|
      modifies this
      ensures match ScanFrom(source, old(State()))
        case Ok(s) => r == Some(s.tokens) && State() == s
        case Crash(e) => r == None && errors == e
    {
      while !IsAtEnd()
        invariant current <= |source|
        invariant Run(source, State()) == Run(source, old(State()))
        decreases |source| - current
      {
        start := current;
        var ok := ScanToken();
        if !ok {
          return None;
        }
      }
      tokens := tokens + [Token(Eof, "", Null, line)];
      spans := spans + [Span(current, current)];
      r := Some(tokens);
    }

    /** One token's worth of text: `false` when `advance()` threw. */
    method ScanToken() returns (ok: bool)
      requires Valid() && start == current < |source|
      modifies this
      ensures Apply(source, old(State()), LexOne(source, old(current), old(line)))
        == if ok then Ok(State()) else Crash(errors)
    {
      var c := Advance();
      ok := true;
      match c
      case '(' => AddToken(LeftParen, Null);
      case ')' => AddToken(RightParen, Null);
      case '{' => AddToken(LeftBrace, Null);
      case '}' => AddToken(RightBrace, Null);
      case ',' => AddToken(Comma, Null);
      case '.' => AddToken(Dot, Null);
      case '-' => AddToken(Minus, Null);
      case '+' => AddToken(Plus, Null);
      case ';' => AddToken(Semicolon, Null);
      case '*' => AddToken(Star, Null);
      case '!' =>
        var m := Match('=');
        AddToken(if m then BangEqual else Bang, Null);
      case '=' =>
        var m := Match('=');
        AddToken(if m then EqualEqual else Equal, Null);
      case '<' =>
        var m := Match('=');
        AddToken(if m then LessEqual else Less, Null);
      case '>' =>
        var m := Match('=');
        AddToken(if m then GreaterEqual else Greater, Null);
      case '/' => SlashOrComment();
      case ' ' =>
      case '\r' =>
      case '\t' =>
      case '\n' => line := line + 1;
      case '"' => ok := String();
      case _ => errors := errors + [LexError(line, "unexpected character.")];
    }

    /**
     * The '/' case of `scanToken`, after the '/' has been consumed: a line
     * comment runs up to the end of the line, and otherwise the '/' is a
     * `Slash` token.
     */
    method SlashOrComment()
      requires Valid() && current == start + 1 && start < |source|
      modifies this`current, this`tokens, this`spans
      ensures Valid()
      ensures Apply(source, old(Entry()), LexSlash(source, start, old(line))) == Ok(State())
    {
      var m := Match('/');
      if m {
        ghost var from := current;
        while Peek() != '\n' && !IsAtEnd()
          modifies this`current
          invariant from <= current <= |source|
          invariant Chars.LineEnd(source, current) == Chars.LineEnd(source, from)
          decreases |source| - current
        {
          var _ := Advance();
        }
      } else {
        AddToken(Slash, Null);
      }
    }

    /** Consumes the next character when it is `expected`. */
    method Match(expected: char) returns (matched: bool)
      requires Valid()
      modifies this`current
      ensures Valid()
      ensures matched == Chars.Matches(source, old(current), expected)
      ensures current == old(current) + (if matched then 1 else 0)
    {
      if IsAtEnd() || source[current] != expected {
        return false;
      }
      current := current + 1;
      return true;
    }

    /** Appends a token for the text from `start` to `current`. */
    method AddToken(kind: TokenType, literal: Value)
      requires Valid() && start < current
      modifies this`tokens, this`spans
      ensures tokens == old(tokens) + [Token(kind, source[start..current], literal, line)]
      ensures spans == old(spans) + [Span(start, current)]
      ensures Apply(source, old(Entry()), Emit(kind, literal, current, line)) == Ok(State())
    {
      var text := source[start..current];
      tokens := tokens + [Token(kind, text, literal, line)];
      spans := spans + [Span(start, current)];
    }

    /**
     * Scans a string whose opening quote has been consumed: `false` when the
     * text ends first, after the report.
     */
    method String() returns (ok: bool)
      requires Valid() && current == start + 1
      modifies this`current, this`line, this`tokens, this`spans, this`errors
      ensures Valid()
      ensures var r := LexString(source, start, old(line));
        && (ok <==> r.Emit?)
        && (ok ==> current == r.end && line == r.line && errors == old(errors)
                   && tokens == old(tokens) + [Token(r.kind, source[start..r.end], r.literal, r.line)]
                   && spans == old(spans) + [Span(start, r.end)])
        && (!ok ==> errors == old(errors) + [LexError(r.line, "Unterminated string")])
    {
      while Peek() != '"' && !IsAtEnd()
        modifies this`current, this`line
        invariant start + 1 <= current <= |source|
        invariant Chars.StringEnd(source, current, line) == Chars.StringEnd(source, start + 1, old(line))
        decreases |source| - current
      {
        if Peek() == '\n' {
          line := line + 1;
        }
        var _ := Advance();
      }
      if IsAtEnd() {
        errors := errors + [LexError(line, "Unterminated string")];
        // the `advance()` that follows reads past the end and throws
        return false;
      }
      var _ := Advance();
      AddToken(TokenType.String, Str(source[start + 1..current - 1]));
      return true;
    }

    function IsAtEnd(): bool
      reads this
    {
      current >= |source|
    }

    /** Consumes and returns the next character. */
    method Advance() returns (c: char)
      requires current < |source|
      modifies this`current
      ensures current == old(current) + 1 && c == source[old(current)]
    {
      c := source[current];
      current := current + 1;
    }

    function Peek(): char
      reads this
    {
      Chars.Peek(source, current)
    }
  }
}
